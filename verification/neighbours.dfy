/**
 * `count_adjacent_mines`: the number of mines in the 3x3 block around a cell,
 * clipped to the board. The block includes the cell itself, as in the C loops,
 * which do not skip the centre.
 */
module Neighbours {
  import opened Board

  /** The mine cells of the 3x3 block centred on (x, y) that lie on the board. */
  ghost function MinesAround(board: Grid, x: int, y: int): set<Cell>
    requires IsGrid(board)
  {
    set nx, ny | x - 1 <= nx <= x + 1 && y - 1 <= ny <= y + 1 && IsMineAt(board, nx, ny) :: Cell(nx, ny)
  }

  /**
   * The block position visited k-th by the two C loops (dy outer, dx inner,
   * both from -1 to 1): offset k is (k % 3 - 1, k / 3 - 1), and k = 4 is the centre.
   */
  function OffsetX(k: int): int { k % 3 - 1 }
  function OffsetY(k: int): int { k / 3 - 1 }

  /** The mines of the block among the first k positions the loops visit. */
  ghost function MinesVisited(board: Grid, x: int, y: int, k: int): set<Cell>
    requires IsGrid(board)
  {
    set nx, ny | x - 1 <= nx <= x + 1 && y - 1 <= ny <= y + 1
      && (ny - y + 1) * 3 + (nx - x + 1) < k && IsMineAt(board, nx, ny) :: Cell(nx, ny)
  }

  /** The running count of the C loops after their first k iterations. */
  function CountVisited(board: Grid, x: int, y: int, k: nat): (n: nat)
    requires IsGrid(board) && k <= 9
    ensures n == |MinesVisited(board, x, y, k)|
    ensures n <= k
    ensures k > 4 && !IsMineAt(board, x, y) ==> n < k
  {
    if k == 0 then
      assert MinesVisited(board, x, y, 0) == {};
      0
    else
      var nx, ny := x + OffsetX(k - 1), y + OffsetY(k - 1);
      var mine := IsMineAt(board, nx, ny);
      VisitedStep(board, x, y, k);
      AddOne(MinesVisited(board, x, y, k - 1), MinesVisited(board, x, y, k), Cell(nx, ny), mine);
      assert k - 1 == 4 ==> OffsetX(k - 1) == 0 && OffsetY(k - 1) == 0;
      CountVisited(board, x, y, k - 1) + (if mine then 1 else 0)
  }

  /** Visiting the k-th block position adds that cell to the mines seen, if it is one. */
  lemma VisitedStep(board: Grid, x: int, y: int, k: int)
    requires IsGrid(board) && 1 <= k <= 9
    ensures MinesVisited(board, x, y, k) == MinesVisited(board, x, y, k - 1)
      + (if IsMineAt(board, x + OffsetX(k - 1), y + OffsetY(k - 1))
         then {Cell(x + OffsetX(k - 1), y + OffsetY(k - 1))} else {})
    ensures Cell(x + OffsetX(k - 1), y + OffsetY(k - 1)) !in MinesVisited(board, x, y, k - 1)
  {
    var i := k - 1;
    var a, b := i % 3, i / 3;
    assert i == 3 * b + a && 0 <= a < 3 && 0 <= b < 3;
    var c := Cell(x + a - 1, y + b - 1);
    var old_, new_ := MinesVisited(board, x, y, k - 1), MinesVisited(board, x, y, k);
    forall d | d in new_
      ensures d in old_ || (d == c && IsMineAt(board, c.x, c.y))
    {
      var da, db := d.x - x + 1, d.y - y + 1;
      if 3 * db + da == i {
        assert da == a && db == b;
      }
    }
    forall d | d in old_ ensures d in new_ && d != c { }
    if IsMineAt(board, c.x, c.y) {
      assert c in new_;
    }
  }

  /** Adding an element that is not yet there grows a set by one. */
  lemma AddOne(a: set<Cell>, b: set<Cell>, c: Cell, add: bool)
    requires c !in a && b == a + (if add then {c} else {})
    ensures |b| == |a| + (if add then 1 else 0)
  {
  }

  /**
   * `count_adjacent_mines(x, y)`: the number of mine cells in the clipped 3x3
   * block around (x, y), centre included. At most 9, and at most 8 when (x, y)
   * is not itself a mine.
   */
  function AdjacentMines(board: Grid, x: int, y: int): (n: nat)
    requires IsGrid(board)
    ensures n == |MinesAround(board, x, y)|
    ensures n <= 9
    ensures !IsMineAt(board, x, y) ==> n <= 8
  {
    assert MinesVisited(board, x, y, 9) == MinesAround(board, x, y);
    CountVisited(board, x, y, 9)
  }

  /** Zero or positive count is shown as ' ' or as the digit '1'..'8'. */
  function Glyph(n: int): (c: char)
    requires 0 <= n <= 8
  {
    if n == 0 then BLANK else ('0' as int + n) as char
  }

  /** The glyph the engine writes when it reveals the safe cell (x, y). */
  function Revealed(board: Grid, x: int, y: int): (c: char)
    requires IsGrid(board) && !IsMineAt(board, x, y)
    ensures c == BLANK <==> MinesAround(board, x, y) == {}
    ensures c != BLANK ==> '1' <= c <= '8' && c as int - '0' as int == |MinesAround(board, x, y)|
    ensures c != HIDDEN && c != FLAGGED && c != MINE
  {
    Glyph(AdjacentMines(board, x, y))
  }

  /** The in-bounds cells next to (x, y), the centre excluded: where the cascade spreads. */
  predicate Adjacent(x: int, y: int, nx: int, ny: int) {
    -1 <= nx - x <= 1 && -1 <= ny - y <= 1 && (nx != x || ny != y) && InBounds(nx, ny)
  }
}
