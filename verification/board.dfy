/**
 * The two character grids of the minesweeper engine, the board constants and
 * the cell-counting functions every other module builds on.
 *
 * A grid is HEIGHT rows of WIDTH characters and is indexed g[y][x], row first,
 * exactly like the C arrays `board[HEIGHT][WIDTH]` and `display_board[HEIGHT][WIDTH]`.
 */
module Board {

  /** Default board dimensions and mine count (overridable with compiler flags in C). */
  const WIDTH: int := 9
  const HEIGHT: int := 9
  const MINES: int := 10

  /** Cell glyphs. The C file also defines '0' (REVEALED) and 'X' (MISS), which nothing uses. */
  const HIDDEN: char := '.'
  const MINE: char := '*'
  const FLAGGED: char := 'F'
  const BLANK: char := ' '

  /** The compile-time guard `#if MINES >= (WIDTH * HEIGHT - 1)` of the C file. */
  predicate ConfigOk() {
    0 < WIDTH && 0 < HEIGHT && 0 <= MINES < WIDTH * HEIGHT - 1
  }

  /** The default constants pass the compile-time guard. */
  lemma ConfigHolds()
    ensures ConfigOk()
  {
  }

  /** A board coordinate: column x, row y. */
  datatype Cell = Cell(x: int, y: int)

  predicate InBounds(x: int, y: int) {
    0 <= x < WIDTH && 0 <= y < HEIGHT
  }

  type Grid = seq<seq<char>>

  predicate IsGrid(g: Grid) {
    |g| == HEIGHT && forall y :: 0 <= y < HEIGHT ==> |g[y]| == WIDTH
  }

  /** The grid with the single cell (x, y) overwritten by c. */
  function Set(g: Grid, x: int, y: int, c: char): (r: Grid)
    requires IsGrid(g) && InBounds(x, y)
    ensures IsGrid(r) && r[y][x] == c
    ensures forall j, i :: 0 <= j < HEIGHT && 0 <= i < WIDTH && (i != x || j != y) ==> r[j][i] == g[j][i]
  {
    g[y := g[y][x := c]]
  }

  /** Two grids that agree on every cell are equal. */
  lemma SameGrid(a: Grid, b: Grid)
    requires IsGrid(a) && IsGrid(b)
    requires forall y, x :: InBounds(x, y) ==> a[y][x] == b[y][x]
    ensures a == b
  {
    forall y | 0 <= y < HEIGHT
      ensures a[y] == b[y]
    {
      assert forall x :: 0 <= x < WIDTH ==> a[y][x] == b[y][x];
    }
  }

  /** The grid holding c everywhere. */
  function Fill(c: char): (g: Grid)
    ensures IsGrid(g)
    ensures forall y, x :: 0 <= y < HEIGHT && 0 <= x < WIDTH ==> g[y][x] == c
  {
    seq(HEIGHT, _ => seq(WIDTH, _ => c))
  }

  /** Whether (x, y) is on the board and holds a mine there. */
  predicate IsMineAt(board: Grid, x: int, y: int)
    requires IsGrid(board)
  {
    InBounds(x, y) && board[y][x] == MINE
  }

  // ---------------------------------------------------------------------------
  // Character classes and counting
  // ---------------------------------------------------------------------------

  predicate IsHidden(c: char) { c == HIDDEN }
  predicate IsFlagged(c: char) { c == FLAGGED }
  predicate IsMine(c: char) { c == MINE }
  predicate IsSafe(c: char) { c != MINE }

  /** What `check_win` counts as revealed: anything that is neither hidden nor flagged. */
  predicate IsOpen(c: char) { c != HIDDEN && c != FLAGGED }

  /** Number of characters of a row in class p. */
  function CountRow(row: seq<char>, p: char -> bool): nat
  {
    if |row| == 0 then 0
    else CountRow(row[..|row| - 1], p) + (if p(row[|row| - 1]) then 1 else 0)
  }

  /** Number of cells of a list of rows in class p. */
  function Count(g: seq<seq<char>>, p: char -> bool): nat
  {
    if |g| == 0 then 0
    else Count(g[..|g| - 1], p) + CountRow(g[|g| - 1], p)
  }

  lemma {:induction false} CountRowBounds(row: seq<char>, p: char -> bool)
    ensures CountRow(row, p) <= |row|
    ensures CountRow(row, p) == 0 <==> forall i :: 0 <= i < |row| ==> !p(row[i])
    ensures CountRow(row, p) == |row| <==> forall i :: 0 <= i < |row| ==> p(row[i])
  {
    if |row| > 0 {
      var r := row[..|row| - 1];
      CountRowBounds(r, p);
      assert forall i :: 0 <= i < |r| ==> r[i] == row[i];
    }
  }

  lemma {:induction false} CountRowsBounds(g: seq<seq<char>>, p: char -> bool)
    requires forall y :: 0 <= y < |g| ==> |g[y]| == WIDTH
    ensures Count(g, p) <= |g| * WIDTH
    ensures Count(g, p) == 0 <==> forall y, x :: 0 <= y < |g| && 0 <= x < WIDTH ==> !p(g[y][x])
  {
    if |g| > 0 {
      var h := g[..|g| - 1];
      CountRowsBounds(h, p);
      CountRowBounds(g[|g| - 1], p);
      assert forall y :: 0 <= y < |h| ==> h[y] == g[y];
    }
  }

  /** A grid has at most WIDTH * HEIGHT cells in any class, and none exactly when no cell is in it. */
  lemma CountBounds(g: Grid, p: char -> bool)
    requires IsGrid(g)
    ensures Count(g, p) <= WIDTH * HEIGHT
    ensures Count(g, p) == 0 <==> forall y, x :: InBounds(x, y) ==> !p(g[y][x])
  {
    CountRowsBounds(g, p);
  }

  lemma {:induction false} CountRowUpdate(row: seq<char>, i: int, c: char, p: char -> bool)
    requires 0 <= i < |row|
    ensures CountRow(row[i := c], p)
         == CountRow(row, p) - (if p(row[i]) then 1 else 0) + (if p(c) then 1 else 0)
  {
    var row' := row[i := c];
    if i < |row| - 1 {
      assert row'[..|row'| - 1] == row[..|row| - 1][i := c];
      CountRowUpdate(row[..|row| - 1], i, c, p);
    } else {
      assert row'[..|row'| - 1] == row[..|row| - 1];
    }
  }

  lemma {:induction false} CountRowsUpdate(g: seq<seq<char>>, y: int, x: int, c: char, p: char -> bool)
    requires 0 <= y < |g| && 0 <= x < |g[y]|
    ensures Count(g[y := g[y][x := c]], p)
         == Count(g, p) - (if p(g[y][x]) then 1 else 0) + (if p(c) then 1 else 0)
  {
    var g' := g[y := g[y][x := c]];
    if y < |g| - 1 {
      assert g'[..|g'| - 1] == g[..|g| - 1][y := g[y][x := c]];
      CountRowsUpdate(g[..|g| - 1], y, x, c, p);
    } else {
      assert g'[..|g'| - 1] == g[..|g| - 1];
      CountRowUpdate(g[y], x, c, p);
    }
  }

  /** Overwriting one cell moves the count of a class by the classes of the old and new glyph. */
  lemma CountSet(g: Grid, x: int, y: int, c: char, p: char -> bool)
    requires IsGrid(g) && InBounds(x, y)
    ensures Count(Set(g, x, y, c), p)
         == Count(g, p) - (if p(g[y][x]) then 1 else 0) + (if p(c) then 1 else 0)
  {
    CountRowsUpdate(g, y, x, c, p);
  }

  lemma {:induction false} CountRowPrefix(row: seq<char>, i: int, p: char -> bool)
    requires 0 <= i < |row|
    ensures CountRow(row[..i + 1], p) == CountRow(row[..i], p) + (if p(row[i]) then 1 else 0)
  {
    assert row[..i + 1][..i] == row[..i];
  }

  lemma {:induction false} CountPrefix(g: seq<seq<char>>, y: int, p: char -> bool)
    requires 0 <= y < |g|
    ensures Count(g[..y + 1], p) == Count(g[..y], p) + CountRow(g[y], p)
  {
    assert g[..y + 1][..y] == g[..y];
  }

  /**
   * Counting two grids cell by cell: if every cell of g1 in class p sits where g2
   * is in class q, then g1 has at most as many p cells as g2 has q cells, and the
   * numbers agree only when the two classes coincide cell by cell.
   */
  lemma {:induction false} CountRowMono(r1: seq<char>, p: char -> bool, r2: seq<char>, q: char -> bool)
    requires |r1| == |r2|
    requires forall i :: 0 <= i < |r1| && p(r1[i]) ==> q(r2[i])
    ensures CountRow(r1, p) <= CountRow(r2, q)
    ensures CountRow(r1, p) == CountRow(r2, q) ==> forall i :: 0 <= i < |r1| && q(r2[i]) ==> p(r1[i])
  {
    if |r1| > 0 {
      var n := |r1| - 1;
      var s1, s2 := r1[..n], r2[..n];
      assert forall i :: 0 <= i < n ==> s1[i] == r1[i] && s2[i] == r2[i];
      CountRowMono(s1, p, s2, q);
    }
  }

  lemma {:induction false} CountRowsMono(g1: seq<seq<char>>, p: char -> bool, g2: seq<seq<char>>, q: char -> bool)
    requires |g1| == |g2|
    requires forall y :: 0 <= y < |g1| ==> |g1[y]| == |g2[y]|
    requires forall y, x :: 0 <= y < |g1| && 0 <= x < |g1[y]| && p(g1[y][x]) ==> q(g2[y][x])
    ensures Count(g1, p) <= Count(g2, q)
    ensures Count(g1, p) == Count(g2, q) ==>
      forall y, x :: 0 <= y < |g1| && 0 <= x < |g1[y]| && q(g2[y][x]) ==> p(g1[y][x])
  {
    if |g1| > 0 {
      var n := |g1| - 1;
      var h1, h2 := g1[..n], g2[..n];
      assert forall y :: 0 <= y < n ==> h1[y] == g1[y] && h2[y] == g2[y];
      CountRowsMono(h1, p, h2, q);
      CountRowMono(g1[n], p, g2[n], q);
    }
  }

  lemma CountMono(g1: Grid, p: char -> bool, g2: Grid, q: char -> bool)
    requires IsGrid(g1) && IsGrid(g2)
    requires forall y, x :: InBounds(x, y) && p(g1[y][x]) ==> q(g2[y][x])
    ensures Count(g1, p) <= Count(g2, q)
    ensures Count(g1, p) == Count(g2, q) ==> forall y, x :: InBounds(x, y) && q(g2[y][x]) ==> p(g1[y][x])
  {
    CountRowsMono(g1, p, g2, q);
  }

  lemma {:induction false} CountRowSplit(row: seq<char>, p: char -> bool, q: char -> bool)
    requires forall c :: p(c) <==> !q(c)
    ensures CountRow(row, p) + CountRow(row, q) == |row|
  {
    if |row| > 0 {
      CountRowSplit(row[..|row| - 1], p, q);
    }
  }

  lemma {:induction false} CountRowsSplit(g: seq<seq<char>>, p: char -> bool, q: char -> bool)
    requires forall y :: 0 <= y < |g| ==> |g[y]| == WIDTH
    requires forall c :: p(c) <==> !q(c)
    ensures Count(g, p) + Count(g, q) == |g| * WIDTH
  {
    if |g| > 0 {
      var h := g[..|g| - 1];
      assert forall y :: 0 <= y < |h| ==> h[y] == g[y];
      CountRowsSplit(h, p, q);
      CountRowSplit(g[|g| - 1], p, q);
    }
  }

  /** Every cell is in exactly one of two complementary classes. */
  lemma CountSplit(g: Grid, p: char -> bool, q: char -> bool)
    requires IsGrid(g)
    requires forall c :: p(c) <==> !q(c)
    ensures Count(g, p) + Count(g, q) == WIDTH * HEIGHT
  {
    CountRowsSplit(g, p, q);
  }

  /**
   * If fewer than WIDTH * HEIGHT - 1 cells are in class p, some cell other than
   * the given one is outside p. This is why the mine-placing loop can always pick a cell.
   */
  lemma FreeCellExists(g: Grid, p: char -> bool, sx: int, sy: int) returns (x: int, y: int)
    requires IsGrid(g)
    requires Count(g, p) < WIDTH * HEIGHT - 1
    ensures InBounds(x, y) && (x != sx || y != sy) && !p(g[y][x])
  {
    var q := (c: char) => !p(c);
    CountBounds(g, p);
    if Count(g, p) == 0 {
      x, y := if sx == 0 && sy == 0 then 1 else 0, 0;
    } else {
      // Overwrite the excluded cell with a glyph of class p; some cell is still outside p.
      var a, b :| InBounds(a, b) && p(g[b][a]);
      var g' := if InBounds(sx, sy) then Set(g, sx, sy, g[b][a]) else g;
      if InBounds(sx, sy) {
        CountSet(g, sx, sy, g[b][a], p);
      }
      CountSplit(g', p, q);
      CountBounds(g', q);
      x, y :| InBounds(x, y) && q(g'[y][x]);
    }
  }
}
