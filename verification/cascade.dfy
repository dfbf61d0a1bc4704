/**
 * The breadth-first flood fill inside `reveal`: starting from a hidden safe
 * cell, reveal it and, while revealed cells have no adjacent mine, their
 * hidden safe neighbours too.
 *
 * The C loop keeps a FIFO of coordinates in the array `queue` with indices
 * `front` and `rear`; here the queue is the sequence of every cell ever
 * enqueued, `front` counts the cells popped, and `rear` (the number of ints
 * written into the C array, two per cell) is `2 * |queue|`.
 *
 * Two versions are modelled. `SweepAsWritten` is the loop of the C file: a
 * cell is revealed when it is popped, so a hidden cell can sit in the queue
 * several times, and the queue outgrows the `WIDTH * HEIGHT` pairs the C array
 * holds (see the module `Overflow`). `Sweep` is the corrected loop, which
 * reveals a cell when it is enqueued; every cell then enters the queue at most
 * once and the array is always large enough.
 *
 * Both loops leave the display `Fills` defines: exactly the cells reached from
 * the start through zero cells show their counts. So they leave the same
 * display (`FillUnique`), and the engine uses `Sweep`.
 */
module Cascade {
  import opened Board
  import opened Neighbours

  /** Ints in the C array `int queue[WIDTH * HEIGHT * 2]`. */
  const QUEUE_INTS: int := WIDTH * HEIGHT * 2

  /** The flood fill's state: the visible grid, every cell enqueued so far, and the pop index. */
  datatype Flood = Flood(display: Grid, queue: seq<Cell>, front: nat)

  /** Ints written into the C queue array so far. */
  function Rear(f: Flood): nat {
    2 * |f.queue|
  }

  /** The neighbour test of the C loop: on the board, still hidden and not a mine. */
  predicate Spreads(board: Grid, d: Grid, x: int, y: int)
    requires IsGrid(board) && IsGrid(d)
  {
    InBounds(x, y) && d[y][x] == HIDDEN && board[y][x] != MINE
  }

  /** The neighbour at offset (dx, dy) of c, if the fill spreads to it. */
  function Take(board: Grid, d: Grid, c: Cell, dx: int, dy: int): (r: seq<Cell>)
    requires IsGrid(board) && IsGrid(d)
  {
    if Spreads(board, d, c.x + dx, c.y + dy) then [Cell(c.x + dx, c.y + dy)] else []
  }

  /** The cells the inner `dx` loop appends for row dy of the block around c (centre skipped). */
  function Row(board: Grid, d: Grid, c: Cell, dy: int): seq<Cell>
    requires IsGrid(board) && IsGrid(d)
  {
    if dy == 0 then Take(board, d, c, -1, 0) + Take(board, d, c, 1, 0)
    else Take(board, d, c, -1, dy) + Take(board, d, c, 0, dy) + Take(board, d, c, 1, dy)
  }

  /**
   * The cells the two inner C loops append to the queue around the zero cell c,
   * in the order they append them (dy outer, dx inner, centre skipped).
   */
  function SpreadTargets(board: Grid, d: Grid, c: Cell): (r: seq<Cell>)
    requires IsGrid(board) && IsGrid(d)
  {
    Row(board, d, c, -1) + Row(board, d, c, 0) + Row(board, d, c, 1)
  }

  /**
   * One row dy of the block: at most three cells, a neighbour (dx, dy) is
   * appended exactly when the fill spreads to it, and the centre is skipped.
   */
  lemma RowTargets(board: Grid, d: Grid, c: Cell, dy: int)
    requires IsGrid(board) && IsGrid(d) && -1 <= dy <= 1
    ensures |Row(board, d, c, dy)| <= (if dy == 0 then 2 else 3)
    ensures forall t :: t in Row(board, d, c, dy) ==>
      Spreads(board, d, t.x, t.y) && Adjacent(c.x, c.y, t.x, t.y) && t.y == c.y + dy
    ensures forall nx, ny :: ny == c.y + dy && Adjacent(c.x, c.y, nx, ny) && Spreads(board, d, nx, ny) ==>
      Cell(nx, ny) in Row(board, d, c, dy)
  {
  }

  /**
   * The inner loops append at most eight cells, each a hidden safe neighbour
   * of c, and they append every hidden safe neighbour of c.
   */
  lemma SpreadTargetsExact(board: Grid, d: Grid, c: Cell)
    requires IsGrid(board) && IsGrid(d)
    ensures var r := SpreadTargets(board, d, c);
      && |r| <= 8
      && (forall t :: t in r ==> Spreads(board, d, t.x, t.y) && Adjacent(c.x, c.y, t.x, t.y))
      && (forall nx, ny :: Adjacent(c.x, c.y, nx, ny) && Spreads(board, d, nx, ny) ==> Cell(nx, ny) in r)
  {
    var r1, r2, r3 := Row(board, d, c, -1), Row(board, d, c, 0), Row(board, d, c, 1);
    RowTargets(board, d, c, -1);
    RowTargets(board, d, c, 0);
    RowTargets(board, d, c, 1);
    SpreadTargetsSound(board, d, c, r1, r2, r3);
    SpreadTargetsComplete(board, d, c, r1, r2, r3);
  }

  /** Every appended cell is a neighbour the fill spreads to. */
  lemma SpreadTargetsSound(board: Grid, d: Grid, c: Cell, r1: seq<Cell>, r2: seq<Cell>, r3: seq<Cell>)
    requires IsGrid(board) && IsGrid(d)
    requires forall t :: t in r1 ==> Spreads(board, d, t.x, t.y) && Adjacent(c.x, c.y, t.x, t.y)
    requires forall t :: t in r2 ==> Spreads(board, d, t.x, t.y) && Adjacent(c.x, c.y, t.x, t.y)
    requires forall t :: t in r3 ==> Spreads(board, d, t.x, t.y) && Adjacent(c.x, c.y, t.x, t.y)
    ensures forall t :: t in r1 + r2 + r3 ==> Spreads(board, d, t.x, t.y) && Adjacent(c.x, c.y, t.x, t.y)
  {
    forall t | t in r1 + r2 + r3
      ensures Spreads(board, d, t.x, t.y) && Adjacent(c.x, c.y, t.x, t.y)
    {
      assert t in r1 || t in r2 || t in r3;
    }
  }

  /** Every neighbour the fill spreads to lies in the row of the block it belongs to. */
  lemma SpreadTargetsComplete(board: Grid, d: Grid, c: Cell, r1: seq<Cell>, r2: seq<Cell>, r3: seq<Cell>)
    requires IsGrid(board) && IsGrid(d)
    requires forall nx, ny :: ny == c.y - 1 && Adjacent(c.x, c.y, nx, ny) && Spreads(board, d, nx, ny) ==> Cell(nx, ny) in r1
    requires forall nx, ny :: ny == c.y && Adjacent(c.x, c.y, nx, ny) && Spreads(board, d, nx, ny) ==> Cell(nx, ny) in r2
    requires forall nx, ny :: ny == c.y + 1 && Adjacent(c.x, c.y, nx, ny) && Spreads(board, d, nx, ny) ==> Cell(nx, ny) in r3
    ensures forall nx, ny :: Adjacent(c.x, c.y, nx, ny) && Spreads(board, d, nx, ny) ==> Cell(nx, ny) in r1 + r2 + r3
  {
    forall nx, ny | Adjacent(c.x, c.y, nx, ny) && Spreads(board, d, nx, ny)
      ensures Cell(nx, ny) in r1 + r2 + r3
    {
      if ny == c.y - 1 {
        assert Cell(nx, ny) in r1;
      } else if ny == c.y {
        assert Cell(nx, ny) in r2;
      } else {
        assert Cell(nx, ny) in r3;
      }
    }
  }

  // ---------------------------------------------------------------------------
  // What a flood fill may and must do
  // ---------------------------------------------------------------------------

  /** Every cell that differs from d0 was hidden and safe in d0 and now shows its count. */
  ghost predicate OnlyRevealsSafe(board: Grid, d0: Grid, d: Grid)
    requires IsGrid(board) && IsGrid(d0) && IsGrid(d)
  {
    forall y, x :: InBounds(x, y) ==>
      d[y][x] == d0[y][x] || (d0[y][x] == HIDDEN && board[y][x] != MINE && d[y][x] == Revealed(board, x, y))
  }

  /** (x, y) was hidden in d0 and the fill showed it as a zero cell. */
  ghost predicate Blanked(d0: Grid, d: Grid, x: int, y: int)
    requires IsGrid(d0) && IsGrid(d) && InBounds(x, y)
  {
    d0[y][x] == HIDDEN && d[y][x] == BLANK
  }

  /** No safe neighbour of (x, y) is still hidden. */
  ghost predicate ClosedAt(board: Grid, d: Grid, x: int, y: int)
    requires IsGrid(board) && IsGrid(d)
  {
    forall nx, ny :: Adjacent(x, y, nx, ny) && board[ny][nx] != MINE ==> d[ny][nx] != HIDDEN
  }

  /** Cascade closure: every cell the fill showed as zero has no hidden safe neighbour left. */
  ghost predicate Closed(board: Grid, d0: Grid, d: Grid)
    requires IsGrid(board) && IsGrid(d0) && IsGrid(d)
  {
    forall y, x :: InBounds(x, y) && Blanked(d0, d, x, y) ==> ClosedAt(board, d, x, y)
  }

  /** What both loops require of their start cell: `reveal` has already checked it. */
  predicate CanStart(board: Grid, d0: Grid, x: int, y: int) {
    IsGrid(board) && IsGrid(d0) && InBounds(x, y) && d0[y][x] == HIDDEN && board[y][x] != MINE
  }

  /** Number of hidden cells: the first component of the loops' termination measure. */
  function Hidden(d: Grid): nat {
    Count(d, IsHidden)
  }

  /** Queue entries are safe board cells, and the queue starts with the start cell. */
  ghost predicate QueueOk(board: Grid, f: Flood, x: int, y: int)
    requires IsGrid(board)
  {
    && IsGrid(f.display)
    && f.front <= |f.queue|
    && 1 <= |f.queue| && f.queue[0] == Cell(x, y)
    && forall i :: 0 <= i < |f.queue| ==>
         InBounds(f.queue[i].x, f.queue[i].y) && board[f.queue[i].y][f.queue[i].x] != MINE
  }

  // ---------------------------------------------------------------------------
  // Which cells a flood fill reveals
  // ---------------------------------------------------------------------------

  /**
   * A chain of cells from d0: each cell on the board, hidden in d0 and safe;
   * each next to the one before it; and every cell but the last a zero cell,
   * one whose block holds no mine.
   */
  ghost predicate Chain(board: Grid, d0: Grid, p: seq<Cell>)
    requires IsGrid(board) && IsGrid(d0)
  {
    && (forall i :: 0 <= i < |p| ==>
          InBounds(p[i].x, p[i].y) && d0[p[i].y][p[i].x] == HIDDEN && board[p[i].y][p[i].x] != MINE)
    && (forall i :: 0 <= i < |p| - 1 ==> Linked(board, p, i))
  }

  /** Cell i of p is a safe zero cell, and cell i + 1 is next to it. */
  ghost predicate Linked(board: Grid, p: seq<Cell>, i: int)
    requires IsGrid(board) && 0 <= i < |p| - 1
  {
    && InBounds(p[i].x, p[i].y) && board[p[i].y][p[i].x] != MINE
    && Revealed(board, p[i].x, p[i].y) == BLANK && Adjacent(p[i].x, p[i].y, p[i + 1].x, p[i + 1].y)
  }

  /** The flood fill from (x, y) over d0 reaches (cx, cy): a chain leads from one to the other. */
  ghost predicate Reaches(board: Grid, d0: Grid, x: int, y: int, cx: int, cy: int)
    requires IsGrid(board) && IsGrid(d0)
  {
    exists p :: Chain(board, d0, p) && |p| >= 1 && p[0] == Cell(x, y) && p[|p| - 1] == Cell(cx, cy)
  }

  /**
   * The display a flood fill from (x, y) must leave: every cell it reaches
   * shows its count, and every other cell is as it was in d0.
   */
  ghost predicate Fills(board: Grid, d0: Grid, x: int, y: int, d: Grid)
    requires IsGrid(board) && IsGrid(d0) && IsGrid(d)
  {
    forall j, i :: InBounds(i, j) ==>
      d[j][i] == (if Reaches(board, d0, x, y, i, j) && board[j][i] != MINE then Revealed(board, i, j) else d0[j][i])
  }

  /** A reached cell is on the board, hidden in d0 and safe. */
  lemma ReachedSafe(board: Grid, d0: Grid, x: int, y: int, cx: int, cy: int)
    requires IsGrid(board) && IsGrid(d0) && Reaches(board, d0, x, y, cx, cy)
    ensures InBounds(cx, cy) && d0[cy][cx] == HIDDEN && board[cy][cx] != MINE
  {
    var p :| Chain(board, d0, p) && |p| >= 1 && p[0] == Cell(x, y) && p[|p| - 1] == Cell(cx, cy);
    assert p[|p| - 1] == Cell(cx, cy);
  }

  /** The fill reaches its start. */
  lemma ReachesStart(board: Grid, d0: Grid, x: int, y: int)
    requires CanStart(board, d0, x, y)
    ensures Reaches(board, d0, x, y, x, y)
  {
    assert Chain(board, d0, [Cell(x, y)]);
  }

  /** From a reached zero cell the fill reaches every hidden safe neighbour. */
  lemma ReachesNext(board: Grid, d0: Grid, x: int, y: int, c: Cell, n: Cell)
    requires IsGrid(board) && IsGrid(d0) && Reaches(board, d0, x, y, c.x, c.y)
    requires InBounds(c.x, c.y) && board[c.y][c.x] != MINE && Revealed(board, c.x, c.y) == BLANK
    requires Adjacent(c.x, c.y, n.x, n.y) && d0[n.y][n.x] == HIDDEN && board[n.y][n.x] != MINE
    ensures Reaches(board, d0, x, y, n.x, n.y)
  {
    var p :| Chain(board, d0, p) && |p| >= 1 && p[0] == Cell(x, y) && p[|p| - 1] == c;
    ChainExtend(board, d0, p, n);
    var p' := p + [n];
    assert p'[0] == Cell(x, y) && p'[|p'| - 1] == n;
  }

  /** A chain ending at a zero cell extends by any hidden safe neighbour of that cell. */
  lemma ChainExtend(board: Grid, d0: Grid, p: seq<Cell>, n: Cell)
    requires IsGrid(board) && IsGrid(d0) && Chain(board, d0, p) && |p| >= 1
    requires Revealed(board, p[|p| - 1].x, p[|p| - 1].y) == BLANK
    requires Adjacent(p[|p| - 1].x, p[|p| - 1].y, n.x, n.y) && d0[n.y][n.x] == HIDDEN && board[n.y][n.x] != MINE
    ensures Chain(board, d0, p + [n])
  {
    var p' := p + [n];
    forall i | 0 <= i < |p'|
      ensures InBounds(p'[i].x, p'[i].y) && d0[p'[i].y][p'[i].x] == HIDDEN && board[p'[i].y][p'[i].x] != MINE
    {
      if i < |p| {
        assert p'[i] == p[i];
      }
    }
    forall i | 0 <= i < |p'| - 1
      ensures Linked(board, p', i)
    {
      if i < |p| - 1 {
        assert Linked(board, p, i);
        assert p'[i] == p[i] && p'[i + 1] == p[i + 1];
      } else {
        assert p'[i] == p[|p| - 1] && p'[i + 1] == n;
      }
    }
  }

  /** Cell c is on the board and not hidden in d. */
  ghost predicate ShownAt(d: Grid, c: Cell)
    requires IsGrid(d)
  {
    InBounds(c.x, c.y) && d[c.y][c.x] != HIDDEN
  }

  /** If cell k of p is shown in d, so is cell k + 1. */
  ghost predicate Passes(d: Grid, p: seq<Cell>, k: int)
    requires IsGrid(d) && 0 <= k < |p| - 1
  {
    ShownAt(d, p[k]) ==> ShownAt(d, p[k + 1])
  }

  /** Along a sequence where each shown cell passes to the next, a shown first cell makes every cell shown. */
  lemma {:induction false} ShownAlong(d: Grid, p: seq<Cell>, k: nat)
    requires IsGrid(d) && k < |p| && ShownAt(d, p[0])
    requires forall i :: 0 <= i < |p| - 1 ==> Passes(d, p, i)
    ensures ShownAt(d, p[k])
  {
    if k > 0 {
      ShownAlong(d, p, k - 1);
      assert Passes(d, p, k - 1);
    }
  }

  /** In a display closed around its zero cells, every cell of a chain passes to the next. */
  lemma ChainPasses(board: Grid, d0: Grid, d: Grid, p: seq<Cell>)
    requires IsGrid(board) && IsGrid(d0) && IsGrid(d) && OnlyRevealsSafe(board, d0, d) && Closed(board, d0, d)
    requires Chain(board, d0, p)
    ensures forall i :: 0 <= i < |p| - 1 ==> Passes(d, p, i)
  {
    forall i | 0 <= i < |p| - 1
      ensures Passes(d, p, i)
    {
      ChainLink(board, d0, p, i);
      if d[p[i].y][p[i].x] != HIDDEN {
        ShownNext(board, d0, d, p, i);
      }
    }
  }

  /** Consecutive cells of a chain: the first is a zero cell next to the second, and both are hidden safe cells. */
  lemma ChainLink(board: Grid, d0: Grid, p: seq<Cell>, i: nat)
    requires IsGrid(board) && IsGrid(d0) && Chain(board, d0, p) && i + 1 < |p|
    ensures InBounds(p[i].x, p[i].y) && d0[p[i].y][p[i].x] == HIDDEN && board[p[i].y][p[i].x] != MINE
    ensures Revealed(board, p[i].x, p[i].y) == BLANK && Adjacent(p[i].x, p[i].y, p[i + 1].x, p[i + 1].y)
    ensures d0[p[i + 1].y][p[i + 1].x] == HIDDEN && board[p[i + 1].y][p[i + 1].x] != MINE
  {
    assert Linked(board, p, i);
  }

  /** A closed display that shows cell k of a chain shows cell k + 1. */
  lemma ShownNext(board: Grid, d0: Grid, d: Grid, p: seq<Cell>, k: nat)
    requires IsGrid(board) && IsGrid(d0) && IsGrid(d) && OnlyRevealsSafe(board, d0, d) && Closed(board, d0, d)
    requires Chain(board, d0, p) && k + 1 < |p| && d[p[k].y][p[k].x] != HIDDEN
    ensures d[p[k + 1].y][p[k + 1].x] != HIDDEN
  {
    var c := p[k];
    ChainLink(board, d0, p, k);
    assert Blanked(d0, d, c.x, c.y);
    assert ClosedAt(board, d, c.x, c.y);
  }

  /**
   * The reference display is the only one a correct fill may leave: a display
   * that shows the start, changes only reached cells, changes each to its
   * count and is closed around its zero cells is exactly the reference.
   */
  lemma FillsExactly(board: Grid, d0: Grid, x: int, y: int, d: Grid)
    requires CanStart(board, d0, x, y) && IsGrid(d)
    requires d[y][x] == Revealed(board, x, y) && OnlyRevealsSafe(board, d0, d) && Closed(board, d0, d)
    requires forall j, i :: InBounds(i, j) && d[j][i] != d0[j][i] ==> Reaches(board, d0, x, y, i, j)
    ensures Fills(board, d0, x, y, d)
  {
    forall j, i | InBounds(i, j) && Reaches(board, d0, x, y, i, j)
      ensures board[j][i] != MINE && d[j][i] == Revealed(board, i, j)
    {
      ReachedShown(board, d0, x, y, d, i, j);
    }
  }

  /** A cell a chain reaches from a shown start is safe and shown with its glyph. */
  lemma ReachedShown(board: Grid, d0: Grid, x: int, y: int, d: Grid, i: int, j: int)
    requires IsGrid(board) && IsGrid(d0) && IsGrid(d) && OnlyRevealsSafe(board, d0, d) && Closed(board, d0, d)
    requires InBounds(x, y) && d[y][x] != HIDDEN && Reaches(board, d0, x, y, i, j)
    ensures InBounds(i, j) && board[j][i] != MINE && d[j][i] == Revealed(board, i, j)
  {
    var p :| Chain(board, d0, p) && |p| >= 1 && p[0] == Cell(x, y) && p[|p| - 1] == Cell(i, j);
    ChainEndShown(board, d0, d, p);
  }

  /** The last cell of a chain whose first cell is shown is safe and shown with its glyph. */
  lemma ChainEndShown(board: Grid, d0: Grid, d: Grid, p: seq<Cell>)
    requires IsGrid(board) && IsGrid(d0) && IsGrid(d) && OnlyRevealsSafe(board, d0, d) && Closed(board, d0, d)
    requires Chain(board, d0, p) && |p| >= 1 && ShownAt(d, p[0])
    ensures var c := p[|p| - 1]; InBounds(c.x, c.y) && board[c.y][c.x] != MINE && d[c.y][c.x] == Revealed(board, c.x, c.y)
  {
    ChainPasses(board, d0, d, p);
    ShownAlong(d, p, |p| - 1);
    ChainLast(board, d0, p);
  }

  /** The last cell of a chain is on the board, hidden in d0 and safe. */
  lemma ChainLast(board: Grid, d0: Grid, p: seq<Cell>)
    requires IsGrid(board) && IsGrid(d0) && Chain(board, d0, p) && |p| >= 1
    ensures var c := p[|p| - 1]; InBounds(c.x, c.y) && d0[c.y][c.x] == HIDDEN && board[c.y][c.x] != MINE
  {
  }

  /** Two fills from the same start over the same grids leave the same display. */
  lemma FillUnique(board: Grid, d0: Grid, x: int, y: int, d1: Grid, d2: Grid)
    requires IsGrid(board) && IsGrid(d0) && IsGrid(d1) && IsGrid(d2)
    requires Fills(board, d0, x, y, d1) && Fills(board, d0, x, y, d2)
    ensures d1 == d2
  {
    SameGrid(d1, d2);
  }

  /**
   * Revealing a numbered cell shows that cell alone: no chain leaves a cell
   * whose block holds a mine.
   */
  lemma FillsNumbered(board: Grid, d0: Grid, x: int, y: int, d: Grid)
    requires CanStart(board, d0, x, y) && IsGrid(d) && Fills(board, d0, x, y, d)
    requires Revealed(board, x, y) != BLANK
    ensures d == Set(d0, x, y, Revealed(board, x, y))
  {
    var e := Set(d0, x, y, Revealed(board, x, y));
    ReachesStart(board, d0, x, y);
    forall j, i | InBounds(i, j) && (i != x || j != y)
      ensures d[j][i] == e[j][i]
    {
      OnlyStart(board, d0, x, y, i, j);
    }
    SameGrid(d, e);
  }

  /** From a numbered start the fill reaches the start alone. */
  lemma OnlyStart(board: Grid, d0: Grid, x: int, y: int, i: int, j: int)
    requires CanStart(board, d0, x, y) && Revealed(board, x, y) != BLANK
    ensures Reaches(board, d0, x, y, i, j) ==> i == x && j == y
  {
    if Reaches(board, d0, x, y, i, j) {
      var p :| Chain(board, d0, p) && |p| >= 1 && p[0] == Cell(x, y) && p[|p| - 1] == Cell(i, j);
      ChainHead(board, d0, p);
    }
  }

  /** A chain of more than one cell starts at a zero cell. */
  lemma ChainHead(board: Grid, d0: Grid, p: seq<Cell>)
    requires IsGrid(board) && IsGrid(d0) && Chain(board, d0, p) && |p| >= 1
    ensures InBounds(p[0].x, p[0].y) && board[p[0].y][p[0].x] != MINE
    ensures |p| == 1 || Revealed(board, p[0].x, p[0].y) == BLANK
  {
    if |p| > 1 {
      ChainLink(board, d0, p, 0);
    }
  }

  /** Every queued cell and every changed cell is one the fill reaches. */
  ghost predicate Sourced(board: Grid, d0: Grid, x: int, y: int, d: Grid, q: seq<Cell>)
    requires IsGrid(board) && IsGrid(d0) && IsGrid(d)
  {
    && (forall i :: 0 <= i < |q| ==> Reaches(board, d0, x, y, q[i].x, q[i].y))
    && (forall j, i :: InBounds(i, j) && d[j][i] != d0[j][i] ==> Reaches(board, d0, x, y, i, j))
  }

  /**
   * One iteration of either loop around the reached cell c keeps every queued
   * and every changed cell reached: it queues hidden safe neighbours of c only
   * when c is a zero cell, and changes only c and the cells it queues.
   */
  lemma SourcedGrows(board: Grid, d0: Grid, x: int, y: int, d: Grid, q: seq<Cell>, d': Grid, q': seq<Cell>, c: Cell)
    requires CanStart(board, d0, x, y) && IsGrid(d) && IsGrid(d') && q <= q'
    requires OnlyRevealsSafe(board, d0, d) && Sourced(board, d0, x, y, d, q)
    requires InBounds(c.x, c.y) && board[c.y][c.x] != MINE && Reaches(board, d0, x, y, c.x, c.y)
    requires forall i :: |q| <= i < |q'| ==>
      Revealed(board, c.x, c.y) == BLANK && Adjacent(c.x, c.y, q'[i].x, q'[i].y)
      && d[q'[i].y][q'[i].x] == HIDDEN && board[q'[i].y][q'[i].x] != MINE
    requires forall j, i :: InBounds(i, j) ==> d'[j][i] == d[j][i] || (i == c.x && j == c.y) || Cell(i, j) in q'[|q|..]
    ensures Sourced(board, d0, x, y, d', q')
  {
    forall i | |q| <= i < |q'|
      ensures Reaches(board, d0, x, y, q'[i].x, q'[i].y)
    {
      var m := q'[i];
      assert d0[m.y][m.x] == HIDDEN;
      ReachesNext(board, d0, x, y, c, m);
    }
    forall j, i | InBounds(i, j) && d'[j][i] != d0[j][i]
      ensures Reaches(board, d0, x, y, i, j)
    {
      if d'[j][i] != d[j][i] && (i != c.x || j != c.y) {
        var k :| 0 <= k < |q'[|q|..]| && q'[|q|..][k] == Cell(i, j);
        assert q'[|q| + k] == Cell(i, j);
      }
    }
  }

  // ---------------------------------------------------------------------------
  // The loop as written: reveal on pop
  // ---------------------------------------------------------------------------

  /** A neighbour of a zero cell is shown, or still waits in the queue. */
  ghost predicate Covered(f: Flood, nx: int, ny: int)
    requires IsGrid(f.display) && InBounds(nx, ny) && f.front <= |f.queue|
  {
    f.display[ny][nx] != HIDDEN || Cell(nx, ny) in f.queue[f.front..]
  }

  /** Every safe neighbour of a cell the fill showed as zero is shown or still queued. */
  ghost predicate Pending(board: Grid, d0: Grid, f: Flood)
    requires IsGrid(board) && IsGrid(d0) && IsGrid(f.display) && f.front <= |f.queue|
  {
    forall cy, cx, ny, nx ::
      InBounds(cx, cy) && Blanked(d0, f.display, cx, cy) && Adjacent(cx, cy, nx, ny) && board[ny][nx] != MINE
      ==> Covered(f, nx, ny)
  }

  /** The loop invariant of the C flood fill. */
  ghost predicate AsWrittenInvariant(board: Grid, d0: Grid, x: int, y: int, f: Flood)
    requires CanStart(board, d0, x, y)
  {
    && QueueOk(board, f, x, y)
    && OnlyRevealsSafe(board, d0, f.display)
    && (f.front > 0 ==> f.display[y][x] != HIDDEN)
    && Pending(board, d0, f)
    && Hidden(f.display) <= Hidden(d0)
    && |f.queue| <= 1 + 8 * (Hidden(d0) - Hidden(f.display))
  }

  /**
   * One iteration of the C `while (front < rear)` loop: pop a cell; skip it if
   * it is no longer hidden; otherwise show its count and, if the count is zero,
   * append every hidden safe neighbour (a cell already waiting is appended again).
   */
  function PopAsWritten(board: Grid, f: Flood): (r: Flood)
    requires IsGrid(board) && IsGrid(f.display) && f.front < |f.queue|
    requires forall i :: 0 <= i < |f.queue| ==>
      InBounds(f.queue[i].x, f.queue[i].y) && board[f.queue[i].y][f.queue[i].x] != MINE
    ensures IsGrid(r.display) && r.front == f.front + 1 && f.queue <= r.queue
    ensures forall i :: 0 <= i < |r.queue| ==>
      InBounds(r.queue[i].x, r.queue[i].y) && board[r.queue[i].y][r.queue[i].x] != MINE
  {
    var c := f.queue[f.front];
    assert InBounds(c.x, c.y);
    if f.display[c.y][c.x] != HIDDEN then f.(front := f.front + 1)
    else
      var n := AdjacentMines(board, c.x, c.y);
      var d := Set(f.display, c.x, c.y, Glyph(n));
      SpreadTargetsExact(board, d, c);
      Flood(d, if n == 0 then f.queue + SpreadTargets(board, d, c) else f.queue, f.front + 1)
  }

  /**
   * Each iteration keeps the invariant and lowers the measure
   * (hidden cells, queued cells not yet popped) lexicographically.
   */
  lemma PopAsWrittenKeeps(board: Grid, d0: Grid, x: int, y: int, f: Flood)
    requires CanStart(board, d0, x, y) && AsWrittenInvariant(board, d0, x, y, f) && f.front < |f.queue|
    ensures AsWrittenInvariant(board, d0, x, y, PopAsWritten(board, f))
    ensures var r := PopAsWritten(board, f);
      Hidden(r.display) < Hidden(f.display)
      || (Hidden(r.display) == Hidden(f.display) && |r.queue| - r.front < |f.queue| - f.front)
  {
    var c := f.queue[f.front];
    if f.display[c.y][c.x] == HIDDEN {
      RevealKeeps(board, d0, x, y, f);
    } else {
      SkipKeeps(board, d0, x, y, f);
    }
  }


  /** Each iteration of the loop as written queues and changes only cells the fill reaches. */
  lemma PopAsWrittenSourced(board: Grid, d0: Grid, x: int, y: int, f: Flood)
    requires CanStart(board, d0, x, y) && IsGrid(f.display) && f.front < |f.queue|
    requires forall i :: 0 <= i < |f.queue| ==>
      InBounds(f.queue[i].x, f.queue[i].y) && board[f.queue[i].y][f.queue[i].x] != MINE
    requires OnlyRevealsSafe(board, d0, f.display) && Sourced(board, d0, x, y, f.display, f.queue)
    ensures var r := PopAsWritten(board, f); Sourced(board, d0, x, y, r.display, r.queue)
  {
    var c := f.queue[f.front];
    var r := PopAsWritten(board, f);
    PopAsWrittenShape(board, f);
    if f.display[c.y][c.x] == HIDDEN {
      RevealSourced(board, d0, x, y, f.display, f.queue, c, r.queue[|f.queue|..]);
      assert r.queue == f.queue + r.queue[|f.queue|..];
    }
  }

  /** One iteration as written either only advances `front`, or shows the popped cell and queues its targets if it is zero. */
  lemma PopAsWrittenShape(board: Grid, f: Flood)
    requires IsGrid(board) && IsGrid(f.display) && f.front < |f.queue|
    requires forall i :: 0 <= i < |f.queue| ==>
      InBounds(f.queue[i].x, f.queue[i].y) && board[f.queue[i].y][f.queue[i].x] != MINE
    ensures var c, r := f.queue[f.front], PopAsWritten(board, f);
      InBounds(c.x, c.y) && board[c.y][c.x] != MINE
      && (f.display[c.y][c.x] != HIDDEN ==> r.display == f.display && r.queue == f.queue)
      && (f.display[c.y][c.x] == HIDDEN ==>
            var d := Set(f.display, c.x, c.y, Glyph(AdjacentMines(board, c.x, c.y)));
            r.display == d
            && r.queue[|f.queue|..] == (if AdjacentMines(board, c.x, c.y) == 0 then SpreadTargets(board, d, c) else []))
  {
  }

  /** Revealing the popped cell c and queueing its targets keeps every queued and changed cell reached. */
  lemma RevealSourced(board: Grid, d0: Grid, x: int, y: int, d: Grid, q: seq<Cell>, c: Cell, t: seq<Cell>)
    requires CanStart(board, d0, x, y) && IsGrid(d) && InBounds(c.x, c.y) && board[c.y][c.x] != MINE
    requires OnlyRevealsSafe(board, d0, d) && Sourced(board, d0, x, y, d, q) && c in q
    requires t == if AdjacentMines(board, c.x, c.y) == 0
      then SpreadTargets(board, Set(d, c.x, c.y, Glyph(AdjacentMines(board, c.x, c.y))), c) else []
    ensures Sourced(board, d0, x, y, Set(d, c.x, c.y, Glyph(AdjacentMines(board, c.x, c.y))), q + t)
  {
    var d' := Set(d, c.x, c.y, Glyph(AdjacentMines(board, c.x, c.y)));
    SpreadTargetsExact(board, d', c);
    forall i | |q| <= i < |q + t|
      ensures Revealed(board, c.x, c.y) == BLANK && Adjacent(c.x, c.y, (q + t)[i].x, (q + t)[i].y)
        && d[(q + t)[i].y][(q + t)[i].x] == HIDDEN && board[(q + t)[i].y][(q + t)[i].x] != MINE
    {
      assert (q + t)[i] in t;
    }
    forall j, i | InBounds(i, j)
      ensures d'[j][i] == d[j][i] || (i == c.x && j == c.y) || Cell(i, j) in (q + t)[|q|..]
    {
    }
    SourcedGrows(board, d0, x, y, d, q, d', q + t, c);
  }

  /** Popping a cell that is no longer hidden only advances `front`. */
  lemma SkipKeeps(board: Grid, d0: Grid, x: int, y: int, f: Flood)
    requires CanStart(board, d0, x, y) && AsWrittenInvariant(board, d0, x, y, f) && f.front < |f.queue|
    requires f.display[f.queue[f.front].y][f.queue[f.front].x] != HIDDEN
    ensures AsWrittenInvariant(board, d0, x, y, PopAsWritten(board, f))
  {
    var r := PopAsWritten(board, f);
    var c := f.queue[f.front];
    assert r == f.(front := f.front + 1);
    assert f.queue[f.front..] == [c] + r.queue[r.front..];
    forall cy, cx, ny, nx |
      InBounds(cx, cy) && Blanked(d0, r.display, cx, cy) && Adjacent(cx, cy, nx, ny) && board[ny][nx] != MINE
      ensures Covered(r, nx, ny)
    {
      assert Covered(f, nx, ny);
    }
  }

  /** Popping a hidden cell shows its count and, for a zero cell, queues its hidden safe neighbours. */
  lemma RevealKeeps(board: Grid, d0: Grid, x: int, y: int, f: Flood)
    requires CanStart(board, d0, x, y) && AsWrittenInvariant(board, d0, x, y, f) && f.front < |f.queue|
    requires f.display[f.queue[f.front].y][f.queue[f.front].x] == HIDDEN
    ensures AsWrittenInvariant(board, d0, x, y, PopAsWritten(board, f))
    ensures Hidden(PopAsWritten(board, f).display) < Hidden(f.display)
  {
    var r := PopAsWritten(board, f);
    var c := f.queue[f.front];
    var n := AdjacentMines(board, c.x, c.y);
    assert r.display == Set(f.display, c.x, c.y, Revealed(board, c.x, c.y));
    CountSet(f.display, c.x, c.y, Revealed(board, c.x, c.y), IsHidden);
    assert f.display[c.y][c.x] == d0[c.y][c.x];
    RevealFrame(board, d0, f.display, c.x, c.y);
    SpreadTargetsExact(board, r.display, c);
    RevealPending(board, d0, f);
  }

  lemma RevealFrame(board: Grid, d0: Grid, d: Grid, cx: int, cy: int)
    requires IsGrid(board) && IsGrid(d0) && IsGrid(d) && InBounds(cx, cy)
    requires OnlyRevealsSafe(board, d0, d)
    requires d0[cy][cx] == HIDDEN && board[cy][cx] != MINE
    ensures OnlyRevealsSafe(board, d0, Set(d, cx, cy, Revealed(board, cx, cy)))
  {
  }

  lemma RevealPending(board: Grid, d0: Grid, f: Flood)
    requires IsGrid(board) && IsGrid(d0) && IsGrid(f.display) && f.front < |f.queue|
    requires forall i :: 0 <= i < |f.queue| ==>
      InBounds(f.queue[i].x, f.queue[i].y) && board[f.queue[i].y][f.queue[i].x] != MINE
    requires Pending(board, d0, f)
    requires f.display[f.queue[f.front].y][f.queue[f.front].x] == HIDDEN
    ensures Pending(board, d0, PopAsWritten(board, f))
  {
    var c := f.queue[f.front];
    var g := Revealed(board, c.x, c.y);
    var d := Set(f.display, c.x, c.y, g);
    var q := if g == BLANK then f.queue + SpreadTargets(board, d, c) else f.queue;
    assert PopAsWritten(board, f) == Flood(d, q, f.front + 1);
    PendingAfterReveal(board, d0, f, g, Flood(d, q, f.front + 1));
  }

  /**
   * The pending invariant across one reveal of the popped cell c: a zero c
   * queues every hidden safe neighbour; any other zero cell's neighbours
   * were shown or waiting before, and c itself is no longer waiting but shown.
   */
  lemma PendingAfterReveal(board: Grid, d0: Grid, f: Flood, g: char, r: Flood)
    requires IsGrid(board) && IsGrid(d0) && IsGrid(f.display) && f.front < |f.queue|
    requires InBounds(f.queue[f.front].x, f.queue[f.front].y)
    requires Pending(board, d0, f)
    requires f.display[f.queue[f.front].y][f.queue[f.front].x] == HIDDEN && g != HIDDEN
    requires r.front == f.front + 1
    requires r.display == Set(f.display, f.queue[f.front].x, f.queue[f.front].y, g)
    requires r.queue == if g == BLANK then f.queue + SpreadTargets(board, r.display, f.queue[f.front]) else f.queue
    ensures Pending(board, d0, r)
  {
    var c := f.queue[f.front];
    forall cy, cx, ny, nx |
      InBounds(cx, cy) && Blanked(d0, r.display, cx, cy) && Adjacent(cx, cy, nx, ny) && board[ny][nx] != MINE
      ensures Covered(r, nx, ny)
    {
      if cx == c.x && cy == c.y {
        CentreCovered(board, f, g, r, nx, ny);
      } else {
        assert Blanked(d0, f.display, cx, cy);
        assert Covered(f, nx, ny);
        CoveredStays(f, g, r, nx, ny);
      }
    }
  }

  /** After a zero cell is revealed, each of its safe neighbours is shown or queued. */
  lemma CentreCovered(board: Grid, f: Flood, g: char, r: Flood, nx: int, ny: int)
    requires IsGrid(board) && IsGrid(f.display) && f.front < |f.queue|
    requires InBounds(f.queue[f.front].x, f.queue[f.front].y)
    requires r.front == f.front + 1 && g == BLANK
    requires r.display == Set(f.display, f.queue[f.front].x, f.queue[f.front].y, g)
    requires r.queue == f.queue + SpreadTargets(board, r.display, f.queue[f.front])
    requires Adjacent(f.queue[f.front].x, f.queue[f.front].y, nx, ny) && board[ny][nx] != MINE
    ensures Covered(r, nx, ny)
  {
    var c := f.queue[f.front];
    SpreadTargetsExact(board, r.display, c);
    if r.display[ny][nx] == HIDDEN {
      assert Cell(nx, ny) in SpreadTargets(board, r.display, c);
      assert r.queue[r.front..] == f.queue[r.front..] + SpreadTargets(board, r.display, c);
    }
  }

  /** A cell shown or waiting before the popped cell's reveal is still shown or waiting after it. */
  lemma CoveredStays(f: Flood, g: char, r: Flood, nx: int, ny: int)
    requires IsGrid(f.display) && f.front < |f.queue| && InBounds(nx, ny)
    requires InBounds(f.queue[f.front].x, f.queue[f.front].y) && g != HIDDEN
    requires r.front == f.front + 1 && f.queue <= r.queue
    requires r.display == Set(f.display, f.queue[f.front].x, f.queue[f.front].y, g)
    requires Covered(f, nx, ny)
    ensures Covered(r, nx, ny)
  {
    var c := f.queue[f.front];
    if f.display[ny][nx] == HIDDEN && Cell(nx, ny) != c {
      assert f.queue[f.front..] == [c] + f.queue[r.front..];
      assert Cell(nx, ny) in f.queue[r.front..];
      assert f.queue[r.front..] <= r.queue[r.front..];
    }
  }

  /**
   * The cascade of `reveal` as the C file writes it, from the hidden safe cell
   * (x, y). It reveals (x, y); every cell it changes was hidden and safe and now
   * shows its count; every cell it shows as zero has no hidden safe neighbour
   * left; and the cells it changes are exactly those reached from (x, y)
   * through zero cells. `rear` is the final value of the C index into `queue`:
   * up to 2 + 16 * (cells revealed), which the array of WIDTH * HEIGHT pairs
   * does not hold.
   */
  method SweepAsWritten(board: Grid, d0: Grid, x: int, y: int) returns (d: Grid, rear: nat)
    requires CanStart(board, d0, x, y)
    ensures IsGrid(d)
    ensures d[y][x] == Revealed(board, x, y)
    ensures OnlyRevealsSafe(board, d0, d)
    ensures Closed(board, d0, d)
    ensures 2 <= rear <= 2 + 16 * (Hidden(d0) - Hidden(d))
    ensures Fills(board, d0, x, y, d)
  {
    var f := Flood(d0, [Cell(x, y)], 0);
    CountBounds(d0, IsHidden);
    ReachesStart(board, d0, x, y);
    while f.front < |f.queue|
      invariant AsWrittenInvariant(board, d0, x, y, f)
      invariant Sourced(board, d0, x, y, f.display, f.queue)
      decreases Hidden(f.display), |f.queue| - f.front
    {
      PopAsWrittenKeeps(board, d0, x, y, f);
      PopAsWrittenSourced(board, d0, x, y, f);
      f := PopAsWritten(board, f);
    }
    d, rear := f.display, Rear(f);
    assert f.queue[f.front..] == [];
    FillsExactly(board, d0, x, y, d);
  }
  // ---------------------------------------------------------------------------
  // The corrected loop: reveal on enqueue
  // ---------------------------------------------------------------------------

  /** Index of the block position (dx, dy) in the order the C loops visit it; the centre is 4. */
  function OffsetIndex(dx: int, dy: int): int {
    (dy + 1) * 3 + (dx + 1)
  }

  /**
   * One iteration of the corrected inner loops, at block position k around c:
   * a hidden safe neighbour is shown at once and then queued, so no later
   * test sees it hidden again.
   */
  function SpreadStep(board: Grid, d: Grid, q: seq<Cell>, c: Cell, k: nat): (r: (Grid, seq<Cell>))
    requires IsGrid(board) && IsGrid(d) && k < 9
    ensures IsGrid(r.0) && q <= r.1
  {
    var nx, ny := c.x + OffsetX(k), c.y + OffsetY(k);
    if k != 4 && Spreads(board, d, nx, ny) then
      (Set(d, nx, ny, Revealed(board, nx, ny)), q + [Cell(nx, ny)])
    else
      (d, q)
  }

  /** The corrected inner loops, from block position k on. */
  function SpreadFrom(board: Grid, d: Grid, q: seq<Cell>, c: Cell, k: nat): (r: (Grid, seq<Cell>))
    requires IsGrid(board) && IsGrid(d) && k <= 9
    ensures IsGrid(r.0) && q <= r.1
    decreases 9 - k
  {
    if k == 9 then (d, q)
    else
      var s := SpreadStep(board, d, q, c, k);
      SpreadFrom(board, s.0, s.1, c, k + 1)
  }

  /** The block position with index k, for k a neighbour index, is (OffsetX(k), OffsetY(k)). */
  lemma OffsetIndexInverse(dx: int, dy: int, k: int)
    requires -1 <= dx <= 1 && -1 <= dy <= 1 && 0 <= k < 9
    ensures OffsetIndex(dx, dy) == k <==> dx == OffsetX(k) && dy == OffsetY(k)
  {
  }

  /**
   * One step of the corrected inner loops queues at most the neighbour at
   * position k, which was hidden and safe and now shows its count, changes
   * nothing else, and leaves that neighbour shown if it is safe.
   */
  lemma StepFacts(board: Grid, d: Grid, q: seq<Cell>, c: Cell, k: nat)
    requires IsGrid(board) && IsGrid(d) && k < 9
    ensures var s := SpreadStep(board, d, q, c, k);
      && Hidden(s.0) + |s.1| == Hidden(d) + |q|
      && (forall i :: |q| <= i < |s.1| ==> InBounds(s.1[i].x, s.1[i].y) && board[s.1[i].y][s.1[i].x] != MINE)
      && (forall y, x :: InBounds(x, y) ==>
            s.0[y][x] == d[y][x]
            || (d[y][x] == HIDDEN && board[y][x] != MINE && s.0[y][x] == Revealed(board, x, y)
                && Cell(x, y) in s.1[|q|..]))
      && (forall nx, ny ::
            Adjacent(c.x, c.y, nx, ny) && OffsetIndex(nx - c.x, ny - c.y) == k && board[ny][nx] != MINE
            ==> s.0[ny][nx] != HIDDEN)
  {
    var nx, ny := c.x + OffsetX(k), c.y + OffsetY(k);
    forall mx, my | Adjacent(c.x, c.y, mx, my)
      ensures OffsetIndex(mx - c.x, my - c.y) == k <==> mx == nx && my == ny
    {
      OffsetIndexInverse(mx - c.x, my - c.y, k);
    }
    if k != 4 && Spreads(board, d, nx, ny) {
      CountSet(d, nx, ny, Revealed(board, nx, ny), IsHidden);
      assert (q + [Cell(nx, ny)])[|q|..] == [Cell(nx, ny)];
    }
  }

  /**
   * What the corrected inner loops do: each cell they queue was hidden and safe
   * and is now shown with its count (so the hidden count falls by exactly the
   * number queued), nothing else changes, and no safe neighbour of c at block
   * position k or later is left hidden.
   */
  lemma SpreadFromFacts(board: Grid, d: Grid, q: seq<Cell>, c: Cell, k: nat)
    requires IsGrid(board) && IsGrid(d) && k <= 9
    ensures var r := SpreadFrom(board, d, q, c, k);
      && Hidden(r.0) + |r.1| == Hidden(d) + |q|
      && (forall i :: |q| <= i < |r.1| ==> InBounds(r.1[i].x, r.1[i].y) && board[r.1[i].y][r.1[i].x] != MINE)
      && (forall y, x :: InBounds(x, y) ==>
            r.0[y][x] == d[y][x]
            || (d[y][x] == HIDDEN && board[y][x] != MINE && r.0[y][x] == Revealed(board, x, y)
                && Cell(x, y) in r.1[|q|..]))
      && (forall nx, ny ::
            Adjacent(c.x, c.y, nx, ny) && OffsetIndex(nx - c.x, ny - c.y) >= k && board[ny][nx] != MINE
            ==> r.0[ny][nx] != HIDDEN)
  {
    SpreadFromCount(board, d, q, c, k);
    SpreadFromFrame(board, d, q, c, k);
    SpreadFromCloses(board, d, q, c, k);
  }

  /** The corrected inner loops queue in-bounds safe cells, one per cell they show. */
  lemma {:induction false} SpreadFromCount(board: Grid, d: Grid, q: seq<Cell>, c: Cell, k: nat)
    requires IsGrid(board) && IsGrid(d) && k <= 9
    ensures var r := SpreadFrom(board, d, q, c, k);
      && Hidden(r.0) + |r.1| == Hidden(d) + |q|
      && (forall i :: |q| <= i < |r.1| ==> InBounds(r.1[i].x, r.1[i].y) && board[r.1[i].y][r.1[i].x] != MINE)
    decreases 9 - k
  {
    if k < 9 {
      var s := SpreadStep(board, d, q, c, k);
      StepFacts(board, d, q, c, k);
      SpreadFromCount(board, s.0, s.1, c, k + 1);
    }
  }

  /** The corrected inner loops change only hidden safe cells, each to its count, and queue each one they change. */
  lemma {:induction false} SpreadFromFrame(board: Grid, d: Grid, q: seq<Cell>, c: Cell, k: nat)
    requires IsGrid(board) && IsGrid(d) && k <= 9
    ensures var r := SpreadFrom(board, d, q, c, k);
      forall y, x :: InBounds(x, y) ==>
        r.0[y][x] == d[y][x]
        || (d[y][x] == HIDDEN && board[y][x] != MINE && r.0[y][x] == Revealed(board, x, y)
            && Cell(x, y) in r.1[|q|..])
    decreases 9 - k
  {
    if k < 9 {
      var s := SpreadStep(board, d, q, c, k);
      var r := SpreadFrom(board, s.0, s.1, c, k + 1);
      StepFacts(board, d, q, c, k);
      SpreadFromFrame(board, s.0, s.1, c, k + 1);
      forall y, x | InBounds(x, y)
        ensures r.0[y][x] == d[y][x]
          || (d[y][x] == HIDDEN && board[y][x] != MINE && r.0[y][x] == Revealed(board, x, y)
              && Cell(x, y) in r.1[|q|..])
      {
        if r.0[y][x] != s.0[y][x] {
          assert s.0[y][x] == HIDDEN;
          assert s.0[y][x] == d[y][x];
          QueueTail(q, s.1, r.1, Cell(x, y));
        } else if s.0[y][x] != d[y][x] {
          QueueMiddle(q, s.1, r.1, Cell(x, y));
        }
      }
    }
  }

  /**
   * One step of the corrected inner loops queues only a neighbour of c that
   * was hidden, and hides no cell.
   */
  lemma StepQueued(board: Grid, d: Grid, q: seq<Cell>, c: Cell, k: nat)
    requires IsGrid(board) && IsGrid(d) && k < 9
    ensures var s := SpreadStep(board, d, q, c, k);
      && (forall i :: |q| <= i < |s.1| ==> Adjacent(c.x, c.y, s.1[i].x, s.1[i].y) && d[s.1[i].y][s.1[i].x] == HIDDEN)
      && (forall y, x :: InBounds(x, y) && s.0[y][x] == HIDDEN ==> d[y][x] == HIDDEN)
  {
    var nx, ny := c.x + OffsetX(k), c.y + OffsetY(k);
    if k != 4 && Spreads(board, d, nx, ny) {
      assert OffsetX(k) == 0 && OffsetY(k) == 0 ==> k == 4;
      assert SpreadStep(board, d, q, c, k).1 == q + [Cell(nx, ny)];
    }
  }

  /** Every cell of q' past q is a neighbour of c that was hidden in d. */
  ghost predicate QueuedNear(d: Grid, q: seq<Cell>, q': seq<Cell>, c: Cell)
    requires IsGrid(d)
  {
    forall i :: |q| <= i < |q'| ==> Adjacent(c.x, c.y, q'[i].x, q'[i].y) && d[q'[i].y][q'[i].x] == HIDDEN
  }

  /** The corrected inner loops queue only neighbours of c that were hidden before them. */
  lemma {:induction false} SpreadFromQueued(board: Grid, d: Grid, q: seq<Cell>, c: Cell, k: nat)
    requires IsGrid(board) && IsGrid(d) && k <= 9
    ensures QueuedNear(d, q, SpreadFrom(board, d, q, c, k).1, c)
    decreases 9 - k
  {
    if k < 9 {
      var s := SpreadStep(board, d, q, c, k);
      var r := SpreadFrom(board, s.0, s.1, c, k + 1);
      StepQueued(board, d, q, c, k);
      SpreadFromQueued(board, s.0, s.1, c, k + 1);
      assert QueuedNear(s.0, s.1, r.1, c);
      forall i | |q| <= i < |r.1|
        ensures Adjacent(c.x, c.y, r.1[i].x, r.1[i].y) && d[r.1[i].y][r.1[i].x] == HIDDEN
      {
        if i < |s.1| {
          assert r.1[i] == s.1[i];
        }
      }
    }
  }

  /** A cell queued after q in the later queue r was queued after q. */
  lemma QueueTail(q: seq<Cell>, s: seq<Cell>, r: seq<Cell>, t: Cell)
    requires q <= s <= r && t in r[|s|..]
    ensures t in r[|q|..]
  {
    var i :| |s| <= i < |r| && r[i] == t;
    assert r[|q|..][i - |q|] == t;
  }

  /** A cell queued between q and s stays queued after q in the later queue r. */
  lemma QueueMiddle(q: seq<Cell>, s: seq<Cell>, r: seq<Cell>, t: Cell)
    requires q <= s <= r && t in s[|q|..]
    ensures t in r[|q|..]
  {
    var i :| |q| <= i < |s| && s[i] == t;
    assert r[|q|..][i - |q|] == t;
  }

  /** The corrected inner loops never hide a shown cell again. */
  lemma SpreadFromShown(board: Grid, d: Grid, q: seq<Cell>, c: Cell, k: nat, x: int, y: int)
    requires IsGrid(board) && IsGrid(d) && k <= 9 && InBounds(x, y) && d[y][x] != HIDDEN
    ensures SpreadFrom(board, d, q, c, k).0[y][x] != HIDDEN
  {
    SpreadFromFrame(board, d, q, c, k);
  }

  /** After the corrected inner loops, no safe neighbour of c at block position k or later is hidden. */
  lemma {:induction false} SpreadFromCloses(board: Grid, d: Grid, q: seq<Cell>, c: Cell, k: nat)
    requires IsGrid(board) && IsGrid(d) && k <= 9
    ensures var r := SpreadFrom(board, d, q, c, k);
      forall nx, ny ::
        Adjacent(c.x, c.y, nx, ny) && OffsetIndex(nx - c.x, ny - c.y) >= k && board[ny][nx] != MINE
        ==> r.0[ny][nx] != HIDDEN
    decreases 9 - k
  {
    if k < 9 {
      var s := SpreadStep(board, d, q, c, k);
      var r := SpreadFrom(board, s.0, s.1, c, k + 1);
      StepFacts(board, d, q, c, k);
      SpreadFromCloses(board, s.0, s.1, c, k + 1);
      forall nx, ny | Adjacent(c.x, c.y, nx, ny) && OffsetIndex(nx - c.x, ny - c.y) == k && board[ny][nx] != MINE
        ensures r.0[ny][nx] != HIDDEN
      {
        SpreadFromShown(board, s.0, s.1, c, k + 1, nx, ny);
      }
    }
  }

  /**
   * One iteration of the corrected loop: pop a cell; if it shows zero, show and
   * queue its hidden safe neighbours.
   */
  function Pop(board: Grid, f: Flood): (r: Flood)
    requires IsGrid(board) && IsGrid(f.display) && f.front < |f.queue|
    requires InBounds(f.queue[f.front].x, f.queue[f.front].y)
    ensures IsGrid(r.display) && r.front == f.front + 1 && f.queue <= r.queue
  {
    var c := f.queue[f.front];
    if f.display[c.y][c.x] == BLANK then
      var (d, q) := SpreadFrom(board, f.display, f.queue, c, 0);
      Flood(d, q, f.front + 1)
    else
      f.(front := f.front + 1)
  }

  /** The loop invariant of the corrected flood fill. */
  ghost predicate SweepInvariant(board: Grid, d0: Grid, x: int, y: int, f: Flood)
    requires CanStart(board, d0, x, y)
  {
    && QueueOk(board, f, x, y)
    && OnlyRevealsSafe(board, d0, f.display)
    && f.display[y][x] != HIDDEN
    && (forall cy, cx :: InBounds(cx, cy) && f.display[cy][cx] != d0[cy][cx] ==> Cell(cx, cy) in f.queue)
    && (forall cy, cx :: InBounds(cx, cy) && Blanked(d0, f.display, cx, cy) ==>
          Cell(cx, cy) in f.queue[f.front..] || ClosedAt(board, f.display, cx, cy))
    && |f.queue| + Hidden(f.display) == Hidden(d0)
  }

  /** Each corrected iteration keeps the invariant. */
  lemma PopKeeps(board: Grid, d0: Grid, x: int, y: int, f: Flood)
    requires CanStart(board, d0, x, y) && SweepInvariant(board, d0, x, y, f) && f.front < |f.queue|
    ensures SweepInvariant(board, d0, x, y, Pop(board, f))
  {
    var c := f.queue[f.front];
    if f.display[c.y][c.x] == BLANK {
      var r := SpreadFrom(board, f.display, f.queue, c, 0);
      assert Pop(board, f) == Flood(r.0, r.1, f.front + 1);
      SpreadFromCount(board, f.display, f.queue, c, 0);
      SpreadFromFrame(board, f.display, f.queue, c, 0);
      SpreadClosesCentre(board, f.display, f.queue, c);
      SpreadKeeps(board, d0, x, y, f, r.0, r.1);
    } else {
      assert Pop(board, f) == f.(front := f.front + 1);
      SkipKeepsInvariant(board, d0, x, y, f);
    }
  }

  /** Each iteration of the corrected loop queues and changes only cells the fill reaches. */
  lemma PopSourced(board: Grid, d0: Grid, x: int, y: int, f: Flood)
    requires CanStart(board, d0, x, y) && IsGrid(f.display) && f.front < |f.queue|
    requires forall i :: 0 <= i < |f.queue| ==>
      InBounds(f.queue[i].x, f.queue[i].y) && board[f.queue[i].y][f.queue[i].x] != MINE
    requires OnlyRevealsSafe(board, d0, f.display) && Sourced(board, d0, x, y, f.display, f.queue)
    ensures var r := Pop(board, f); Sourced(board, d0, x, y, r.display, r.queue)
  {
    var c := f.queue[f.front];
    if f.display[c.y][c.x] == BLANK {
      var r := SpreadFrom(board, f.display, f.queue, c, 0);
      assert Pop(board, f) == Flood(r.0, r.1, f.front + 1);
      SpreadSourced(board, d0, x, y, f.display, f.queue, c, r.0, r.1);
    }
  }

  /** Spreading around a reached cell that shows zero keeps every queued and changed cell reached. */
  lemma SpreadSourced(board: Grid, d0: Grid, x: int, y: int, d: Grid, q: seq<Cell>, c: Cell, d': Grid, q': seq<Cell>)
    requires CanStart(board, d0, x, y) && IsGrid(d) && InBounds(c.x, c.y) && board[c.y][c.x] != MINE
    requires OnlyRevealsSafe(board, d0, d) && Sourced(board, d0, x, y, d, q) && c in q && d[c.y][c.x] == BLANK
    requires (d', q') == SpreadFrom(board, d, q, c, 0)
    ensures Sourced(board, d0, x, y, d', q')
  {
    assert Reaches(board, d0, x, y, c.x, c.y);
    ReachedSafe(board, d0, x, y, c.x, c.y);
    assert Revealed(board, c.x, c.y) == BLANK;
    SpreadFromQueued(board, d, q, c, 0);
    SpreadFromCount(board, d, q, c, 0);
    SpreadFromFrame(board, d, q, c, 0);
    assert QueuedNear(d, q, q', c);
    SourcedGrows(board, d0, x, y, d, q, d', q', c);
  }

  /** Popping a cell that does not show zero only advances `front`. */
  lemma SkipKeepsInvariant(board: Grid, d0: Grid, x: int, y: int, f: Flood)
    requires CanStart(board, d0, x, y) && SweepInvariant(board, d0, x, y, f) && f.front < |f.queue|
    requires f.display[f.queue[f.front].y][f.queue[f.front].x] != BLANK
    ensures SweepInvariant(board, d0, x, y, f.(front := f.front + 1))
  {
    assert f.queue[f.front..] == [f.queue[f.front]] + f.queue[f.front + 1..];
  }

  /**
   * What one spread around the popped cell guarantees about the new display d
   * and queue q: one queued cell per cell shown, only in-bounds safe cells
   * queued, only hidden safe cells shown (each queued), and the popped cell
   * closed.
   */
  ghost predicate SpreadResult(board: Grid, f: Flood, d: Grid, q: seq<Cell>)
    requires IsGrid(board) && IsGrid(f.display) && f.front < |f.queue|
  {
    && IsGrid(d) && f.queue <= q
    && Hidden(d) + |q| == Hidden(f.display) + |f.queue|
    && (forall i :: |f.queue| <= i < |q| ==> InBounds(q[i].x, q[i].y) && board[q[i].y][q[i].x] != MINE)
    && (forall y, x :: InBounds(x, y) ==>
          d[y][x] == f.display[y][x]
          || (f.display[y][x] == HIDDEN && board[y][x] != MINE && d[y][x] == Revealed(board, x, y)
              && Cell(x, y) in q[|f.queue|..]))
    && ClosedAt(board, d, f.queue[f.front].x, f.queue[f.front].y)
  }

  /** Popping a zero cell and spreading around it keeps the invariant. */
  lemma SpreadKeeps(board: Grid, d0: Grid, x: int, y: int, f: Flood, d: Grid, q: seq<Cell>)
    requires CanStart(board, d0, x, y) && SweepInvariant(board, d0, x, y, f) && f.front < |f.queue|
    requires SpreadResult(board, f, d, q)
    ensures SweepInvariant(board, d0, x, y, Flood(d, q, f.front + 1))
  {
    SpreadKeepsDisplay(board, d0, x, y, f, d, q);
    SpreadKeepsQueue(board, d0, x, y, f, d, q);
  }

  /** The display half of the invariant across a spread. */
  lemma SpreadKeepsDisplay(board: Grid, d0: Grid, x: int, y: int, f: Flood, d: Grid, q: seq<Cell>)
    requires CanStart(board, d0, x, y) && SweepInvariant(board, d0, x, y, f) && f.front < |f.queue|
    requires SpreadResult(board, f, d, q)
    ensures OnlyRevealsSafe(board, d0, d)
    ensures forall cy, cx :: InBounds(cx, cy) && d[cy][cx] != d0[cy][cx] ==> Cell(cx, cy) in q
    ensures forall cy, cx :: InBounds(cx, cy) && Blanked(d0, d, cx, cy) ==>
      Cell(cx, cy) in q[f.front + 1..] || ClosedAt(board, d, cx, cy)
  {
    WaitingOrClosed(board, d0, f.display, d, f.queue, q, f.front);
    ChangesQueued(board, d0, f.display, d, f.queue, q);
  }

  /** The queue half of the invariant across a spread. */
  lemma SpreadKeepsQueue(board: Grid, d0: Grid, x: int, y: int, f: Flood, d: Grid, q: seq<Cell>)
    requires CanStart(board, d0, x, y) && SweepInvariant(board, d0, x, y, f) && f.front < |f.queue|
    requires SpreadResult(board, f, d, q)
    ensures QueueOk(board, Flood(d, q, f.front + 1), x, y)
    ensures d[y][x] != HIDDEN
    ensures |q| + Hidden(d) == Hidden(d0)
  {
    QueueGrows(board, f, Flood(d, q, f.front + 1), x, y);
    StartStaysShown(board, f.display, d, x, y);
  }

  /** A shown cell stays shown when cells change only from hidden to a count. */
  lemma StartStaysShown(board: Grid, d: Grid, d': Grid, x: int, y: int)
    requires IsGrid(board) && IsGrid(d) && IsGrid(d') && InBounds(x, y) && d[y][x] != HIDDEN
    requires forall j, i :: InBounds(i, j) ==> d'[j][i] == d[j][i] || d[j][i] == HIDDEN
    ensures d'[y][x] != HIDDEN
  {
  }

  /** Appending in-bounds safe cells and advancing `front` by one keeps the queue well formed. */
  lemma QueueGrows(board: Grid, f: Flood, r: Flood, x: int, y: int)
    requires IsGrid(board) && QueueOk(board, f, x, y) && f.front < |f.queue|
    requires IsGrid(r.display) && f.queue <= r.queue && r.front == f.front + 1
    requires forall i :: |f.queue| <= i < |r.queue| ==>
      InBounds(r.queue[i].x, r.queue[i].y) && board[r.queue[i].y][r.queue[i].x] != MINE
    ensures QueueOk(board, r, x, y)
  {
    forall i | 0 <= i < |r.queue|
      ensures InBounds(r.queue[i].x, r.queue[i].y) && board[r.queue[i].y][r.queue[i].x] != MINE
    {
      if i < |f.queue| {
        assert r.queue[i] == f.queue[i];
      }
    }
  }

  /**
   * Across one spread, every cell that differs from d0 is queued and was
   * shown safely: cells shown before were queued before, cells shown now are
   * queued after q.
   */
  lemma ChangesQueued(board: Grid, d0: Grid, d: Grid, d': Grid, q: seq<Cell>, q': seq<Cell>)
    requires IsGrid(board) && IsGrid(d0) && IsGrid(d) && IsGrid(d') && q <= q'
    requires OnlyRevealsSafe(board, d0, d)
    requires forall cy, cx :: InBounds(cx, cy) && d[cy][cx] != d0[cy][cx] ==> Cell(cx, cy) in q
    requires forall y, x :: InBounds(x, y) ==>
      d'[y][x] == d[y][x]
      || (d[y][x] == HIDDEN && board[y][x] != MINE && d'[y][x] == Revealed(board, x, y) && Cell(x, y) in q'[|q|..])
    ensures OnlyRevealsSafe(board, d0, d')
    ensures forall cy, cx :: InBounds(cx, cy) && d'[cy][cx] != d0[cy][cx] ==> Cell(cx, cy) in q'
  {
    forall cy, cx | InBounds(cx, cy) && d'[cy][cx] != d0[cy][cx]
      ensures Cell(cx, cy) in q'
    {
      if d'[cy][cx] == d[cy][cx] {
        assert Cell(cx, cy) in q;
      } else {
        assert Cell(cx, cy) in q'[|q|..];
      }
    }
  }

  /**
   * The closure invariant across one spread around the popped cell q[front]:
   * cells newly shown are queued after q, older zero cells were waiting or
   * closed, and the popped cell is closed now.
   */
  lemma WaitingOrClosed(board: Grid, d0: Grid, d: Grid, d': Grid, q: seq<Cell>, q': seq<Cell>, front: nat)
    requires IsGrid(board) && IsGrid(d0) && IsGrid(d) && IsGrid(d')
    requires front < |q| && q <= q'
    requires forall cy, cx :: InBounds(cx, cy) && Blanked(d0, d, cx, cy) ==>
      Cell(cx, cy) in q[front..] || ClosedAt(board, d, cx, cy)
    requires forall y, x :: InBounds(x, y) ==>
      d'[y][x] == d[y][x]
      || (d[y][x] == HIDDEN && board[y][x] != MINE && d'[y][x] == Revealed(board, x, y) && Cell(x, y) in q'[|q|..])
    requires ClosedAt(board, d', q[front].x, q[front].y)
    ensures forall cy, cx :: InBounds(cx, cy) && Blanked(d0, d', cx, cy) ==>
      Cell(cx, cy) in q'[front + 1..] || ClosedAt(board, d', cx, cy)
  {
    var c := q[front];
    assert q[front..] == [c] + q[front + 1..];
    assert q'[front + 1..] == q[front + 1..] + q'[|q|..];
    forall cy, cx | InBounds(cx, cy) && Blanked(d0, d', cx, cy)
      ensures Cell(cx, cy) in q'[front + 1..] || ClosedAt(board, d', cx, cy)
    {
      if d[cy][cx] == HIDDEN {
        assert Cell(cx, cy) in q'[|q|..];
      } else if cx != c.x || cy != c.y {
        assert Blanked(d0, d, cx, cy);
        if ClosedAt(board, d, cx, cy) {
          ClosedStays(board, d, d', cx, cy);
        } else {
          assert Cell(cx, cy) in q[front + 1..];
        }
      }
    }
  }

  /** The spread around c leaves c itself closed. */
  lemma SpreadClosesCentre(board: Grid, d: Grid, q: seq<Cell>, c: Cell)
    requires IsGrid(board) && IsGrid(d)
    ensures ClosedAt(board, SpreadFrom(board, d, q, c, 0).0, c.x, c.y)
  {
    SpreadFromCloses(board, d, q, c, 0);
    forall nx, ny | Adjacent(c.x, c.y, nx, ny)
      ensures OffsetIndex(nx - c.x, ny - c.y) >= 0
    {
    }
  }

  /** A closed cell stays closed while shown cells stay shown. */
  lemma ClosedStays(board: Grid, d: Grid, d': Grid, x: int, y: int)
    requires IsGrid(board) && IsGrid(d) && IsGrid(d')
    requires forall j, i :: InBounds(i, j) ==> d'[j][i] == d[j][i] || d'[j][i] != HIDDEN
    requires ClosedAt(board, d, x, y)
    ensures ClosedAt(board, d', x, y)
  {
  }

  /**
   * The cascade of `reveal`, corrected so that a cell is shown as it is queued.
   * It leaves the same display as `SweepAsWritten`, the one `Fills` defines,
   * and promises everything else that loop does. Besides, every cell is queued at most
   * once: `rear` is twice the number of cells revealed, so it never exceeds the
   * WIDTH * HEIGHT * 2 ints of the C queue array.
   */
  method Sweep(board: Grid, d0: Grid, x: int, y: int) returns (d: Grid, rear: nat)
    requires CanStart(board, d0, x, y)
    ensures IsGrid(d)
    ensures d[y][x] == Revealed(board, x, y)
    ensures OnlyRevealsSafe(board, d0, d)
    ensures Closed(board, d0, d)
    ensures rear == 2 * (Hidden(d0) - Hidden(d))
    ensures 2 <= rear <= QUEUE_INTS
    ensures Fills(board, d0, x, y, d)
  {
    var f := Flood(Set(d0, x, y, Revealed(board, x, y)), [Cell(x, y)], 0);
    SweepStarts(board, d0, x, y);
    while f.front < |f.queue|
      invariant SweepState(board, d0, x, y, f)
      decreases Hidden(d0) - f.front
    {
      PopKeepsState(board, d0, x, y, f);
      f := Pop(board, f);
    }
    SweepDone(board, d0, x, y, f);
    d, rear := f.display, Rear(f);
  }

  /** The corrected loop's invariant, with every queued and changed cell reached. */
  ghost predicate SweepState(board: Grid, d0: Grid, x: int, y: int, f: Flood)
    requires CanStart(board, d0, x, y)
  {
    SweepInvariant(board, d0, x, y, f) && Sourced(board, d0, x, y, f.display, f.queue)
  }

  /** The corrected loop starts with the start cell shown and queued. */
  lemma SweepStarts(board: Grid, d0: Grid, x: int, y: int)
    requires CanStart(board, d0, x, y)
    ensures SweepState(board, d0, x, y, Flood(Set(d0, x, y, Revealed(board, x, y)), [Cell(x, y)], 0))
  {
    CountSet(d0, x, y, Revealed(board, x, y), IsHidden);
    ReachesStart(board, d0, x, y);
  }

  /** Each corrected iteration keeps the loop's state and pops a cell of the at most Hidden(d0) queued. */
  lemma PopKeepsState(board: Grid, d0: Grid, x: int, y: int, f: Flood)
    requires CanStart(board, d0, x, y) && SweepState(board, d0, x, y, f) && f.front < |f.queue|
    ensures SweepState(board, d0, x, y, Pop(board, f)) && f.front < Hidden(d0)
  {
    PopKeeps(board, d0, x, y, f);
    PopSourced(board, d0, x, y, f);
  }

  /** When the corrected loop stops, its display is the reference fill and `rear` fits the array. */
  lemma SweepDone(board: Grid, d0: Grid, x: int, y: int, f: Flood)
    requires CanStart(board, d0, x, y) && SweepState(board, d0, x, y, f) && f.front == |f.queue|
    ensures IsGrid(f.display)
    ensures f.display[y][x] == Revealed(board, x, y)
    ensures OnlyRevealsSafe(board, d0, f.display)
    ensures Closed(board, d0, f.display)
    ensures Rear(f) == 2 * (Hidden(d0) - Hidden(f.display))
    ensures 2 <= Rear(f) <= QUEUE_INTS
    ensures Fills(board, d0, x, y, f.display)
  {
    CountBounds(d0, IsHidden);
    assert f.queue[f.front..] == [];
    FillsExactly(board, d0, x, y, f.display);
  }
}
