/**
 * The queue of the C flood fill overflows.
 *
 * `reveal` declares `int queue[WIDTH * HEIGHT * 2]`, room for WIDTH * HEIGHT
 * coordinate pairs, as if every cell were queued at most once. But a hidden
 * cell is queued again by every zero neighbour revealed before it is popped,
 * since the test before `queue[rear++] = nx` only asks whether the cell is
 * still hidden. This module unfolds the as-written loop body `PopAsWritten` on a
 * concrete 9x9 board with the default 10 mines, all in the bottom-right corner
 * (columns 4..8 of rows 7 and 8), and a first reveal at column 3, row 3: on
 * the 19th pop the loop writes its 82nd pair, beyond the end of the array.
 */
module Overflow {
  import opened Board
  import opened Neighbours
  import opened Cascade

  /** Ten mines in columns 4..8 of the two bottom rows. */
  const Demo: Grid := seq(HEIGHT, y => seq(WIDTH, x => if 4 <= x && 7 <= y then MINE else HIDDEN))

  /** The fill state `reveal(3, 3)` starts its loop with on a fresh display. */
  function Start(): Flood {
    Flood(Fill(HIDDEN), [Cell(3, 3)], 0)
  }

  lemma DemoShape()
    ensures IsGrid(Demo)
    ensures forall y, x :: InBounds(x, y) ==> (Demo[y][x] == MINE <==> 4 <= x && 7 <= y)
  {
  }

  /** The demo board is one `place_mines(3, 3)` can produce: MINES mines, none at (3, 3). */
  lemma DemoReachable()
    ensures IsGrid(Demo) && Count(Demo, IsMine) == MINES && Demo[3][3] != MINE
  {
    forall y | 0 <= y < 7 ensures CountRow(Demo[y], IsMine) == 0 {
      CountRowBounds(Demo[y], IsMine);
    }
    forall y | 7 <= y < 9 ensures CountRow(Demo[y], IsMine) == 5 {
      MineRowCount(Demo[y]);
    }
    var k := 0;
    while k < 9
      invariant 0 <= k <= 9
      invariant Count(Demo[..k], IsMine) == if k <= 7 then 0 else 5 * (k - 7)
    {
      CountPrefix(Demo, k, IsMine);
      k := k + 1;
    }
    assert Demo[..9] == Demo;
  }

  /** A bottom row of the demo board holds five mines. */
  lemma MineRowCount(row: seq<char>)
    requires |row| == WIDTH && forall x :: 0 <= x < WIDTH ==> (row[x] == MINE <==> 4 <= x)
    ensures CountRow(row, IsMine) == 5
  {
    var k := 0;
    while k < WIDTH
      invariant 0 <= k <= WIDTH
      invariant CountRow(row[..k], IsMine) == if k <= 4 then 0 else k - 4
    {
      CountRowPrefix(row, k, IsMine);
      k := k + 1;
    }
    assert row[..WIDTH] == row;
  }

  /**
   * A cell whose 3x3 block holds no mine counts zero. On the demo board that is
   * every cell above row 6.
   */
  lemma DemoZero(x: int, y: int)
    requires InBounds(x, y) && y <= 5
    ensures IsGrid(Demo) && AdjacentMines(Demo, x, y) == 0
  {
    DemoShape();
    assert MinesAround(Demo, x, y) == {};
  }

  /** Whether every queued cell is a safe board cell: what `PopAsWritten` needs. */
  predicate QueueSafe(board: Grid, f: Flood)
    requires IsGrid(board)
  {
    forall i :: 0 <= i < |f.queue| ==> InBounds(f.queue[i].x, f.queue[i].y) && board[f.queue[i].y][f.queue[i].x] != MINE
  }

  /** The as-written loop after k iterations (or fewer, if the queue drains first). */
  function Run(board: Grid, f: Flood, k: nat): (r: Flood)
    requires IsGrid(board) && IsGrid(f.display) && QueueSafe(board, f)
    ensures IsGrid(r.display) && QueueSafe(board, r)
  {
    if k == 0 then f
    else
      var g := Run(board, f, k - 1);
      if g.front < |g.queue| then PopAsWritten(board, g) else g
  }

  lemma RunStep(board: Grid, f: Flood, k: nat)
    requires IsGrid(board) && IsGrid(f.display) && QueueSafe(board, f)
    requires Run(board, f, k).front < |Run(board, f, k).queue|
    ensures Run(board, f, k + 1) == PopAsWritten(board, Run(board, f, k))
  {
  }

  /** The mine formula of the demo board. */
  predicate DemoMine(x: int, y: int) {
    4 <= x && 7 <= y
  }

  /** The display of the demo run: the given cells shown as zero, every other cell hidden. */
  ghost predicate Shows(d: Grid, open: set<Cell>) {
    IsGrid(d) && forall y, x :: InBounds(x, y) ==> d[y][x] == if Cell(x, y) in open then BLANK else HIDDEN
  }

  /** The C test at offset (dx, dy) of c on the demo board, read off the set of cells shown. */
  function Reach(open: set<Cell>, c: Cell, dx: int, dy: int): seq<Cell> {
    var n := Cell(c.x + dx, c.y + dy);
    if InBounds(n.x, n.y) && n !in open && !DemoMine(n.x, n.y) then [n] else []
  }

  /** The cells appended around c, in the order of the C loops, read off the set of cells shown. */
  function Targets(open: set<Cell>, c: Cell): seq<Cell> {
    (Reach(open, c, -1, -1) + Reach(open, c, 0, -1) + Reach(open, c, 1, -1))
    + (Reach(open, c, -1, 0) + Reach(open, c, 1, 0))
    + (Reach(open, c, -1, 1) + Reach(open, c, 0, 1) + Reach(open, c, 1, 1))
  }

  lemma TakeMatch(d: Grid, open: set<Cell>, c: Cell, dx: int, dy: int)
    requires Shows(d, open)
    ensures IsGrid(Demo) && Take(Demo, d, c, dx, dy) == Reach(open, c, dx, dy)
  {
    DemoShape();
  }

  /** On a display of zero cells, what the C loops append is what `Targets` says. */
  lemma TargetsMatch(d: Grid, open: set<Cell>, c: Cell)
    requires Shows(d, open)
    ensures IsGrid(Demo) && SpreadTargets(Demo, d, c) == Targets(open, c)
  {
    TakeMatch(d, open, c, -1, -1);
    TakeMatch(d, open, c, 0, -1);
    TakeMatch(d, open, c, 1, -1);
    TakeMatch(d, open, c, -1, 0);
    TakeMatch(d, open, c, 1, 0);
    TakeMatch(d, open, c, -1, 1);
    TakeMatch(d, open, c, 0, 1);
    TakeMatch(d, open, c, 1, 1);
  }

  /**
   * Popping a hidden cell above row 6 shows it as zero and appends its
   * targets, computed on the display that includes it.
   */
  lemma RevealStep(f: Flood, open: set<Cell>, next: set<Cell>, added: seq<Cell>)
    requires IsGrid(Demo) && QueueSafe(Demo, f) && Shows(f.display, open) && f.front < |f.queue|
    requires f.queue[f.front] !in open && f.queue[f.front].y <= 5
    requires next == open + {f.queue[f.front]} && Targets(next, f.queue[f.front]) == added
    ensures var r := PopAsWritten(Demo, f);
      && r.front == f.front + 1
      && r.queue == f.queue + added
      && |r.queue| == |f.queue| + |added|
      && Shows(r.display, next)
  {
    var c := f.queue[f.front];
    DemoZero(c.x, c.y);
    var d := Set(f.display, c.x, c.y, Glyph(0));
    assert Shows(d, next);
    TargetsMatch(d, next, c);
  }

  /** Popping a cell already shown only advances `front`. */
  lemma SkipStep(f: Flood, open: set<Cell>)
    requires IsGrid(Demo) && QueueSafe(Demo, f) && Shows(f.display, open) && f.front < |f.queue|
    requires f.queue[f.front] in open
    ensures PopAsWritten(Demo, f) == f.(front := f.front + 1)
  {
  }

  /**
   * A snapshot of the demo run: `front` cells popped, `len` cells queued, the
   * cells of `open` shown as zero, and `next` the cells waiting at the front.
   */
  ghost predicate At(f: Flood, front: nat, len: nat, open: set<Cell>, next: seq<Cell>) {
    && f.front == front && |f.queue| == len && front + |next| <= len
    && f.queue[front..front + |next|] == next
    && Shows(f.display, open)
  }

  /**
   * What one pop does to a snapshot's abstract parts: a cell already shown is
   * skipped; a hidden one is shown and its targets `added` are appended.
   * `want` is the part of the new waiting line the next snapshot keeps: it
   * may reach into `added` only when `next` is the whole waiting line.
   */
  predicate Moves(open: set<Cell>, next: seq<Cell>, whole: bool, open': set<Cell>, added: seq<Cell>, want: seq<Cell>) {
    && |next| > 0
    && (|| (next[0] in open && open' == open && added == [])
        || (next[0] !in open && next[0].y <= 5 && open' == open + {next[0]} && Targets(open', next[0]) == added))
    && want <= next[1..] + (if whole then added else [])
  }

  /** The waiting line a snapshot keeps after one pop appends `added`. */
  lemma WaitingLine(q: seq<Cell>, front: nat, next: seq<Cell>, whole: bool, added: seq<Cell>, want: seq<Cell>)
    requires 0 < |next| && front + |next| <= |q| && q[front..front + |next|] == next
    requires whole ==> front + |next| == |q|
    requires want <= next[1..] + (if whole then added else [])
    ensures front + 1 + |want| <= |q + added| && (q + added)[front + 1..front + 1 + |want|] == want
  {
    if whole {
      assert (q + added)[front + 1..] == next[1..] + added;
    } else {
      assert (q + added)[front + 1..front + |next|] == next[1..];
    }
  }

  /** One pop from a snapshot, with the waiting line left symbolic. */
  lemma PopMoves(f: Flood, open: set<Cell>, open': set<Cell>, added: seq<Cell>)
    requires IsGrid(Demo) && QueueSafe(Demo, f) && Shows(f.display, open) && f.front < |f.queue|
    requires || (f.queue[f.front] in open && open' == open && added == [])
             || (f.queue[f.front] !in open && f.queue[f.front].y <= 5 && open' == open + {f.queue[f.front]}
                 && Targets(open', f.queue[f.front]) == added)
    ensures var r := PopAsWritten(Demo, f);
      r.front == f.front + 1 && r.queue == f.queue + added && Shows(r.display, open')
  {
    if f.queue[f.front] in open {
      SkipStep(f, open);
    } else {
      RevealStep(f, open, open', added);
    }
  }

  /** One more iteration of the run takes a snapshot to the next one. */
  lemma Step(s: Flood, k: nat, front: nat, len: nat, open: set<Cell>, next: seq<Cell>, whole: bool,
             open': set<Cell>, added: seq<Cell>, want: seq<Cell>)
    requires IsGrid(Demo) && IsGrid(s.display) && QueueSafe(Demo, s)
    requires At(Run(Demo, s, k), front, len, open, next) && (whole ==> front + |next| == len)
    requires Moves(open, next, whole, open', added, want)
    ensures At(Run(Demo, s, k + 1), front + 1, len + |added|, open', want)
  {
    var f := Run(Demo, s, k);
    RunStep(Demo, s, k);
    assert f.queue[front] == next[0];
    PopMoves(f, open, open', added);
    WaitingLine(f.queue, front, next, whole, added, want);
  }

  // ---------------------------------------------------------------------------
  // The run, iteration by iteration
  //
  // `TraceN` states the snapshot after N iterations and `MovesN` what iteration
  // N does to the abstract parts of the snapshot before it. The literal cell
  // lists were written out mechanically, one iteration at a time, by following
  // the rules of `Moves` and `Targets`; nothing in them is trusted, since each
  // `MovesN` is checked against `Targets` and each `TraceN` is derived from the
  // one before by `Step`.
  // ---------------------------------------------------------------------------

  lemma Trace0()
    ensures IsGrid(Demo) && QueueSafe(Demo, Start())
    ensures At(Run(Demo, Start(), 0), 0, 1,
      {},
      [Cell(3, 3)])
  {
    DemoShape();
    assert Start().queue[0..1] == [Cell(3, 3)];
  }

  lemma Moves1()
    ensures Moves(
      {},
      [Cell(3, 3)], true,
      {Cell(3, 3)},
      [Cell(2, 2), Cell(3, 2), Cell(4, 2), Cell(2, 3), Cell(4, 3), Cell(2, 4), Cell(3, 4),
       Cell(4, 4)],
      [Cell(2, 2), Cell(3, 2), Cell(4, 2), Cell(2, 3), Cell(4, 3), Cell(2, 4), Cell(3, 4),
       Cell(4, 4)])
  {
    var o := {Cell(3, 3)};
    var c := Cell(3, 3);
    assert Reach(o, c, -1, -1) + Reach(o, c, 0, -1) + Reach(o, c, 1, -1) == [Cell(2, 2), Cell(3, 2), Cell(4, 2)];
    assert Reach(o, c, -1, 0) + Reach(o, c, 1, 0) == [Cell(2, 3), Cell(4, 3)];
    assert Reach(o, c, -1, 1) + Reach(o, c, 0, 1) + Reach(o, c, 1, 1) == [Cell(2, 4), Cell(3, 4), Cell(4, 4)];
  }

  lemma Trace1()
    ensures IsGrid(Demo) && QueueSafe(Demo, Start())
    ensures At(Run(Demo, Start(), 1), 1, 9,
      {Cell(3, 3)},
      [Cell(2, 2), Cell(3, 2), Cell(4, 2), Cell(2, 3), Cell(4, 3), Cell(2, 4), Cell(3, 4),
       Cell(4, 4)])
  {
    Trace0();
    Moves1();
    Step(Start(), 0, 0, 1,
      {},
      [Cell(3, 3)], true,
      {Cell(3, 3)},
      [Cell(2, 2), Cell(3, 2), Cell(4, 2), Cell(2, 3), Cell(4, 3), Cell(2, 4), Cell(3, 4),
       Cell(4, 4)],
      [Cell(2, 2), Cell(3, 2), Cell(4, 2), Cell(2, 3), Cell(4, 3), Cell(2, 4), Cell(3, 4),
       Cell(4, 4)]);
  }

  lemma Moves2()
    ensures Moves(
      {Cell(3, 3)},
      [Cell(2, 2), Cell(3, 2), Cell(4, 2), Cell(2, 3), Cell(4, 3), Cell(2, 4), Cell(3, 4),
       Cell(4, 4)], true,
      {Cell(2, 2), Cell(3, 3)},
      [Cell(1, 1), Cell(2, 1), Cell(3, 1), Cell(1, 2), Cell(3, 2), Cell(1, 3), Cell(2, 3)],
      [Cell(3, 2), Cell(4, 2), Cell(2, 3), Cell(4, 3), Cell(2, 4), Cell(3, 4), Cell(4, 4),
       Cell(1, 1), Cell(2, 1), Cell(3, 1), Cell(1, 2), Cell(3, 2), Cell(1, 3), Cell(2, 3)])
  {
    var o := {Cell(2, 2), Cell(3, 3)};
    var c := Cell(2, 2);
    assert Reach(o, c, -1, -1) + Reach(o, c, 0, -1) + Reach(o, c, 1, -1) == [Cell(1, 1), Cell(2, 1), Cell(3, 1)];
    assert Reach(o, c, -1, 0) + Reach(o, c, 1, 0) == [Cell(1, 2), Cell(3, 2)];
    assert Reach(o, c, -1, 1) + Reach(o, c, 0, 1) + Reach(o, c, 1, 1) == [Cell(1, 3), Cell(2, 3)];
  }

  lemma Trace2()
    ensures IsGrid(Demo) && QueueSafe(Demo, Start())
    ensures At(Run(Demo, Start(), 2), 2, 16,
      {Cell(2, 2), Cell(3, 3)},
      [Cell(3, 2), Cell(4, 2), Cell(2, 3), Cell(4, 3), Cell(2, 4), Cell(3, 4), Cell(4, 4),
       Cell(1, 1), Cell(2, 1), Cell(3, 1), Cell(1, 2), Cell(3, 2), Cell(1, 3), Cell(2, 3)])
  {
    Trace1();
    Moves2();
    Step(Start(), 1, 1, 9,
      {Cell(3, 3)},
      [Cell(2, 2), Cell(3, 2), Cell(4, 2), Cell(2, 3), Cell(4, 3), Cell(2, 4), Cell(3, 4),
       Cell(4, 4)], true,
      {Cell(2, 2), Cell(3, 3)},
      [Cell(1, 1), Cell(2, 1), Cell(3, 1), Cell(1, 2), Cell(3, 2), Cell(1, 3), Cell(2, 3)],
      [Cell(3, 2), Cell(4, 2), Cell(2, 3), Cell(4, 3), Cell(2, 4), Cell(3, 4), Cell(4, 4),
       Cell(1, 1), Cell(2, 1), Cell(3, 1), Cell(1, 2), Cell(3, 2), Cell(1, 3), Cell(2, 3)]);
  }

  lemma Moves3()
    ensures Moves(
      {Cell(2, 2), Cell(3, 3)},
      [Cell(3, 2), Cell(4, 2), Cell(2, 3), Cell(4, 3), Cell(2, 4), Cell(3, 4), Cell(4, 4),
       Cell(1, 1), Cell(2, 1), Cell(3, 1), Cell(1, 2), Cell(3, 2), Cell(1, 3), Cell(2, 3)], true,
      {Cell(2, 2), Cell(3, 2), Cell(3, 3)},
      [Cell(2, 1), Cell(3, 1), Cell(4, 1), Cell(4, 2), Cell(2, 3), Cell(4, 3)],
      [Cell(4, 2), Cell(2, 3), Cell(4, 3), Cell(2, 4), Cell(3, 4), Cell(4, 4), Cell(1, 1),
       Cell(2, 1), Cell(3, 1), Cell(1, 2), Cell(3, 2), Cell(1, 3), Cell(2, 3), Cell(2, 1),
       Cell(3, 1), Cell(4, 1)])
  {
    var o := {Cell(2, 2), Cell(3, 2), Cell(3, 3)};
    var c := Cell(3, 2);
    assert Reach(o, c, -1, -1) + Reach(o, c, 0, -1) + Reach(o, c, 1, -1) == [Cell(2, 1), Cell(3, 1), Cell(4, 1)];
    assert Reach(o, c, -1, 0) + Reach(o, c, 1, 0) == [Cell(4, 2)];
    assert Reach(o, c, -1, 1) + Reach(o, c, 0, 1) + Reach(o, c, 1, 1) == [Cell(2, 3), Cell(4, 3)];
  }

  lemma Trace3()
    ensures IsGrid(Demo) && QueueSafe(Demo, Start())
    ensures At(Run(Demo, Start(), 3), 3, 22,
      {Cell(2, 2), Cell(3, 2), Cell(3, 3)},
      [Cell(4, 2), Cell(2, 3), Cell(4, 3), Cell(2, 4), Cell(3, 4), Cell(4, 4), Cell(1, 1),
       Cell(2, 1), Cell(3, 1), Cell(1, 2), Cell(3, 2), Cell(1, 3), Cell(2, 3), Cell(2, 1),
       Cell(3, 1), Cell(4, 1)])
  {
    Trace2();
    Moves3();
    Step(Start(), 2, 2, 16,
      {Cell(2, 2), Cell(3, 3)},
      [Cell(3, 2), Cell(4, 2), Cell(2, 3), Cell(4, 3), Cell(2, 4), Cell(3, 4), Cell(4, 4),
       Cell(1, 1), Cell(2, 1), Cell(3, 1), Cell(1, 2), Cell(3, 2), Cell(1, 3), Cell(2, 3)], true,
      {Cell(2, 2), Cell(3, 2), Cell(3, 3)},
      [Cell(2, 1), Cell(3, 1), Cell(4, 1), Cell(4, 2), Cell(2, 3), Cell(4, 3)],
      [Cell(4, 2), Cell(2, 3), Cell(4, 3), Cell(2, 4), Cell(3, 4), Cell(4, 4), Cell(1, 1),
       Cell(2, 1), Cell(3, 1), Cell(1, 2), Cell(3, 2), Cell(1, 3), Cell(2, 3), Cell(2, 1),
       Cell(3, 1), Cell(4, 1)]);
  }

  lemma Moves4()
    ensures Moves(
      {Cell(2, 2), Cell(3, 2), Cell(3, 3)},
      [Cell(4, 2), Cell(2, 3), Cell(4, 3), Cell(2, 4), Cell(3, 4), Cell(4, 4), Cell(1, 1),
       Cell(2, 1), Cell(3, 1), Cell(1, 2), Cell(3, 2), Cell(1, 3), Cell(2, 3), Cell(2, 1),
       Cell(3, 1), Cell(4, 1)], false,
      {Cell(2, 2), Cell(3, 2), Cell(4, 2), Cell(3, 3)},
      [Cell(3, 1), Cell(4, 1), Cell(5, 1), Cell(5, 2), Cell(4, 3), Cell(5, 3)],
      [Cell(2, 3), Cell(4, 3), Cell(2, 4), Cell(3, 4), Cell(4, 4), Cell(1, 1), Cell(2, 1),
       Cell(3, 1), Cell(1, 2), Cell(3, 2), Cell(1, 3), Cell(2, 3), Cell(2, 1), Cell(3, 1),
       Cell(4, 1)])
  {
    var o := {Cell(2, 2), Cell(3, 2), Cell(4, 2), Cell(3, 3)};
    var c := Cell(4, 2);
    assert Reach(o, c, -1, -1) + Reach(o, c, 0, -1) + Reach(o, c, 1, -1) == [Cell(3, 1), Cell(4, 1), Cell(5, 1)];
    assert Reach(o, c, -1, 0) + Reach(o, c, 1, 0) == [Cell(5, 2)];
    assert Reach(o, c, -1, 1) + Reach(o, c, 0, 1) + Reach(o, c, 1, 1) == [Cell(4, 3), Cell(5, 3)];
  }

  lemma Trace4()
    ensures IsGrid(Demo) && QueueSafe(Demo, Start())
    ensures At(Run(Demo, Start(), 4), 4, 28,
      {Cell(2, 2), Cell(3, 2), Cell(4, 2), Cell(3, 3)},
      [Cell(2, 3), Cell(4, 3), Cell(2, 4), Cell(3, 4), Cell(4, 4), Cell(1, 1), Cell(2, 1),
       Cell(3, 1), Cell(1, 2), Cell(3, 2), Cell(1, 3), Cell(2, 3), Cell(2, 1), Cell(3, 1),
       Cell(4, 1)])
  {
    Trace3();
    Moves4();
    Step(Start(), 3, 3, 22,
      {Cell(2, 2), Cell(3, 2), Cell(3, 3)},
      [Cell(4, 2), Cell(2, 3), Cell(4, 3), Cell(2, 4), Cell(3, 4), Cell(4, 4), Cell(1, 1),
       Cell(2, 1), Cell(3, 1), Cell(1, 2), Cell(3, 2), Cell(1, 3), Cell(2, 3), Cell(2, 1),
       Cell(3, 1), Cell(4, 1)], false,
      {Cell(2, 2), Cell(3, 2), Cell(4, 2), Cell(3, 3)},
      [Cell(3, 1), Cell(4, 1), Cell(5, 1), Cell(5, 2), Cell(4, 3), Cell(5, 3)],
      [Cell(2, 3), Cell(4, 3), Cell(2, 4), Cell(3, 4), Cell(4, 4), Cell(1, 1), Cell(2, 1),
       Cell(3, 1), Cell(1, 2), Cell(3, 2), Cell(1, 3), Cell(2, 3), Cell(2, 1), Cell(3, 1),
       Cell(4, 1)]);
  }

  lemma Moves5()
    ensures Moves(
      {Cell(2, 2), Cell(3, 2), Cell(4, 2), Cell(3, 3)},
      [Cell(2, 3), Cell(4, 3), Cell(2, 4), Cell(3, 4), Cell(4, 4), Cell(1, 1), Cell(2, 1),
       Cell(3, 1), Cell(1, 2), Cell(3, 2), Cell(1, 3), Cell(2, 3), Cell(2, 1), Cell(3, 1),
       Cell(4, 1)], false,
      {Cell(2, 2), Cell(3, 2), Cell(4, 2), Cell(2, 3), Cell(3, 3)},
      [Cell(1, 2), Cell(1, 3), Cell(1, 4), Cell(2, 4), Cell(3, 4)],
      [Cell(4, 3), Cell(2, 4), Cell(3, 4), Cell(4, 4), Cell(1, 1), Cell(2, 1), Cell(3, 1),
       Cell(1, 2), Cell(3, 2), Cell(1, 3), Cell(2, 3), Cell(2, 1), Cell(3, 1), Cell(4, 1)])
  {
    var o := {Cell(2, 2), Cell(3, 2), Cell(4, 2), Cell(2, 3), Cell(3, 3)};
    var c := Cell(2, 3);
    assert Reach(o, c, -1, -1) + Reach(o, c, 0, -1) + Reach(o, c, 1, -1) == [Cell(1, 2)];
    assert Reach(o, c, -1, 0) + Reach(o, c, 1, 0) == [Cell(1, 3)];
    assert Reach(o, c, -1, 1) + Reach(o, c, 0, 1) + Reach(o, c, 1, 1) == [Cell(1, 4), Cell(2, 4), Cell(3, 4)];
  }

  lemma Trace5()
    ensures IsGrid(Demo) && QueueSafe(Demo, Start())
    ensures At(Run(Demo, Start(), 5), 5, 33,
      {Cell(2, 2), Cell(3, 2), Cell(4, 2), Cell(2, 3), Cell(3, 3)},
      [Cell(4, 3), Cell(2, 4), Cell(3, 4), Cell(4, 4), Cell(1, 1), Cell(2, 1), Cell(3, 1),
       Cell(1, 2), Cell(3, 2), Cell(1, 3), Cell(2, 3), Cell(2, 1), Cell(3, 1), Cell(4, 1)])
  {
    Trace4();
    Moves5();
    Step(Start(), 4, 4, 28,
      {Cell(2, 2), Cell(3, 2), Cell(4, 2), Cell(3, 3)},
      [Cell(2, 3), Cell(4, 3), Cell(2, 4), Cell(3, 4), Cell(4, 4), Cell(1, 1), Cell(2, 1),
       Cell(3, 1), Cell(1, 2), Cell(3, 2), Cell(1, 3), Cell(2, 3), Cell(2, 1), Cell(3, 1),
       Cell(4, 1)], false,
      {Cell(2, 2), Cell(3, 2), Cell(4, 2), Cell(2, 3), Cell(3, 3)},
      [Cell(1, 2), Cell(1, 3), Cell(1, 4), Cell(2, 4), Cell(3, 4)],
      [Cell(4, 3), Cell(2, 4), Cell(3, 4), Cell(4, 4), Cell(1, 1), Cell(2, 1), Cell(3, 1),
       Cell(1, 2), Cell(3, 2), Cell(1, 3), Cell(2, 3), Cell(2, 1), Cell(3, 1), Cell(4, 1)]);
  }

  lemma Moves6()
    ensures Moves(
      {Cell(2, 2), Cell(3, 2), Cell(4, 2), Cell(2, 3), Cell(3, 3)},
      [Cell(4, 3), Cell(2, 4), Cell(3, 4), Cell(4, 4), Cell(1, 1), Cell(2, 1), Cell(3, 1),
       Cell(1, 2), Cell(3, 2), Cell(1, 3), Cell(2, 3), Cell(2, 1), Cell(3, 1), Cell(4, 1)], false,
      {Cell(2, 2), Cell(3, 2), Cell(4, 2), Cell(2, 3), Cell(3, 3), Cell(4, 3)},
      [Cell(5, 2), Cell(5, 3), Cell(3, 4), Cell(4, 4), Cell(5, 4)],
      [Cell(2, 4), Cell(3, 4), Cell(4, 4), Cell(1, 1), Cell(2, 1), Cell(3, 1), Cell(1, 2),
       Cell(3, 2), Cell(1, 3), Cell(2, 3), Cell(2, 1), Cell(3, 1), Cell(4, 1)])
  {
    var o := {Cell(2, 2), Cell(3, 2), Cell(4, 2), Cell(2, 3), Cell(3, 3), Cell(4, 3)};
    var c := Cell(4, 3);
    assert Reach(o, c, -1, -1) + Reach(o, c, 0, -1) + Reach(o, c, 1, -1) == [Cell(5, 2)];
    assert Reach(o, c, -1, 0) + Reach(o, c, 1, 0) == [Cell(5, 3)];
    assert Reach(o, c, -1, 1) + Reach(o, c, 0, 1) + Reach(o, c, 1, 1) == [Cell(3, 4), Cell(4, 4), Cell(5, 4)];
  }

  lemma Trace6()
    ensures IsGrid(Demo) && QueueSafe(Demo, Start())
    ensures At(Run(Demo, Start(), 6), 6, 38,
      {Cell(2, 2), Cell(3, 2), Cell(4, 2), Cell(2, 3), Cell(3, 3), Cell(4, 3)},
      [Cell(2, 4), Cell(3, 4), Cell(4, 4), Cell(1, 1), Cell(2, 1), Cell(3, 1), Cell(1, 2),
       Cell(3, 2), Cell(1, 3), Cell(2, 3), Cell(2, 1), Cell(3, 1), Cell(4, 1)])
  {
    Trace5();
    Moves6();
    Step(Start(), 5, 5, 33,
      {Cell(2, 2), Cell(3, 2), Cell(4, 2), Cell(2, 3), Cell(3, 3)},
      [Cell(4, 3), Cell(2, 4), Cell(3, 4), Cell(4, 4), Cell(1, 1), Cell(2, 1), Cell(3, 1),
       Cell(1, 2), Cell(3, 2), Cell(1, 3), Cell(2, 3), Cell(2, 1), Cell(3, 1), Cell(4, 1)], false,
      {Cell(2, 2), Cell(3, 2), Cell(4, 2), Cell(2, 3), Cell(3, 3), Cell(4, 3)},
      [Cell(5, 2), Cell(5, 3), Cell(3, 4), Cell(4, 4), Cell(5, 4)],
      [Cell(2, 4), Cell(3, 4), Cell(4, 4), Cell(1, 1), Cell(2, 1), Cell(3, 1), Cell(1, 2),
       Cell(3, 2), Cell(1, 3), Cell(2, 3), Cell(2, 1), Cell(3, 1), Cell(4, 1)]);
  }

  lemma Moves7()
    ensures Moves(
      {Cell(2, 2), Cell(3, 2), Cell(4, 2), Cell(2, 3), Cell(3, 3), Cell(4, 3)},
      [Cell(2, 4), Cell(3, 4), Cell(4, 4), Cell(1, 1), Cell(2, 1), Cell(3, 1), Cell(1, 2),
       Cell(3, 2), Cell(1, 3), Cell(2, 3), Cell(2, 1), Cell(3, 1), Cell(4, 1)], false,
      {Cell(2, 2), Cell(3, 2), Cell(4, 2), Cell(2, 3), Cell(3, 3), Cell(4, 3), Cell(2, 4)},
      [Cell(1, 3), Cell(1, 4), Cell(3, 4), Cell(1, 5), Cell(2, 5), Cell(3, 5)],
      [Cell(3, 4), Cell(4, 4), Cell(1, 1), Cell(2, 1), Cell(3, 1), Cell(1, 2), Cell(3, 2),
       Cell(1, 3), Cell(2, 3), Cell(2, 1), Cell(3, 1), Cell(4, 1)])
  {
    var o := {Cell(2, 2), Cell(3, 2), Cell(4, 2), Cell(2, 3), Cell(3, 3), Cell(4, 3), Cell(2, 4)};
    var c := Cell(2, 4);
    assert Reach(o, c, -1, -1) + Reach(o, c, 0, -1) + Reach(o, c, 1, -1) == [Cell(1, 3)];
    assert Reach(o, c, -1, 0) + Reach(o, c, 1, 0) == [Cell(1, 4), Cell(3, 4)];
    assert Reach(o, c, -1, 1) + Reach(o, c, 0, 1) + Reach(o, c, 1, 1) == [Cell(1, 5), Cell(2, 5), Cell(3, 5)];
  }

  lemma Trace7()
    ensures IsGrid(Demo) && QueueSafe(Demo, Start())
    ensures At(Run(Demo, Start(), 7), 7, 44,
      {Cell(2, 2), Cell(3, 2), Cell(4, 2), Cell(2, 3), Cell(3, 3), Cell(4, 3), Cell(2, 4)},
      [Cell(3, 4), Cell(4, 4), Cell(1, 1), Cell(2, 1), Cell(3, 1), Cell(1, 2), Cell(3, 2),
       Cell(1, 3), Cell(2, 3), Cell(2, 1), Cell(3, 1), Cell(4, 1)])
  {
    Trace6();
    Moves7();
    Step(Start(), 6, 6, 38,
      {Cell(2, 2), Cell(3, 2), Cell(4, 2), Cell(2, 3), Cell(3, 3), Cell(4, 3)},
      [Cell(2, 4), Cell(3, 4), Cell(4, 4), Cell(1, 1), Cell(2, 1), Cell(3, 1), Cell(1, 2),
       Cell(3, 2), Cell(1, 3), Cell(2, 3), Cell(2, 1), Cell(3, 1), Cell(4, 1)], false,
      {Cell(2, 2), Cell(3, 2), Cell(4, 2), Cell(2, 3), Cell(3, 3), Cell(4, 3), Cell(2, 4)},
      [Cell(1, 3), Cell(1, 4), Cell(3, 4), Cell(1, 5), Cell(2, 5), Cell(3, 5)],
      [Cell(3, 4), Cell(4, 4), Cell(1, 1), Cell(2, 1), Cell(3, 1), Cell(1, 2), Cell(3, 2),
       Cell(1, 3), Cell(2, 3), Cell(2, 1), Cell(3, 1), Cell(4, 1)]);
  }

  lemma Moves8()
    ensures Moves(
      {Cell(2, 2), Cell(3, 2), Cell(4, 2), Cell(2, 3), Cell(3, 3), Cell(4, 3), Cell(2, 4)},
      [Cell(3, 4), Cell(4, 4), Cell(1, 1), Cell(2, 1), Cell(3, 1), Cell(1, 2), Cell(3, 2),
       Cell(1, 3), Cell(2, 3), Cell(2, 1), Cell(3, 1), Cell(4, 1)], false,
      {Cell(2, 2), Cell(3, 2), Cell(4, 2), Cell(2, 3), Cell(3, 3), Cell(4, 3), Cell(2, 4),
       Cell(3, 4)},
      [Cell(4, 4), Cell(2, 5), Cell(3, 5), Cell(4, 5)],
      [Cell(4, 4), Cell(1, 1), Cell(2, 1), Cell(3, 1), Cell(1, 2), Cell(3, 2), Cell(1, 3),
       Cell(2, 3), Cell(2, 1), Cell(3, 1), Cell(4, 1)])
  {
    var o := {Cell(2, 2), Cell(3, 2), Cell(4, 2), Cell(2, 3), Cell(3, 3), Cell(4, 3),
      Cell(2, 4), Cell(3, 4)};
    var c := Cell(3, 4);
    assert Reach(o, c, -1, -1) + Reach(o, c, 0, -1) + Reach(o, c, 1, -1) == [];
    assert Reach(o, c, -1, 0) + Reach(o, c, 1, 0) == [Cell(4, 4)];
    assert Reach(o, c, -1, 1) + Reach(o, c, 0, 1) + Reach(o, c, 1, 1) == [Cell(2, 5), Cell(3, 5), Cell(4, 5)];
  }

  lemma Trace8()
    ensures IsGrid(Demo) && QueueSafe(Demo, Start())
    ensures At(Run(Demo, Start(), 8), 8, 48,
      {Cell(2, 2), Cell(3, 2), Cell(4, 2), Cell(2, 3), Cell(3, 3), Cell(4, 3), Cell(2, 4),
       Cell(3, 4)},
      [Cell(4, 4), Cell(1, 1), Cell(2, 1), Cell(3, 1), Cell(1, 2), Cell(3, 2), Cell(1, 3),
       Cell(2, 3), Cell(2, 1), Cell(3, 1), Cell(4, 1)])
  {
    Trace7();
    Moves8();
    Step(Start(), 7, 7, 44,
      {Cell(2, 2), Cell(3, 2), Cell(4, 2), Cell(2, 3), Cell(3, 3), Cell(4, 3), Cell(2, 4)},
      [Cell(3, 4), Cell(4, 4), Cell(1, 1), Cell(2, 1), Cell(3, 1), Cell(1, 2), Cell(3, 2),
       Cell(1, 3), Cell(2, 3), Cell(2, 1), Cell(3, 1), Cell(4, 1)], false,
      {Cell(2, 2), Cell(3, 2), Cell(4, 2), Cell(2, 3), Cell(3, 3), Cell(4, 3), Cell(2, 4),
       Cell(3, 4)},
      [Cell(4, 4), Cell(2, 5), Cell(3, 5), Cell(4, 5)],
      [Cell(4, 4), Cell(1, 1), Cell(2, 1), Cell(3, 1), Cell(1, 2), Cell(3, 2), Cell(1, 3),
       Cell(2, 3), Cell(2, 1), Cell(3, 1), Cell(4, 1)]);
  }

  lemma Moves9()
    ensures Moves(
      {Cell(2, 2), Cell(3, 2), Cell(4, 2), Cell(2, 3), Cell(3, 3), Cell(4, 3), Cell(2, 4),
       Cell(3, 4)},
      [Cell(4, 4), Cell(1, 1), Cell(2, 1), Cell(3, 1), Cell(1, 2), Cell(3, 2), Cell(1, 3),
       Cell(2, 3), Cell(2, 1), Cell(3, 1), Cell(4, 1)], false,
      {Cell(2, 2), Cell(3, 2), Cell(4, 2), Cell(2, 3), Cell(3, 3), Cell(4, 3), Cell(2, 4),
       Cell(3, 4), Cell(4, 4)},
      [Cell(5, 3), Cell(5, 4), Cell(3, 5), Cell(4, 5), Cell(5, 5)],
      [Cell(1, 1), Cell(2, 1), Cell(3, 1), Cell(1, 2), Cell(3, 2), Cell(1, 3), Cell(2, 3),
       Cell(2, 1), Cell(3, 1), Cell(4, 1)])
  {
    var o := {Cell(2, 2), Cell(3, 2), Cell(4, 2), Cell(2, 3), Cell(3, 3), Cell(4, 3),
      Cell(2, 4), Cell(3, 4), Cell(4, 4)};
    var c := Cell(4, 4);
    assert Reach(o, c, -1, -1) + Reach(o, c, 0, -1) + Reach(o, c, 1, -1) == [Cell(5, 3)];
    assert Reach(o, c, -1, 0) + Reach(o, c, 1, 0) == [Cell(5, 4)];
    assert Reach(o, c, -1, 1) + Reach(o, c, 0, 1) + Reach(o, c, 1, 1) == [Cell(3, 5), Cell(4, 5), Cell(5, 5)];
  }

  lemma Trace9()
    ensures IsGrid(Demo) && QueueSafe(Demo, Start())
    ensures At(Run(Demo, Start(), 9), 9, 53,
      {Cell(2, 2), Cell(3, 2), Cell(4, 2), Cell(2, 3), Cell(3, 3), Cell(4, 3), Cell(2, 4),
       Cell(3, 4), Cell(4, 4)},
      [Cell(1, 1), Cell(2, 1), Cell(3, 1), Cell(1, 2), Cell(3, 2), Cell(1, 3), Cell(2, 3),
       Cell(2, 1), Cell(3, 1), Cell(4, 1)])
  {
    Trace8();
    Moves9();
    Step(Start(), 8, 8, 48,
      {Cell(2, 2), Cell(3, 2), Cell(4, 2), Cell(2, 3), Cell(3, 3), Cell(4, 3), Cell(2, 4),
       Cell(3, 4)},
      [Cell(4, 4), Cell(1, 1), Cell(2, 1), Cell(3, 1), Cell(1, 2), Cell(3, 2), Cell(1, 3),
       Cell(2, 3), Cell(2, 1), Cell(3, 1), Cell(4, 1)], false,
      {Cell(2, 2), Cell(3, 2), Cell(4, 2), Cell(2, 3), Cell(3, 3), Cell(4, 3), Cell(2, 4),
       Cell(3, 4), Cell(4, 4)},
      [Cell(5, 3), Cell(5, 4), Cell(3, 5), Cell(4, 5), Cell(5, 5)],
      [Cell(1, 1), Cell(2, 1), Cell(3, 1), Cell(1, 2), Cell(3, 2), Cell(1, 3), Cell(2, 3),
       Cell(2, 1), Cell(3, 1), Cell(4, 1)]);
  }

  lemma Moves10()
    ensures Moves(
      {Cell(2, 2), Cell(3, 2), Cell(4, 2), Cell(2, 3), Cell(3, 3), Cell(4, 3), Cell(2, 4),
       Cell(3, 4), Cell(4, 4)},
      [Cell(1, 1), Cell(2, 1), Cell(3, 1), Cell(1, 2), Cell(3, 2), Cell(1, 3), Cell(2, 3),
       Cell(2, 1), Cell(3, 1), Cell(4, 1)], false,
      {Cell(1, 1), Cell(2, 2), Cell(3, 2), Cell(4, 2), Cell(2, 3), Cell(3, 3), Cell(4, 3),
       Cell(2, 4), Cell(3, 4), Cell(4, 4)},
      [Cell(0, 0), Cell(1, 0), Cell(2, 0), Cell(0, 1), Cell(2, 1), Cell(0, 2), Cell(1, 2)],
      [Cell(2, 1), Cell(3, 1), Cell(1, 2), Cell(3, 2), Cell(1, 3), Cell(2, 3), Cell(2, 1),
       Cell(3, 1), Cell(4, 1)])
  {
    var o := {Cell(1, 1), Cell(2, 2), Cell(3, 2), Cell(4, 2), Cell(2, 3), Cell(3, 3),
      Cell(4, 3), Cell(2, 4), Cell(3, 4), Cell(4, 4)};
    var c := Cell(1, 1);
    assert Reach(o, c, -1, -1) + Reach(o, c, 0, -1) + Reach(o, c, 1, -1) == [Cell(0, 0), Cell(1, 0), Cell(2, 0)];
    assert Reach(o, c, -1, 0) + Reach(o, c, 1, 0) == [Cell(0, 1), Cell(2, 1)];
    assert Reach(o, c, -1, 1) + Reach(o, c, 0, 1) + Reach(o, c, 1, 1) == [Cell(0, 2), Cell(1, 2)];
  }

  lemma Trace10()
    ensures IsGrid(Demo) && QueueSafe(Demo, Start())
    ensures At(Run(Demo, Start(), 10), 10, 60,
      {Cell(1, 1), Cell(2, 2), Cell(3, 2), Cell(4, 2), Cell(2, 3), Cell(3, 3), Cell(4, 3),
       Cell(2, 4), Cell(3, 4), Cell(4, 4)},
      [Cell(2, 1), Cell(3, 1), Cell(1, 2), Cell(3, 2), Cell(1, 3), Cell(2, 3), Cell(2, 1),
       Cell(3, 1), Cell(4, 1)])
  {
    Trace9();
    Moves10();
    Step(Start(), 9, 9, 53,
      {Cell(2, 2), Cell(3, 2), Cell(4, 2), Cell(2, 3), Cell(3, 3), Cell(4, 3), Cell(2, 4),
       Cell(3, 4), Cell(4, 4)},
      [Cell(1, 1), Cell(2, 1), Cell(3, 1), Cell(1, 2), Cell(3, 2), Cell(1, 3), Cell(2, 3),
       Cell(2, 1), Cell(3, 1), Cell(4, 1)], false,
      {Cell(1, 1), Cell(2, 2), Cell(3, 2), Cell(4, 2), Cell(2, 3), Cell(3, 3), Cell(4, 3),
       Cell(2, 4), Cell(3, 4), Cell(4, 4)},
      [Cell(0, 0), Cell(1, 0), Cell(2, 0), Cell(0, 1), Cell(2, 1), Cell(0, 2), Cell(1, 2)],
      [Cell(2, 1), Cell(3, 1), Cell(1, 2), Cell(3, 2), Cell(1, 3), Cell(2, 3), Cell(2, 1),
       Cell(3, 1), Cell(4, 1)]);
  }

  lemma Moves11()
    ensures Moves(
      {Cell(1, 1), Cell(2, 2), Cell(3, 2), Cell(4, 2), Cell(2, 3), Cell(3, 3), Cell(4, 3),
       Cell(2, 4), Cell(3, 4), Cell(4, 4)},
      [Cell(2, 1), Cell(3, 1), Cell(1, 2), Cell(3, 2), Cell(1, 3), Cell(2, 3), Cell(2, 1),
       Cell(3, 1), Cell(4, 1)], false,
      {Cell(1, 1), Cell(2, 1), Cell(2, 2), Cell(3, 2), Cell(4, 2), Cell(2, 3), Cell(3, 3),
       Cell(4, 3), Cell(2, 4), Cell(3, 4), Cell(4, 4)},
      [Cell(1, 0), Cell(2, 0), Cell(3, 0), Cell(3, 1), Cell(1, 2)],
      [Cell(3, 1), Cell(1, 2), Cell(3, 2), Cell(1, 3), Cell(2, 3), Cell(2, 1), Cell(3, 1),
       Cell(4, 1)])
  {
    var o := {Cell(1, 1), Cell(2, 1), Cell(2, 2), Cell(3, 2), Cell(4, 2), Cell(2, 3),
      Cell(3, 3), Cell(4, 3), Cell(2, 4), Cell(3, 4), Cell(4, 4)};
    var c := Cell(2, 1);
    assert Reach(o, c, -1, -1) + Reach(o, c, 0, -1) + Reach(o, c, 1, -1) == [Cell(1, 0), Cell(2, 0), Cell(3, 0)];
    assert Reach(o, c, -1, 0) + Reach(o, c, 1, 0) == [Cell(3, 1)];
    assert Reach(o, c, -1, 1) + Reach(o, c, 0, 1) + Reach(o, c, 1, 1) == [Cell(1, 2)];
  }

  lemma Trace11()
    ensures IsGrid(Demo) && QueueSafe(Demo, Start())
    ensures At(Run(Demo, Start(), 11), 11, 65,
      {Cell(1, 1), Cell(2, 1), Cell(2, 2), Cell(3, 2), Cell(4, 2), Cell(2, 3), Cell(3, 3),
       Cell(4, 3), Cell(2, 4), Cell(3, 4), Cell(4, 4)},
      [Cell(3, 1), Cell(1, 2), Cell(3, 2), Cell(1, 3), Cell(2, 3), Cell(2, 1), Cell(3, 1),
       Cell(4, 1)])
  {
    Trace10();
    Moves11();
    Step(Start(), 10, 10, 60,
      {Cell(1, 1), Cell(2, 2), Cell(3, 2), Cell(4, 2), Cell(2, 3), Cell(3, 3), Cell(4, 3),
       Cell(2, 4), Cell(3, 4), Cell(4, 4)},
      [Cell(2, 1), Cell(3, 1), Cell(1, 2), Cell(3, 2), Cell(1, 3), Cell(2, 3), Cell(2, 1),
       Cell(3, 1), Cell(4, 1)], false,
      {Cell(1, 1), Cell(2, 1), Cell(2, 2), Cell(3, 2), Cell(4, 2), Cell(2, 3), Cell(3, 3),
       Cell(4, 3), Cell(2, 4), Cell(3, 4), Cell(4, 4)},
      [Cell(1, 0), Cell(2, 0), Cell(3, 0), Cell(3, 1), Cell(1, 2)],
      [Cell(3, 1), Cell(1, 2), Cell(3, 2), Cell(1, 3), Cell(2, 3), Cell(2, 1), Cell(3, 1),
       Cell(4, 1)]);
  }

  lemma Moves12()
    ensures Moves(
      {Cell(1, 1), Cell(2, 1), Cell(2, 2), Cell(3, 2), Cell(4, 2), Cell(2, 3), Cell(3, 3),
       Cell(4, 3), Cell(2, 4), Cell(3, 4), Cell(4, 4)},
      [Cell(3, 1), Cell(1, 2), Cell(3, 2), Cell(1, 3), Cell(2, 3), Cell(2, 1), Cell(3, 1),
       Cell(4, 1)], false,
      {Cell(1, 1), Cell(2, 1), Cell(3, 1), Cell(2, 2), Cell(3, 2), Cell(4, 2), Cell(2, 3),
       Cell(3, 3), Cell(4, 3), Cell(2, 4), Cell(3, 4), Cell(4, 4)},
      [Cell(2, 0), Cell(3, 0), Cell(4, 0), Cell(4, 1)],
      [Cell(1, 2), Cell(3, 2), Cell(1, 3), Cell(2, 3), Cell(2, 1), Cell(3, 1), Cell(4, 1)])
  {
    var o := {Cell(1, 1), Cell(2, 1), Cell(3, 1), Cell(2, 2), Cell(3, 2), Cell(4, 2),
      Cell(2, 3), Cell(3, 3), Cell(4, 3), Cell(2, 4), Cell(3, 4), Cell(4, 4)};
    var c := Cell(3, 1);
    assert Reach(o, c, -1, -1) + Reach(o, c, 0, -1) + Reach(o, c, 1, -1) == [Cell(2, 0), Cell(3, 0), Cell(4, 0)];
    assert Reach(o, c, -1, 0) + Reach(o, c, 1, 0) == [Cell(4, 1)];
    assert Reach(o, c, -1, 1) + Reach(o, c, 0, 1) + Reach(o, c, 1, 1) == [];
  }

  lemma Trace12()
    ensures IsGrid(Demo) && QueueSafe(Demo, Start())
    ensures At(Run(Demo, Start(), 12), 12, 69,
      {Cell(1, 1), Cell(2, 1), Cell(3, 1), Cell(2, 2), Cell(3, 2), Cell(4, 2), Cell(2, 3),
       Cell(3, 3), Cell(4, 3), Cell(2, 4), Cell(3, 4), Cell(4, 4)},
      [Cell(1, 2), Cell(3, 2), Cell(1, 3), Cell(2, 3), Cell(2, 1), Cell(3, 1), Cell(4, 1)])
  {
    Trace11();
    Moves12();
    Step(Start(), 11, 11, 65,
      {Cell(1, 1), Cell(2, 1), Cell(2, 2), Cell(3, 2), Cell(4, 2), Cell(2, 3), Cell(3, 3),
       Cell(4, 3), Cell(2, 4), Cell(3, 4), Cell(4, 4)},
      [Cell(3, 1), Cell(1, 2), Cell(3, 2), Cell(1, 3), Cell(2, 3), Cell(2, 1), Cell(3, 1),
       Cell(4, 1)], false,
      {Cell(1, 1), Cell(2, 1), Cell(3, 1), Cell(2, 2), Cell(3, 2), Cell(4, 2), Cell(2, 3),
       Cell(3, 3), Cell(4, 3), Cell(2, 4), Cell(3, 4), Cell(4, 4)},
      [Cell(2, 0), Cell(3, 0), Cell(4, 0), Cell(4, 1)],
      [Cell(1, 2), Cell(3, 2), Cell(1, 3), Cell(2, 3), Cell(2, 1), Cell(3, 1), Cell(4, 1)]);
  }

  lemma Moves13()
    ensures Moves(
      {Cell(1, 1), Cell(2, 1), Cell(3, 1), Cell(2, 2), Cell(3, 2), Cell(4, 2), Cell(2, 3),
       Cell(3, 3), Cell(4, 3), Cell(2, 4), Cell(3, 4), Cell(4, 4)},
      [Cell(1, 2), Cell(3, 2), Cell(1, 3), Cell(2, 3), Cell(2, 1), Cell(3, 1), Cell(4, 1)], false,
      {Cell(1, 1), Cell(2, 1), Cell(3, 1), Cell(1, 2), Cell(2, 2), Cell(3, 2), Cell(4, 2),
       Cell(2, 3), Cell(3, 3), Cell(4, 3), Cell(2, 4), Cell(3, 4), Cell(4, 4)},
      [Cell(0, 1), Cell(0, 2), Cell(0, 3), Cell(1, 3)],
      [Cell(3, 2), Cell(1, 3), Cell(2, 3), Cell(2, 1), Cell(3, 1), Cell(4, 1)])
  {
    var o := {Cell(1, 1), Cell(2, 1), Cell(3, 1), Cell(1, 2), Cell(2, 2), Cell(3, 2),
      Cell(4, 2), Cell(2, 3), Cell(3, 3), Cell(4, 3), Cell(2, 4), Cell(3, 4), Cell(4, 4)};
    var c := Cell(1, 2);
    assert Reach(o, c, -1, -1) + Reach(o, c, 0, -1) + Reach(o, c, 1, -1) == [Cell(0, 1)];
    assert Reach(o, c, -1, 0) + Reach(o, c, 1, 0) == [Cell(0, 2)];
    assert Reach(o, c, -1, 1) + Reach(o, c, 0, 1) + Reach(o, c, 1, 1) == [Cell(0, 3), Cell(1, 3)];
  }

  lemma Trace13()
    ensures IsGrid(Demo) && QueueSafe(Demo, Start())
    ensures At(Run(Demo, Start(), 13), 13, 73,
      {Cell(1, 1), Cell(2, 1), Cell(3, 1), Cell(1, 2), Cell(2, 2), Cell(3, 2), Cell(4, 2),
       Cell(2, 3), Cell(3, 3), Cell(4, 3), Cell(2, 4), Cell(3, 4), Cell(4, 4)},
      [Cell(3, 2), Cell(1, 3), Cell(2, 3), Cell(2, 1), Cell(3, 1), Cell(4, 1)])
  {
    Trace12();
    Moves13();
    Step(Start(), 12, 12, 69,
      {Cell(1, 1), Cell(2, 1), Cell(3, 1), Cell(2, 2), Cell(3, 2), Cell(4, 2), Cell(2, 3),
       Cell(3, 3), Cell(4, 3), Cell(2, 4), Cell(3, 4), Cell(4, 4)},
      [Cell(1, 2), Cell(3, 2), Cell(1, 3), Cell(2, 3), Cell(2, 1), Cell(3, 1), Cell(4, 1)], false,
      {Cell(1, 1), Cell(2, 1), Cell(3, 1), Cell(1, 2), Cell(2, 2), Cell(3, 2), Cell(4, 2),
       Cell(2, 3), Cell(3, 3), Cell(4, 3), Cell(2, 4), Cell(3, 4), Cell(4, 4)},
      [Cell(0, 1), Cell(0, 2), Cell(0, 3), Cell(1, 3)],
      [Cell(3, 2), Cell(1, 3), Cell(2, 3), Cell(2, 1), Cell(3, 1), Cell(4, 1)]);
  }

  lemma Moves14()
    ensures Moves(
      {Cell(1, 1), Cell(2, 1), Cell(3, 1), Cell(1, 2), Cell(2, 2), Cell(3, 2), Cell(4, 2),
       Cell(2, 3), Cell(3, 3), Cell(4, 3), Cell(2, 4), Cell(3, 4), Cell(4, 4)},
      [Cell(3, 2), Cell(1, 3), Cell(2, 3), Cell(2, 1), Cell(3, 1), Cell(4, 1)], false,
      {Cell(1, 1), Cell(2, 1), Cell(3, 1), Cell(1, 2), Cell(2, 2), Cell(3, 2), Cell(4, 2),
       Cell(2, 3), Cell(3, 3), Cell(4, 3), Cell(2, 4), Cell(3, 4), Cell(4, 4)},
      [],
      [Cell(1, 3), Cell(2, 3), Cell(2, 1), Cell(3, 1), Cell(4, 1)])
  {
  }

  lemma Trace14()
    ensures IsGrid(Demo) && QueueSafe(Demo, Start())
    ensures At(Run(Demo, Start(), 14), 14, 73,
      {Cell(1, 1), Cell(2, 1), Cell(3, 1), Cell(1, 2), Cell(2, 2), Cell(3, 2), Cell(4, 2),
       Cell(2, 3), Cell(3, 3), Cell(4, 3), Cell(2, 4), Cell(3, 4), Cell(4, 4)},
      [Cell(1, 3), Cell(2, 3), Cell(2, 1), Cell(3, 1), Cell(4, 1)])
  {
    Trace13();
    Moves14();
    Step(Start(), 13, 13, 73,
      {Cell(1, 1), Cell(2, 1), Cell(3, 1), Cell(1, 2), Cell(2, 2), Cell(3, 2), Cell(4, 2),
       Cell(2, 3), Cell(3, 3), Cell(4, 3), Cell(2, 4), Cell(3, 4), Cell(4, 4)},
      [Cell(3, 2), Cell(1, 3), Cell(2, 3), Cell(2, 1), Cell(3, 1), Cell(4, 1)], false,
      {Cell(1, 1), Cell(2, 1), Cell(3, 1), Cell(1, 2), Cell(2, 2), Cell(3, 2), Cell(4, 2),
       Cell(2, 3), Cell(3, 3), Cell(4, 3), Cell(2, 4), Cell(3, 4), Cell(4, 4)},
      [],
      [Cell(1, 3), Cell(2, 3), Cell(2, 1), Cell(3, 1), Cell(4, 1)]);
  }

  lemma Moves15()
    ensures Moves(
      {Cell(1, 1), Cell(2, 1), Cell(3, 1), Cell(1, 2), Cell(2, 2), Cell(3, 2), Cell(4, 2),
       Cell(2, 3), Cell(3, 3), Cell(4, 3), Cell(2, 4), Cell(3, 4), Cell(4, 4)},
      [Cell(1, 3), Cell(2, 3), Cell(2, 1), Cell(3, 1), Cell(4, 1)], false,
      {Cell(1, 1), Cell(2, 1), Cell(3, 1), Cell(1, 2), Cell(2, 2), Cell(3, 2), Cell(4, 2),
       Cell(1, 3), Cell(2, 3), Cell(3, 3), Cell(4, 3), Cell(2, 4), Cell(3, 4), Cell(4, 4)},
      [Cell(0, 2), Cell(0, 3), Cell(0, 4), Cell(1, 4)],
      [Cell(2, 3), Cell(2, 1), Cell(3, 1), Cell(4, 1)])
  {
    var o := {Cell(1, 1), Cell(2, 1), Cell(3, 1), Cell(1, 2), Cell(2, 2), Cell(3, 2),
      Cell(4, 2), Cell(1, 3), Cell(2, 3), Cell(3, 3), Cell(4, 3), Cell(2, 4), Cell(3, 4),
      Cell(4, 4)};
    var c := Cell(1, 3);
    assert Reach(o, c, -1, -1) + Reach(o, c, 0, -1) + Reach(o, c, 1, -1) == [Cell(0, 2)];
    assert Reach(o, c, -1, 0) + Reach(o, c, 1, 0) == [Cell(0, 3)];
    assert Reach(o, c, -1, 1) + Reach(o, c, 0, 1) + Reach(o, c, 1, 1) == [Cell(0, 4), Cell(1, 4)];
  }

  lemma Trace15()
    ensures IsGrid(Demo) && QueueSafe(Demo, Start())
    ensures At(Run(Demo, Start(), 15), 15, 77,
      {Cell(1, 1), Cell(2, 1), Cell(3, 1), Cell(1, 2), Cell(2, 2), Cell(3, 2), Cell(4, 2),
       Cell(1, 3), Cell(2, 3), Cell(3, 3), Cell(4, 3), Cell(2, 4), Cell(3, 4), Cell(4, 4)},
      [Cell(2, 3), Cell(2, 1), Cell(3, 1), Cell(4, 1)])
  {
    Trace14();
    Moves15();
    Step(Start(), 14, 14, 73,
      {Cell(1, 1), Cell(2, 1), Cell(3, 1), Cell(1, 2), Cell(2, 2), Cell(3, 2), Cell(4, 2),
       Cell(2, 3), Cell(3, 3), Cell(4, 3), Cell(2, 4), Cell(3, 4), Cell(4, 4)},
      [Cell(1, 3), Cell(2, 3), Cell(2, 1), Cell(3, 1), Cell(4, 1)], false,
      {Cell(1, 1), Cell(2, 1), Cell(3, 1), Cell(1, 2), Cell(2, 2), Cell(3, 2), Cell(4, 2),
       Cell(1, 3), Cell(2, 3), Cell(3, 3), Cell(4, 3), Cell(2, 4), Cell(3, 4), Cell(4, 4)},
      [Cell(0, 2), Cell(0, 3), Cell(0, 4), Cell(1, 4)],
      [Cell(2, 3), Cell(2, 1), Cell(3, 1), Cell(4, 1)]);
  }

  lemma Moves16()
    ensures Moves(
      {Cell(1, 1), Cell(2, 1), Cell(3, 1), Cell(1, 2), Cell(2, 2), Cell(3, 2), Cell(4, 2),
       Cell(1, 3), Cell(2, 3), Cell(3, 3), Cell(4, 3), Cell(2, 4), Cell(3, 4), Cell(4, 4)},
      [Cell(2, 3), Cell(2, 1), Cell(3, 1), Cell(4, 1)], false,
      {Cell(1, 1), Cell(2, 1), Cell(3, 1), Cell(1, 2), Cell(2, 2), Cell(3, 2), Cell(4, 2),
       Cell(1, 3), Cell(2, 3), Cell(3, 3), Cell(4, 3), Cell(2, 4), Cell(3, 4), Cell(4, 4)},
      [],
      [Cell(2, 1), Cell(3, 1), Cell(4, 1)])
  {
  }

  lemma Trace16()
    ensures IsGrid(Demo) && QueueSafe(Demo, Start())
    ensures At(Run(Demo, Start(), 16), 16, 77,
      {Cell(1, 1), Cell(2, 1), Cell(3, 1), Cell(1, 2), Cell(2, 2), Cell(3, 2), Cell(4, 2),
       Cell(1, 3), Cell(2, 3), Cell(3, 3), Cell(4, 3), Cell(2, 4), Cell(3, 4), Cell(4, 4)},
      [Cell(2, 1), Cell(3, 1), Cell(4, 1)])
  {
    Trace15();
    Moves16();
    Step(Start(), 15, 15, 77,
      {Cell(1, 1), Cell(2, 1), Cell(3, 1), Cell(1, 2), Cell(2, 2), Cell(3, 2), Cell(4, 2),
       Cell(1, 3), Cell(2, 3), Cell(3, 3), Cell(4, 3), Cell(2, 4), Cell(3, 4), Cell(4, 4)},
      [Cell(2, 3), Cell(2, 1), Cell(3, 1), Cell(4, 1)], false,
      {Cell(1, 1), Cell(2, 1), Cell(3, 1), Cell(1, 2), Cell(2, 2), Cell(3, 2), Cell(4, 2),
       Cell(1, 3), Cell(2, 3), Cell(3, 3), Cell(4, 3), Cell(2, 4), Cell(3, 4), Cell(4, 4)},
      [],
      [Cell(2, 1), Cell(3, 1), Cell(4, 1)]);
  }

  lemma Moves17()
    ensures Moves(
      {Cell(1, 1), Cell(2, 1), Cell(3, 1), Cell(1, 2), Cell(2, 2), Cell(3, 2), Cell(4, 2),
       Cell(1, 3), Cell(2, 3), Cell(3, 3), Cell(4, 3), Cell(2, 4), Cell(3, 4), Cell(4, 4)},
      [Cell(2, 1), Cell(3, 1), Cell(4, 1)], false,
      {Cell(1, 1), Cell(2, 1), Cell(3, 1), Cell(1, 2), Cell(2, 2), Cell(3, 2), Cell(4, 2),
       Cell(1, 3), Cell(2, 3), Cell(3, 3), Cell(4, 3), Cell(2, 4), Cell(3, 4), Cell(4, 4)},
      [],
      [Cell(3, 1), Cell(4, 1)])
  {
  }

  lemma Trace17()
    ensures IsGrid(Demo) && QueueSafe(Demo, Start())
    ensures At(Run(Demo, Start(), 17), 17, 77,
      {Cell(1, 1), Cell(2, 1), Cell(3, 1), Cell(1, 2), Cell(2, 2), Cell(3, 2), Cell(4, 2),
       Cell(1, 3), Cell(2, 3), Cell(3, 3), Cell(4, 3), Cell(2, 4), Cell(3, 4), Cell(4, 4)},
      [Cell(3, 1), Cell(4, 1)])
  {
    Trace16();
    Moves17();
    Step(Start(), 16, 16, 77,
      {Cell(1, 1), Cell(2, 1), Cell(3, 1), Cell(1, 2), Cell(2, 2), Cell(3, 2), Cell(4, 2),
       Cell(1, 3), Cell(2, 3), Cell(3, 3), Cell(4, 3), Cell(2, 4), Cell(3, 4), Cell(4, 4)},
      [Cell(2, 1), Cell(3, 1), Cell(4, 1)], false,
      {Cell(1, 1), Cell(2, 1), Cell(3, 1), Cell(1, 2), Cell(2, 2), Cell(3, 2), Cell(4, 2),
       Cell(1, 3), Cell(2, 3), Cell(3, 3), Cell(4, 3), Cell(2, 4), Cell(3, 4), Cell(4, 4)},
      [],
      [Cell(3, 1), Cell(4, 1)]);
  }

  lemma Moves18()
    ensures Moves(
      {Cell(1, 1), Cell(2, 1), Cell(3, 1), Cell(1, 2), Cell(2, 2), Cell(3, 2), Cell(4, 2),
       Cell(1, 3), Cell(2, 3), Cell(3, 3), Cell(4, 3), Cell(2, 4), Cell(3, 4), Cell(4, 4)},
      [Cell(3, 1), Cell(4, 1)], false,
      {Cell(1, 1), Cell(2, 1), Cell(3, 1), Cell(1, 2), Cell(2, 2), Cell(3, 2), Cell(4, 2),
       Cell(1, 3), Cell(2, 3), Cell(3, 3), Cell(4, 3), Cell(2, 4), Cell(3, 4), Cell(4, 4)},
      [],
      [Cell(4, 1)])
  {
  }

  lemma Trace18()
    ensures IsGrid(Demo) && QueueSafe(Demo, Start())
    ensures At(Run(Demo, Start(), 18), 18, 77,
      {Cell(1, 1), Cell(2, 1), Cell(3, 1), Cell(1, 2), Cell(2, 2), Cell(3, 2), Cell(4, 2),
       Cell(1, 3), Cell(2, 3), Cell(3, 3), Cell(4, 3), Cell(2, 4), Cell(3, 4), Cell(4, 4)},
      [Cell(4, 1)])
  {
    Trace17();
    Moves18();
    Step(Start(), 17, 17, 77,
      {Cell(1, 1), Cell(2, 1), Cell(3, 1), Cell(1, 2), Cell(2, 2), Cell(3, 2), Cell(4, 2),
       Cell(1, 3), Cell(2, 3), Cell(3, 3), Cell(4, 3), Cell(2, 4), Cell(3, 4), Cell(4, 4)},
      [Cell(3, 1), Cell(4, 1)], false,
      {Cell(1, 1), Cell(2, 1), Cell(3, 1), Cell(1, 2), Cell(2, 2), Cell(3, 2), Cell(4, 2),
       Cell(1, 3), Cell(2, 3), Cell(3, 3), Cell(4, 3), Cell(2, 4), Cell(3, 4), Cell(4, 4)},
      [],
      [Cell(4, 1)]);
  }

  lemma Moves19()
    ensures Moves(
      {Cell(1, 1), Cell(2, 1), Cell(3, 1), Cell(1, 2), Cell(2, 2), Cell(3, 2), Cell(4, 2),
       Cell(1, 3), Cell(2, 3), Cell(3, 3), Cell(4, 3), Cell(2, 4), Cell(3, 4), Cell(4, 4)},
      [Cell(4, 1)], false,
      {Cell(1, 1), Cell(2, 1), Cell(3, 1), Cell(4, 1), Cell(1, 2), Cell(2, 2), Cell(3, 2),
       Cell(4, 2), Cell(1, 3), Cell(2, 3), Cell(3, 3), Cell(4, 3), Cell(2, 4), Cell(3, 4),
       Cell(4, 4)},
      [Cell(3, 0), Cell(4, 0), Cell(5, 0), Cell(5, 1), Cell(5, 2)],
      [])
  {
    var o := {Cell(1, 1), Cell(2, 1), Cell(3, 1), Cell(4, 1), Cell(1, 2), Cell(2, 2),
      Cell(3, 2), Cell(4, 2), Cell(1, 3), Cell(2, 3), Cell(3, 3), Cell(4, 3), Cell(2, 4),
      Cell(3, 4), Cell(4, 4)};
    var c := Cell(4, 1);
    assert Reach(o, c, -1, -1) + Reach(o, c, 0, -1) + Reach(o, c, 1, -1) == [Cell(3, 0), Cell(4, 0), Cell(5, 0)];
    assert Reach(o, c, -1, 0) + Reach(o, c, 1, 0) == [Cell(5, 1)];
    assert Reach(o, c, -1, 1) + Reach(o, c, 0, 1) + Reach(o, c, 1, 1) == [Cell(5, 2)];
  }

  lemma Trace19()
    ensures IsGrid(Demo) && QueueSafe(Demo, Start())
    ensures At(Run(Demo, Start(), 19), 19, 82,
      {Cell(1, 1), Cell(2, 1), Cell(3, 1), Cell(4, 1), Cell(1, 2), Cell(2, 2), Cell(3, 2),
       Cell(4, 2), Cell(1, 3), Cell(2, 3), Cell(3, 3), Cell(4, 3), Cell(2, 4), Cell(3, 4),
       Cell(4, 4)},
      [])
  {
    Trace18();
    Moves19();
    Step(Start(), 18, 18, 77,
      {Cell(1, 1), Cell(2, 1), Cell(3, 1), Cell(1, 2), Cell(2, 2), Cell(3, 2), Cell(4, 2),
       Cell(1, 3), Cell(2, 3), Cell(3, 3), Cell(4, 3), Cell(2, 4), Cell(3, 4), Cell(4, 4)},
      [Cell(4, 1)], false,
      {Cell(1, 1), Cell(2, 1), Cell(3, 1), Cell(4, 1), Cell(1, 2), Cell(2, 2), Cell(3, 2),
       Cell(4, 2), Cell(1, 3), Cell(2, 3), Cell(3, 3), Cell(4, 3), Cell(2, 4), Cell(3, 4),
       Cell(4, 4)},
      [Cell(3, 0), Cell(4, 0), Cell(5, 0), Cell(5, 1), Cell(5, 2)],
      []);
  }

  /**
   * The as-written loop outgrows its array: after 19 pops it has written 82
   * coordinate pairs, 164 ints, into `int queue[162]`.
   */
  lemma QueueOverflows()
    ensures IsGrid(Demo) && IsGrid(Start().display) && QueueSafe(Demo, Start())
    ensures Rear(Run(Demo, Start(), 19)) > QUEUE_INTS
  {
    Trace19();
  }
}
