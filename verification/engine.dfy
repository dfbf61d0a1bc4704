/**
 * The game engine of minesweeper.c around the flood fill: the global state
 * (`board`, `display_board`, `game_over`, `won`, `first_move`), `init_game`,
 * `place_mines`, `reveal`, `flag`, `count_flags`, `check_win` and the state
 * update of `game_continue`.
 *
 * The C globals become one immutable `Game` value that each operation takes
 * and returns. The three C int flags are booleans (the code only ever stores
 * 0 or 1 in them).
 */
module Engine {
  import opened Board
  import opened Neighbours
  import opened Cascade

  /** The five globals of the C file. */
  datatype Game = Game(board: Grid, display: Grid, gameOver: bool, won: bool, firstMove: bool)

  // ---------------------------------------------------------------------------
  // What a reachable state looks like
  // ---------------------------------------------------------------------------

  /**
   * What the player may see at (x, y): hidden, a flag, the mine that was hit,
   * or the count of a safe cell.
   */
  ghost predicate Consistent(board: Grid, display: Grid, x: int, y: int)
    requires IsGrid(board) && IsGrid(display) && InBounds(x, y)
  {
    || display[y][x] == HIDDEN
    || display[y][x] == FLAGGED
    || (display[y][x] == MINE && board[y][x] == MINE)
    || (board[y][x] != MINE && display[y][x] == Revealed(board, x, y))
  }

  /**
   * The invariant of every state the engine reaches from `init_game`: the
   * board holds '.' and '*' only, no mines before the first reveal and MINES
   * after it, nothing but hidden and flagged cells before the first reveal,
   * every display cell consistent with the board, a '*' on the display only
   * once the game is over, and a win only with the game over.
   */
  ghost predicate Inv(g: Game) {
    && IsGrid(g.board) && IsGrid(g.display)
    && (forall y, x :: InBounds(x, y) ==> g.board[y][x] == HIDDEN || g.board[y][x] == MINE)
    && Count(g.board, IsMine) == (if g.firstMove then 0 else MINES)
    && (g.firstMove ==> forall y, x :: InBounds(x, y) ==> g.display[y][x] == HIDDEN || g.display[y][x] == FLAGGED)
    && (forall y, x :: InBounds(x, y) ==> Consistent(g.board, g.display, x, y))
    && (forall y, x :: InBounds(x, y) && g.display[y][x] == MINE ==> g.gameOver)
    && (g.won ==> g.gameOver)
  }

  /**
   * What `reveal` needs of a state: two well-formed grids, and room for the
   * MINES mines the first reveal places besides the safe cell.
   */
  predicate Wf(g: Game) {
    IsGrid(g.board) && IsGrid(g.display)
    && (g.firstMove ==> Count(g.board, IsMine) + MINES < WIDTH * HEIGHT)
  }

  // ---------------------------------------------------------------------------
  // init_game
  // ---------------------------------------------------------------------------

  /**
   * `init_game`: both grids all hidden, `game_over` and `won` cleared,
   * `first_move` set, whatever the state before.
   */
  method InitGame() returns (g: Game)
    ensures IsGrid(g.board) && IsGrid(g.display)
    ensures forall y, x :: InBounds(x, y) ==> g.board[y][x] == HIDDEN && g.display[y][x] == HIDDEN
    ensures !g.gameOver && !g.won && g.firstMove
    ensures Inv(g)
  {
    var rows: Grid := [];
    var y := 0;
    while y < HEIGHT
      invariant 0 <= y <= HEIGHT && |rows| == y
      invariant forall j, i :: 0 <= j < y && 0 <= i < WIDTH ==> |rows[j]| == WIDTH && rows[j][i] == HIDDEN
      invariant forall j :: 0 <= j < y ==> |rows[j]| == WIDTH
    {
      var row := [];
      var x := 0;
      while x < WIDTH
        invariant 0 <= x <= WIDTH && |row| == x
        invariant forall i :: 0 <= i < x ==> row[i] == HIDDEN
      {
        row := row + [HIDDEN];
        x := x + 1;
      }
      rows := rows + [row];
      y := y + 1;
    }
    g := Game(rows, rows, false, false, true);
    CountBounds(rows, IsMine);
  }

  // ---------------------------------------------------------------------------
  // place_mines
  // ---------------------------------------------------------------------------

  /**
   * `place_mines(sx, sy)`: MINES more mines, none at the safe cell. The C loop
   * draws cells with `rand()` and rejects the safe cell and cells already
   * mined; here each accepted cell is any cell the rejection test lets
   * through. The loop ends because each accepted cell is a new mine.
   */
  method PlaceMines(board: Grid, sx: int, sy: int) returns (r: Grid)
    requires IsGrid(board)
    requires Count(board, IsMine) + MINES < WIDTH * HEIGHT
    ensures IsGrid(r)
    ensures Count(r, IsMine) == Count(board, IsMine) + MINES
    ensures InBounds(sx, sy) ==> r[sy][sx] == board[sy][sx]
    ensures forall y, x :: InBounds(x, y) ==> r[y][x] == board[y][x] || r[y][x] == MINE
  {
    r := board;
    var placed := 0;
    while placed < MINES
      invariant 0 <= placed <= MINES
      invariant IsGrid(r) && Count(r, IsMine) == Count(board, IsMine) + placed
      invariant InBounds(sx, sy) ==> r[sy][sx] == board[sy][sx]
      invariant forall y, x :: InBounds(x, y) ==> r[y][x] == board[y][x] || r[y][x] == MINE
      decreases MINES - placed
    {
      var fx, fy := FreeCellExists(r, IsMine, sx, sy);
      var x, y :| InBounds(x, y) && (x != sx || y != sy) && r[y][x] != MINE;
      CountSet(r, x, y, MINE, IsMine);
      r := Set(r, x, y, MINE);
      placed := placed + 1;
    }
  }

  // ---------------------------------------------------------------------------
  // reveal
  // ---------------------------------------------------------------------------

  /**
   * `reveal(x, y)`. Off the board, or on a cell that is not hidden (flagged
   * or shown), nothing changes. Otherwise the first reveal places the mines
   * around (x, y) and clears `first_move`; a mine at (x, y) is shown as '*'
   * and ends the game, and nothing else changes; a safe cell starts the flood
   * fill, which shows exactly the cells reached from (x, y) through zero cells,
   * so a numbered cell is shown alone. The fill uses the corrected loop
   * `Sweep`, which leaves the same display as the loop of the C file. The
   * game-over flag is not consulted.
   */
  method Reveal(g: Game, x: int, y: int) returns (r: Game)
    requires Wf(g)
    ensures Wf(r)
    ensures !InBounds(x, y) || g.display[y][x] != HIDDEN ==> r == g
    ensures InBounds(x, y) && g.display[y][x] == HIDDEN ==> !r.firstMove && r.won == g.won
    ensures InBounds(x, y) && g.display[y][x] == HIDDEN && g.firstMove ==>
      && Count(r.board, IsMine) == Count(g.board, IsMine) + MINES
      && r.board[y][x] == g.board[y][x]
      && forall j, i :: InBounds(i, j) ==> r.board[j][i] == g.board[j][i] || r.board[j][i] == MINE
    ensures InBounds(x, y) && g.display[y][x] == HIDDEN && !g.firstMove ==> r.board == g.board
    ensures InBounds(x, y) && g.display[y][x] == HIDDEN && r.board[y][x] == MINE ==>
      r.display == Set(g.display, x, y, MINE) && r.gameOver
    ensures InBounds(x, y) && g.display[y][x] == HIDDEN && r.board[y][x] != MINE ==>
      && r.gameOver == g.gameOver
      && r.display[y][x] == Revealed(r.board, x, y)
      && OnlyRevealsSafe(r.board, g.display, r.display)
      && Closed(r.board, g.display, r.display)
      && Fills(r.board, g.display, x, y, r.display)
    ensures InBounds(x, y) && g.display[y][x] == HIDDEN && r.board[y][x] != MINE && Revealed(r.board, x, y) != BLANK ==>
      r.display == Set(g.display, x, y, Revealed(r.board, x, y))
    ensures Inv(g) && InBounds(x, y) && g.display[y][x] == HIDDEN && g.firstMove ==>
      r.board[y][x] != MINE && r.display[y][x] != MINE && r.gameOver == g.gameOver
    ensures Inv(g) ==> Inv(r)
  {
    if !InBounds(x, y) || g.display[y][x] != HIDDEN {
      return g;
    }
    if Inv(g) && g.firstMove {
      CountBounds(g.board, IsMine);
    }
    var board := g.board;
    if g.firstMove {
      board := PlaceMines(board, x, y);
    }
    if board[y][x] == MINE {
      r := Game(board, Set(g.display, x, y, MINE), true, g.won, false);
      if Inv(g) {
        HitKeeps(g, board, x, y);
      }
    } else {
      var d, rear := Sweep(board, g.display, x, y);
      r := Game(board, d, g.gameOver, g.won, false);
      if Revealed(board, x, y) != BLANK {
        FillsNumbered(board, g.display, x, y, d);
      }
      if Inv(g) {
        SweepKeeps(g, board, d, x, y);
      }
    }
  }

  /** The board after the first reveal keeps what the invariant says of the board. */
  ghost predicate Placed(g: Game, board: Grid)
    requires Inv(g)
  {
    && IsGrid(board)
    && (forall j, i :: InBounds(i, j) ==> board[j][i] == HIDDEN || board[j][i] == MINE)
    && Count(board, IsMine) == MINES
    && (!g.firstMove ==> board == g.board)
  }

  lemma PlacedOk(g: Game, board: Grid)
    requires Inv(g) && IsGrid(board)
    requires g.firstMove ==> Count(board, IsMine) == Count(g.board, IsMine) + MINES
    requires forall j, i :: InBounds(i, j) ==> board[j][i] == g.board[j][i] || board[j][i] == MINE
    requires !g.firstMove ==> board == g.board
    ensures Placed(g, board)
  {
  }

  /** Hitting a mine keeps the invariant. */
  lemma HitKeeps(g: Game, board: Grid, x: int, y: int)
    requires Inv(g) && InBounds(x, y) && g.display[y][x] == HIDDEN
    requires IsGrid(board) && board[y][x] == MINE
    requires g.firstMove ==> Count(board, IsMine) == Count(g.board, IsMine) + MINES
    requires forall j, i :: InBounds(i, j) ==> board[j][i] == g.board[j][i] || board[j][i] == MINE
    requires !g.firstMove ==> board == g.board
    ensures Inv(Game(board, Set(g.display, x, y, MINE), true, g.won, false))
  {
    PlacedOk(g, board);
    var r := Game(board, Set(g.display, x, y, MINE), true, g.won, false);
    forall j, i | InBounds(i, j)
      ensures Consistent(r.board, r.display, i, j)
    {
      if i != x || j != y {
        assert Consistent(g.board, g.display, i, j);
        if g.firstMove {
          assert g.display[j][i] == HIDDEN || g.display[j][i] == FLAGGED;
        }
      }
    }
  }

  /** The flood fill from a safe cell keeps the invariant. */
  lemma SweepKeeps(g: Game, board: Grid, d: Grid, x: int, y: int)
    requires Inv(g) && InBounds(x, y) && g.display[y][x] == HIDDEN
    requires IsGrid(board) && board[y][x] != MINE && IsGrid(d)
    requires g.firstMove ==> Count(board, IsMine) == Count(g.board, IsMine) + MINES
    requires forall j, i :: InBounds(i, j) ==> board[j][i] == g.board[j][i] || board[j][i] == MINE
    requires !g.firstMove ==> board == g.board
    requires OnlyRevealsSafe(board, g.display, d)
    ensures Inv(Game(board, d, g.gameOver, g.won, false))
  {
    PlacedOk(g, board);
    var r := Game(board, d, g.gameOver, g.won, false);
    forall j, i | InBounds(i, j)
      ensures Consistent(r.board, r.display, i, j)
      ensures r.display[j][i] == MINE ==> r.gameOver
    {
      if d[j][i] == g.display[j][i] {
        assert Consistent(g.board, g.display, i, j);
        if g.firstMove {
          assert g.display[j][i] == HIDDEN || g.display[j][i] == FLAGGED;
        }
      }
    }
  }

  // ---------------------------------------------------------------------------
  // flag and count_flags
  // ---------------------------------------------------------------------------

  /**
   * `flag(x, y)`: a hidden cell becomes flagged and a flagged cell hidden
   * again; off the board, or on a shown cell, nothing changes.
   */
  function Flag(g: Game, x: int, y: int): (r: Game)
    requires IsGrid(g.display)
    ensures IsGrid(r.display)
    ensures r.board == g.board && r.gameOver == g.gameOver && r.won == g.won && r.firstMove == g.firstMove
    ensures forall j, i :: InBounds(i, j) && (i != x || j != y) ==> r.display[j][i] == g.display[j][i]
    ensures InBounds(x, y) && g.display[y][x] == HIDDEN ==> r.display[y][x] == FLAGGED
    ensures InBounds(x, y) && g.display[y][x] == FLAGGED ==> r.display[y][x] == HIDDEN
    ensures !InBounds(x, y) || (g.display[y][x] != HIDDEN && g.display[y][x] != FLAGGED) ==> r == g
  {
    if !InBounds(x, y) then g
    else if g.display[y][x] != HIDDEN && g.display[y][x] != FLAGGED then g
    else if g.display[y][x] == HIDDEN then g.(display := Set(g.display, x, y, FLAGGED))
    else g.(display := Set(g.display, x, y, HIDDEN))
  }

  /** Flagging the same cell twice restores the state. */
  lemma FlagTwice(g: Game, x: int, y: int)
    requires IsGrid(g.display)
    ensures Flag(Flag(g, x, y), x, y) == g
  {
    var r := Flag(Flag(g, x, y), x, y);
    assert forall j :: 0 <= j < HEIGHT ==> r.display[j] == g.display[j];
  }

  /** One `flag` call moves the `count_flags` result by +1, -1 or 0. */
  lemma FlagCount(g: Game, x: int, y: int)
    requires IsGrid(g.display)
    ensures Count(Flag(g, x, y).display, IsFlagged) == Count(g.display, IsFlagged)
      + (if !InBounds(x, y) then 0
         else if g.display[y][x] == HIDDEN then 1
         else if g.display[y][x] == FLAGGED then -1
         else 0)
  {
    if InBounds(x, y) && g.display[y][x] == HIDDEN {
      CountSet(g.display, x, y, FLAGGED, IsFlagged);
    } else if InBounds(x, y) && g.display[y][x] == FLAGGED {
      CountSet(g.display, x, y, HIDDEN, IsFlagged);
    }
  }

  /** Flagging keeps the invariant. */
  lemma FlagKeeps(g: Game, x: int, y: int)
    requires Inv(g)
    ensures Inv(Flag(g, x, y))
  {
    var r := Flag(g, x, y);
    forall j, i | InBounds(i, j)
      ensures Consistent(r.board, r.display, i, j)
    {
      assert Consistent(g.board, g.display, i, j);
    }
  }

  /** The two nested C loops counting the cells of a grid in class p, row by row. */
  method CountCells(g: Grid, p: char -> bool) returns (n: nat)
    requires IsGrid(g)
    ensures n == Count(g, p)
  {
    n := 0;
    var y := 0;
    while y < HEIGHT
      invariant 0 <= y <= HEIGHT && n == Count(g[..y], p)
    {
      var x := 0;
      while x < WIDTH
        invariant 0 <= x <= WIDTH && n == Count(g[..y], p) + CountRow(g[y][..x], p)
      {
        CountRowPrefix(g[y], x, p);
        if p(g[y][x]) {
          n := n + 1;
        }
        x := x + 1;
      }
      assert g[y][..WIDTH] == g[y];
      CountPrefix(g, y, p);
      y := y + 1;
    }
    assert g[..HEIGHT] == g;
  }

  /** `count_flags`: the number of flagged display cells. */
  method CountFlags(g: Game) returns (n: nat)
    requires IsGrid(g.display)
    ensures n == Count(g.display, IsFlagged) && n <= WIDTH * HEIGHT
  {
    n := CountCells(g.display, IsFlagged);
    CountBounds(g.display, IsFlagged);
  }

  // ---------------------------------------------------------------------------
  // check_win and game_continue
  // ---------------------------------------------------------------------------

  /**
   * `check_win`: whether the display cells that are neither hidden nor
   * flagged number exactly WIDTH * HEIGHT - MINES.
   */
  method CheckWin(g: Game) returns (win: bool)
    requires IsGrid(g.display)
    ensures win <==> Count(g.display, IsOpen) == WIDTH * HEIGHT - MINES
  {
    var revealed := CountCells(g.display, IsOpen);
    win := revealed == WIDTH * HEIGHT - MINES;
  }

  /**
   * In a reachable state where no mine has been hit, `check_win` holds exactly
   * when every safe cell is shown.
   */
  lemma WinMeansCleared(g: Game)
    requires Inv(g) && !g.gameOver
    ensures Count(g.display, IsOpen) == WIDTH * HEIGHT - MINES
        <==> forall y, x :: InBounds(x, y) && g.board[y][x] != MINE ==> IsOpen(g.display[y][x])
  {
    forall y, x | InBounds(x, y) && IsOpen(g.display[y][x])
      ensures IsSafe(g.board[y][x])
    {
      assert Consistent(g.board, g.display, x, y);
    }
    CountMono(g.display, IsOpen, g.board, IsSafe);
    CountSplit(g.board, IsMine, IsSafe);
    if g.firstMove {
      CountBounds(g.display, IsOpen);
      assert !IsOpen(g.display[0][0]);
      CountBounds(g.board, IsMine);
    } else if forall y, x :: InBounds(x, y) && g.board[y][x] != MINE ==> IsOpen(g.display[y][x]) {
      CountMono(g.board, IsSafe, g.display, IsOpen);
    }
  }

  /**
   * `game_continue` without its messages. Once the game is over it answers 0
   * and changes nothing, so a loss never becomes a win. Otherwise it stores
   * `check_win()` in `won`, ends the game on a win, and answers 1 either way:
   * after a win the driver still runs one more round.
   */
  method GameContinue(g: Game) returns (r: Game, cont: bool)
    requires IsGrid(g.display)
    ensures cont <==> !g.gameOver
    ensures g.gameOver ==> r == g
    ensures !g.gameOver ==>
      && r.board == g.board && r.display == g.display && r.firstMove == g.firstMove
      && (r.won <==> Count(g.display, IsOpen) == WIDTH * HEIGHT - MINES)
      && r.gameOver == r.won
    ensures Inv(g) ==> Inv(r)
  {
    if g.gameOver {
      return g, false;
    }
    var win := CheckWin(g);
    r := g.(won := win);
    if win {
      r := r.(gameOver := true);
    }
    cont := true;
    if Inv(g) {
      assert forall y, x :: InBounds(x, y) ==> Consistent(r.board, r.display, x, y) by {
        forall y, x | InBounds(x, y) ensures Consistent(r.board, r.display, x, y) {
          assert Consistent(g.board, g.display, x, y);
        }
      }
    }
  }
}
