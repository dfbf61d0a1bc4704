# Minesweeper board engine in Dafny

A model of the board engine of `minesweeper.c`, a terminal minesweeper. The
engine is a state machine over two HEIGHT x WIDTH character grids and three
flags:

- `board` holds the true layout, '.' or '*'.
- `display_board` holds what the player sees: '.' hidden, 'F' flagged, ' ' a
  shown cell with no adjacent mine, '1'..'8' a shown count, '*' the mine that
  was hit.
- `game_over`, `won` and `first_move` are the flags.

The operations are:

- `init_game` resets the state.
- `count_adjacent_mines` counts the mines around a cell.
- `place_mines` lays out the mines. It is deferred until the first reveal, so
  the first click is safe.
- `reveal` shows a cell. Through an iterative breadth-first flood fill, it also
  shows the region of zero cells around it.
- `flag` toggles a flag and `count_flags` counts the flags.
- `check_win` and the state update of `game_continue` decide the end of the
  game.

Modules, one per file:

- `Board` (board.dfy): the constants WIDTH = 9, HEIGHT = 9 and MINES = 10, the
  cell characters, grids as `seq<seq<char>>` indexed `g[y][x]` as in C, and
  counting of cells by character class, with its lemmas.
- `Neighbours` (neighbours.dfy): `count_adjacent_mines`, specified as the size
  of the set of mine cells in the clipped 3x3 block. Like the C loops, the
  block includes the centre cell. This module also has the glyph written for a
  shown cell.
- `Cascade` (cascade.dfy): the flood fill of `reveal`, in two versions.
  `SweepAsWritten` is the loop of the C file. `Sweep` is the loop corrected so
  that its queue fits the C array (see Findings). Both are proved to leave the
  display `Fills` defines: the cells reached from the start through zero cells
  (cells with no mine in their block) show their counts, and every other cell
  is unchanged. So both leave the same display. `SweepAsWritten` terminates
  under the measure (hidden cells, queued cells not yet popped).
- `Overflow` (overflow.dfy): a concrete board and first click on which the
  as-written loop writes past the end of its queue array.
- `Engine` (engine.dfy): the five globals as one immutable `Game` value, and
  the operations on it. It also defines the invariant `Inv` that every
  reachable state keeps.

The C globals are threaded through the operations as values: each operation
takes a `Game` and returns the next one. The C int flags are booleans.
`rand()` becomes a nondeterministic choice (`:|`) of any cell that the
rejection test of `place_mines` accepts.

## Model

| member | source | states |
|---|---|---|
| Board.ConfigHolds | minesweeper.c:51-53 | the default constants pass the compile-time guard: fewer than WIDTH*HEIGHT-1 mines |
| Board.FreeCellExists | minesweeper.c:92-99 | while fewer than WIDTH*HEIGHT-1 cells are mines, some cell that is neither the safe cell nor a mine exists, so the rejection loop of `place_mines` always has a cell to accept |
| Board.CountSplit | minesweeper.c:180 | the cells of a grid in a class and in its complement number WIDTH*HEIGHT, which turns "MINES mines" into "WIDTH*HEIGHT-MINES safe cells" |
| Board.CountMono | minesweeper.c:182-190 | if every cell counted in one grid sits where the other grid's class holds, the first count is not larger, and equal counts mean the two classes coincide cell by cell |
| Neighbours.CountVisited | minesweeper.c:72-83 | after the first k iterations of the two nested loops, the running count is the number of mines among the first k block positions, at most k, and below k once the centre has been visited, when the centre is not a mine |
| Neighbours.AdjacentMines | minesweeper.c:70-84 | the result is the size of the set of mine cells in the 3x3 block around (x, y), clipped to the board, centre included; it is at most 9, and at most 8 when (x, y) is not a mine |
| Neighbours.Revealed | minesweeper.c:139-140 | a shown safe cell is ' ' exactly when no mine is in its block, and otherwise the digit '1'..'8' that spells the count; never '.', 'F' or '*' |
| Cascade.SpreadTargetsExact | minesweeper.c:144-158 | the two inner loops append at most 8 cells, each an in-bounds neighbour of the popped cell (centre skipped) that is hidden and not a mine, and they append every such neighbour |
| Cascade.PopAsWritten | minesweeper.c:131-160 | one iteration of the C loop advances `front` by one, only appends to the queue, and keeps every queued cell an in-bounds safe cell |
| Cascade.PopAsWrittenKeeps | minesweeper.c:131-160 | one iteration keeps the loop invariant and lowers the measure (hidden cells, queued cells not yet popped) lexicographically: a reveal lowers the first, a skip the second |
| Cascade.SweepAsWritten | minesweeper.c:122-160 | the loop as written terminates; the start cell shows its count; every changed cell was hidden and safe and now shows its count; every cell it shows as ' ' has no hidden safe neighbour left; the display it leaves is exactly the reference `Fills`: a cell changes if and only if a chain of zero cells leads to it from the start; `rear` is at most 2 + 16 * (cells revealed), a bound that exceeds the array |
| Cascade.PopAsWrittenSourced | minesweeper.c:131-160 | each iteration as written queues only hidden safe neighbours of a popped zero cell, so every queued and every changed cell is reached from the start through zero cells |
| Cascade.FillsExactly | minesweeper.c:131-160 | a display that shows the start, changes only reached cells, each to its count, and leaves no hidden safe cell next to a zero cell it showed is exactly the reference fill: every reached cell shows its count and every other cell is unchanged |
| Cascade.FillUnique | minesweeper.c:122-160 | two displays that both meet the reference fill for the same board, display and start are equal, so `SweepAsWritten` and `Sweep` leave the same display |
| Cascade.FillsNumbered | minesweeper.c:139-143 | from a start with a mine in its block the fill shows the start alone: the display is d0 with only (x, y) set to its digit |
| Cascade.SpreadFromQueued | minesweeper.c:144-158 | the corrected inner loops queue only neighbours of the popped cell that were hidden before them |
| Cascade.PopSourced | minesweeper.c:131-160 | each corrected iteration keeps every queued and every changed cell reached from the start through zero cells |
| Cascade.SpreadFromFacts | minesweeper.c:144-158 | the corrected inner loops show each hidden safe neighbour as they queue it: the hidden count falls by exactly the number queued, nothing else changes, and no safe neighbour is left hidden |
| Cascade.PopKeeps | minesweeper.c:131-160 | one corrected iteration keeps its invariant: queued cells number exactly the cells revealed, and every zero cell is still queued or has no hidden safe neighbour |
| Cascade.Sweep | minesweeper.c:122-160 | the corrected loop promises everything `SweepAsWritten` does, the same reference display included, and `rear` is exactly twice the number of cells revealed, so it never exceeds the WIDTH*HEIGHT*2 ints of the queue array |
| Overflow.DemoReachable | minesweeper.c:87-101 | the demo board has exactly MINES mines and none at the first click (3, 3), so `place_mines(3, 3)` can produce it |
| Overflow.QueueOverflows | minesweeper.c:123-160 | on the demo board, after 19 iterations the as-written loop has queued 82 coordinate pairs, so `rear` is 164, beyond the 162 ints of `queue` |
| Engine.InitGame | minesweeper.c:296-309 | both grids are all '.', `game_over` and `won` are cleared and `first_move` is set, whatever the state before; the result satisfies the engine invariant |
| Engine.PlaceMines | minesweeper.c:87-101 | exactly MINES new mines are placed, the safe cell is left as it was, and every other cell either keeps its value or becomes a mine |
| Engine.Reveal | minesweeper.c:104-161 | off the board or on a cell that is not '.', nothing changes; the first reveal places MINES mines away from (x, y) and cannot hit a mine; a hidden mine becomes '*' with `game_over` set and nothing else changed; a safe cell is flood-filled: the display becomes the reference fill, where exactly the cells reached from (x, y) through zero cells show their counts, so a cell with a digit is shown alone; `game_over` is unchanged; the invariant is kept if it held |
| Engine.HitKeeps | minesweeper.c:116-119 | showing the mine that was hit and setting `game_over` keeps the invariant |
| Engine.SweepKeeps | minesweeper.c:122-160 | the flood fill from a safe cell keeps the invariant |
| Engine.Flag | minesweeper.c:164-174 | '.' becomes 'F' and 'F' becomes '.'; off the board or on a shown cell the state is unchanged; no other cell and no flag changes |
| Engine.FlagTwice | minesweeper.c:164-174 | flagging the same cell twice restores the state |
| Engine.FlagCount | minesweeper.c:164-174 | one `flag` call changes the number of 'F' cells by +1 on a hidden cell, by -1 on a flagged cell, and by 0 otherwise |
| Engine.FlagKeeps | minesweeper.c:164-174 | flagging keeps the invariant |
| Engine.CountCells | minesweeper.c:182-188 | the two nested counting loops compute the recursive cell count of the class |
| Engine.CountFlags | minesweeper.c:194-203 | the result is the number of 'F' display cells |
| Engine.CheckWin | minesweeper.c:177-191 | true exactly when the display cells that are neither '.' nor 'F' number WIDTH*HEIGHT-MINES |
| Engine.WinMeansCleared | minesweeper.c:177-191 | in a reachable state where no mine was hit, the `check_win` count holds exactly when every safe cell is shown |
| Engine.GameContinue | minesweeper.c:278-293 | returns 0 exactly when the game is already over, and then changes nothing, so a loss never becomes a win; otherwise it stores `check_win()` in `won`, sets `game_over` on a win, returns 1 (one more round after a win), and keeps the invariant |

## Left out

- `draw` is left out. It only prints the display.
- `process_input` is left out. It parses and dispatches commands, including
  its row/column swap into `reveal(y, x)`.
- `main` is left out: the driver loop and `srand(time(NULL))`.
- `rand()` is left out. `place_mines` picks any cell the rejection test
  accepts, so every sequence of random draws is covered. Termination of the C
  loop rests on the random draws eventually hitting a free cell; the model
  assumes this.
- The messages `game_continue` prints are left out.
- The macros `REVEALED` and `MISS` are never used by the code and are not
  modelled.
- WIDTH, HEIGHT and MINES are fixed to their defaults, 9, 9 and 10.
- `check_win` runs only inside `game_continue`, once per driver round
  (minesweeper.c:286); `reveal` never updates `won`. The model keeps this
  split.
- Engine.PlaceMines: requires that the board has room for MINES more mines
  besides the safe cell. Without that room, the C loop never ends.
- Engine.Reveal: requires well-formed grids and, before the first reveal,
  room for the mines. It states the invariant as "kept if it held", not for
  arbitrary states.
- Engine.Reveal: runs the corrected loop `Cascade.Sweep` instead of the loop
  of minesweeper.c:131-160. Both loops are proved to leave the reference
  display `Cascade.Fills`, so by `Cascade.FillUnique` they leave the same
  display. The only difference is the final `rear`, and the C loop's `rear`
  can run past the end of its array (see Findings).
- Cascade.SweepAsWritten: the C array is modelled as an unbounded sequence.
  Writes past its end are undefined behaviour in C, so the model stops at
  the bound `rear <= 2 + 16 * (cells revealed)` and the demonstration in
  `Overflow`.
- Integer widths do not matter here. Every index and count stays below
  2 * (82 + 8 * 81), far inside a C int.

## Findings

| source | as written | input that shows it | evidently intended | confidence | as-written member | corrected member |
|---|---|---|---|---|---|---|
| minesweeper.c:123, 152-154 | the flood fill queues a hidden safe neighbour every time a zero neighbour is revealed before it is popped, so one cell can be queued several times, and `rear` can pass the end of `int queue[WIDTH * HEIGHT * 2]` | the 9x9 board with its 10 mines in columns 4..8 of rows 7 and 8, first reveal at (3, 3): the 19th pop writes the 82nd pair, ints 162 and 163 of a 162-int array | every cell queued at most once, so that WIDTH * HEIGHT pairs suffice, for example by showing a cell when it is queued | not executed | Overflow.QueueOverflows | Cascade.Sweep |

The corrected loop (`Cascade.Sweep`) shows each cell as it enqueues it. It
then tests the popped cell for ' ' instead of '.', so every cell enters the
queue at most once, and `rear` is exactly twice the number of cells
revealed. Both loops leave the display `Cascade.Fills` defines, and
`Cascade.FillUnique` shows that this display is unique, so the correction
changes no cell the player sees. The engine (`Engine.Reveal`) uses the
corrected loop.
