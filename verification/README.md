# PAD-Auto-Solver core, modelled in Dafny

PAD-Auto-Solver plays the orb-matching phase of Puzzle & Dragons. The board is
a grid of coloured orbs. A move drags one orb along a path of orthogonal
steps. Three or more orbs of one colour in a row or a column clear as a combo.

This project models the solver's core:

- the orb and direction enumerations (`Orbs`, `Directions`);
- the board constructor's per-colour tally and its greedy estimate of the
  best possible combo count;
- the recursive run eraser `_erase_orbs` (`go_right` / `go_down`);
- the `calc_combos` scan that erases and counts combos;
- the beam search `solve` / `_solve_from`;
- the conversion of a drag path into screen points (`_path_to_coord`), and the
  integer layout arithmetic of `setup_device`;
- the "Dawnglare" board-string translator of `misc/util.py`.

Modules, one per concern:

| module | file | models |
|---|---|---|
| `Optional` | optional.dfy | Python's `None` as `Option` |
| `PadTypes` | pad_types.dfy | `Orbs`, `Directions`, coordinates and travel along a path |
| `Grids` | grids.dfy | boards as row-major `seq<seq<Orb>>` and counting over them |
| `Counts` | counts.dfy | the frequency dictionary and the greedy `max` loop of `Board.__init__` |
| `Erasure` | erasure.dfy | `_erase_orbs` and `calc_combos` |
| `PadBoard` | pad_board.dfy | the `Board` record built by the constructor |
| `BoardFixtures` | board_fixtures.dfy | the boards of test/board_test.py and what erasing leaves of them |
| `Solver` | solver.dfy | `solve` and `_solve_from` over an abstract board |
| `Interface` | interface.dfy | `_path_to_coord` and the coordinate grid |
| `Dawnglare` | dawnglare.dfy | `str_to_enum` without the prompt and the printing |

Modelling choices:

- `_erase_orbs` mutates the board in place. Here it is a pure function that
  returns the new grid and the number of cells it changed.
- `go_right` and `go_down` are mutually recursive functions. Each `for` loop
  is a further recursive function over the loop index.
- `calc_combos` also mutates its board. Its model returns both the count and
  the grid it leaves behind.
- The search is generic in the board type. The four board operations it uses
  are fields of a `Space` value:
  - `move_orb` on a copy of the board;
  - `calc_combos`;
  - the string form kept in `visited`;
  - `max_combos()`.
- `src/solver/solver.py` holds an unresolved merge. The model follows the
  `debugging` side: one `visited` set is shared across all start cells, and a
  direction that repeats the previous one is skipped.
- Python's `heapq` is modelled as a sequence. `heappop` takes the first entry
  of smallest priority. `heapq.nsmallest(10, h)` repeatedly drops the first
  entry of largest priority, keeping the others in order.
- The search's state is checked against `Solver.Replay`. That function
  replays a path from the scored initial board: each step moves the orb
  from where the earlier steps left it and scores the moved board. Every
  entry the search holds, and the best path it returns, agree with that replay.
- The search's `while` loop terminates. The measure is the sum over the frontier
  of `5^(maxPath - |path|)`.

## Model

| member | source | states |
|---|---|---|
| PadTypes.OrbValue | src/solver/pad_types.py:7-19 | every orb has a value in 0..6, and only `CLEARED` has 6 |
| PadTypes.OrbFromValue | src/solver/pad_types.py:7-19 | looking an orb up by value succeeds exactly for 0..6 and inverts `OrbValue` |
| PadTypes.OrbValueRoundTrip | src/solver/pad_types.py:6-19 | every orb is recovered from its value (`@unique`) |
| PadTypes.OrbValuesDistinct | src/solver/pad_types.py:6-19 | distinct orbs carry distinct values |
| PadTypes.DirectionIsUnit | src/solver/pad_types.py:27-30 | every direction moves exactly one cell along exactly one axis |
| PadTypes.DirectionOpposites | src/solver/pad_types.py:27-30 | LEFT undoes RIGHT and UP undoes DOWN |
| PadTypes.DirectionsDistinct | src/solver/pad_types.py:21-30 | the four directions have distinct deltas and are each iterated once |
| PadTypes.TravelIsDisplacement | src/solver/solver.py:115-116 | following a path moves by the sum of its direction deltas |
| PadTypes.TravelFront | src/solver/solver.py:115-116 | a path can be followed from its first step as well as from its last |
| Grids.FlattenLength | src/solver/board.py:21-22 | the constructor's double loop visits rows×cols cells |
| Grids.GridCountFlatten | src/solver/board.py:21-23 | counting row by row agrees with counting the visited cells |
| Grids.SetCellCount | src/solver/board.py:89 | replacing one cell changes each colour's count by at most that cell |
| Grids.DiffIsNewlyCleared | src/solver/board.py:86-89 | when every change is an erasure, the changed cells are exactly the newly cleared ones |
| Grids.DiffZero | src/solver/board.py:121-123 | two boards of the same shape differ in no cell exactly when they are equal |
| Counts.Bump | src/solver/board.py:23 | one `update` adds the orb as a key and raises its count, and only its count, by one |
| Counts.TallyOf | src/solver/board.py:18-23 | the frequency dictionary has unique keys, its counts sum to the number of cells, and each count is that colour's occurrences |
| Counts.Prune | src/solver/board.py:32 | the comprehension keeps only keys whose count is at least `COMBO_LIMIT` |
| Counts.PruneLookup | src/solver/board.py:32 | after pruning, a colour's count is its old count when that reaches 3, else absent (0) |
| Counts.FirstOther | src/solver/board.py:39 | `next(...)` gives the first key other than the excluded one, or none if there is no such key |
| Counts.Spend | src/solver/board.py:43 | one pick takes exactly `COMBO_LIMIT` orbs from the picked colour and from nothing else |
| Counts.Greedy | src/solver/board.py:28-45 | no colour is picked twice in a row, the first pick avoids the excluded colour, and every pick spends 3 orbs the board has |
| Counts.GreedyStops | src/solver/board.py:28-45 | the loop stops only when nothing is left to pick: every colour except the last pick (or the excluded one, when nothing was picked) keeps fewer than 3 orbs once its picks are spent |
| Counts.StopsAfterPick | src/solver/board.py:43-45 | the stopping condition after one pick carries back to the tally before it |
| Counts.PickAccounting | src/solver/board.py:43-45 | one pick plus the later picks never spend more of a colour than the board holds |
| Counts.NoEligibleColour | src/solver/board.py:32-41 | with no colour at 3 orbs the loop stops at once |
| Counts.OneEligibleColour | src/solver/board.py:31-45 | with exactly one colour at 3 or more orbs the estimate is that one combo, because lines 35-36 stop a second pick of it |
| Counts.SinglePrunedEntry | src/solver/board.py:31-45 | a pruned dictionary with a single key yields exactly one pick |
| Counts.SpentSingle | src/solver/board.py:35-36 | the loop stops when the only eligible key is the excluded one |
| PadBoard.NewBoard | src/solver/board.py:11-52 | the constructor stores the grid and its dimensions, counts every cell, and its estimate spends at most all the cells; an empty grid raises (`None`) |
| PadBoard.CountsCoverCells | src/solver/board.py:18-23 | on a rows×cols board the counts add up to rows×cols |
| PadBoard.MaxAtMostThird | src/solver/board.py:28-45 | the estimate is at most a third of the cells |
| PadBoard.MaxIsPicks | src/solver/board.py:28-45 | the estimate is the length of a pick sequence with no colour following itself, and each colour's picks are covered by its orbs |
| PadBoard.MaxZero | src/solver/board.py:28-45 | with no colour at 3 orbs the estimate is 0 |
| PadBoard.MaxOne | src/solver/board.py:28-45 | with exactly one colour at 3 or more orbs the estimate is 1, however many orbs that colour has |
| PadBoard.CalcCombosOn | src/solver/board.py:126-136 | `calc_combos` keeps the board's shape, counts and estimate, leaves no same-coloured run anywhere, and a zero count leaves the board unchanged |
| Erasure.ScanRight | src/solver/board.py:77-81 | the `while` stops at the first cell that is neither the colour nor cleared, or at the row's end |
| Erasure.ScanDown | src/solver/board.py:102-107 | the same for a column |
| Erasure.GoRight | src/solver/board.py:72-94 | `go_right` only erases orbs of the colour, none above or left of its start, and its count is exactly the number of newly cleared cells |
| Erasure.RightLoop | src/solver/board.py:84-94 | the `for` loop of `go_right` keeps the same two facts from any column on |
| Erasure.RightStep | src/solver/board.py:85-93 | one turn of that loop, including its early `return` on an unclearable start |
| Erasure.GoDown | src/solver/board.py:97-120 | the same for `go_down` |
| Erasure.DownLoop | src/solver/board.py:110-120 | the same for the loop of `go_down` |
| Erasure.DownStep | src/solver/board.py:111-118 | one turn of the `go_down` loop |
| Erasure.EraseOrbs | src/solver/board.py:121-123 | `_erase_orbs` erases only the colour, never above or left of the start, returns the number of changed cells, and returns 0 exactly when the board is unchanged |
| Erasure.ClearsCount | src/solver/board.py:86-89 | an erasing step's changed cells are exactly its newly cleared ones |
| Erasure.GoRightSound | src/solver/board.py:72-94 | every cell `go_right` clears lies in a run of at least 3 cells of the colour or of cleared cells |
| Erasure.RightLoopSound | src/solver/board.py:84-94 | the same for its loop from any column on |
| Erasure.RightStepSound | src/solver/board.py:85-93 | the same for one loop turn |
| Erasure.GoDownSound | src/solver/board.py:97-120 | the same for `go_down` |
| Erasure.DownLoopSound | src/solver/board.py:110-120 | the same for its loop |
| Erasure.DownStepSound | src/solver/board.py:111-118 | the same for one loop turn |
| Erasure.EraseOrbsSound | src/solver/board.py:121-123 | every cell `_erase_orbs` clears lies in such a run |
| Erasure.RunsStable | src/solver/board.py:77-107 | a run stays a run when cells of its colour are cleared |
| Erasure.ScansStable | src/solver/board.py:77-107 | clearing cells of the colour does not move the scans' stopping points |
| Erasure.ComposeRuns | src/solver/board.py:93-118 | runs found in a nested call are runs of the board the outer call started from |
| Erasure.RightLoopClearsRun | src/solver/board.py:83-89 | on a run of at least 3 cells, `go_right` clears every cell of it from column `i` on |
| Erasure.DownLoopClearsRun | src/solver/board.py:109-114 | the same for a column run |
| Erasure.GoRightClearsRun | src/solver/board.py:77-89 | a row run of at least 3 cells from the start is cleared in full |
| Erasure.GoDownClearsRun | src/solver/board.py:102-114 | a column run of at least 3 cells from the start is cleared in full |
| Erasure.RightLoopClearsColumns | src/solver/board.py:84-93 | along a cleared row run, every later cell's column run going down is cleared too |
| Erasure.GoRightClearsColumns | src/solver/board.py:84-93 | the same for `go_right` from its start |
| Erasure.EraseNoRun | src/solver/board.py:83-116 | from an orb with no run of 3 across or down, `_erase_orbs` changes nothing and returns 0 |
| Erasure.EraseFindsRun | src/solver/board.py:83-121 | from an orb that starts a run of 3, `_erase_orbs` clears it and returns a positive count |
| Erasure.RunsOnlyShrink | src/solver/board.py:131-134 | erasing never creates a run of one uncleared colour |
| Erasure.CalcFrom | src/solver/board.py:131-134 | the scan keeps the board's shape, each combo clears at least one cell, and a scan that counts nothing leaves the board as it was |
| Erasure.Visit | src/solver/board.py:133-134 | the loop body at an orb, with the rest of the scan, keeps the board's shape. Each combo it counts clears at least one further cell, and a count of 0 leaves the board unchanged |
| Erasure.CalcFromSettles | src/solver/board.py:131-134 | the scan only clears cells at or after where it resumes, and leaves no same-coloured run starting there or later |
| Erasure.VisitSettles | src/solver/board.py:133-134 | the same two facts for the loop body at an orb |
| Erasure.CalcStep | src/solver/board.py:133-134 | one erase followed by the rest of the scan keeps both facts |
| Erasure.CalcCombos | src/solver/board.py:126-136 | `calc_combos` only erases, leaves no same-coloured run on the board, clears at least one cell per combo, and a count of 0 leaves the board unchanged |
| Erasure.CleanScanIsRun | src/solver/board.py:77-107 | on a board with no cleared cell, a scan finds only real same-coloured runs |
| Erasure.SettledScoresZero | src/solver/board.py:126-136 | on a board with no cleared cell and no run, `calc_combos` counts 0 and changes nothing |
| Erasure.CombosZeroIffSettled | src/solver/board.py:126-136 | on a board with no cleared cell, `calc_combos` reports 0 exactly when the board has no run of 3 |
| BoardFixtures.EraseBlock | test/board_test.py:63-67 | erasing blue from (1, 0) on `board1_input` yields `board1_output` |
| BoardFixtures.EraseUnrelatedCell | test/board_test.py:69-75 | erasing blue from (0, 3) on `board1_input` changes nothing |
| BoardFixtures.EraseAllButOne | test/board_test.py:77-83 | erasing light from (0, 0) on `board2_input` clears every light orb |
| BoardFixtures.EraseBands | test/board_test.py:85-91 | erasing light from (0, 3) on `board3_input` clears the bottom band only |
| BoardFixtures.BlockInputIsBoard1 | test/board_test.py:9-16 | the cell-wise description used in the proof is exactly `board1_input` |
| BoardFixtures.AllButOneInputIsBoard2 | test/board_test.py:27-34 | the same for `board2_input` |
| BoardFixtures.BandsInputIsBoard3 | test/board_test.py:45-52 | the same for `board3_input` |
| BoardFixtures.AllButOneOutputIsBoard2Output | test/board_test.py:36-43 | the cell-wise description of the result is exactly `board2_output` |
| BoardFixtures.BandsOutputIsBoard3Output | test/board_test.py:54-61 | the same for `board3_output` |
| Solver.MinIndex | src/solver/solver.py:92 | `heappop` takes an entry of smallest priority, the first one on ties |
| Solver.MaxIndex | src/solver/solver.py:136-137 | the entry `nsmallest` drops first has a largest priority |
| Solver.RemoveAt | src/solver/solver.py:92 | popping removes exactly that entry and keeps the others in order |
| Solver.RemoveAtMultiset | src/solver/solver.py:92 | popping loses exactly the popped entry |
| Solver.Truncate | src/solver/solver.py:136-137 | the frontier is cut back to at most 10 entries, and left alone when it is shorter |
| Solver.TruncatePartition | src/solver/solver.py:136-137 | the kept and dropped entries are together exactly the old frontier |
| Solver.TruncateKeepsBest | src/solver/solver.py:136-137 | no dropped entry has a smaller priority than a kept one: the 10 smallest are kept |
| Solver.TruncateAtMost | src/solver/solver.py:136-137 | cutting back never introduces a larger priority |
| Solver.TruncateKeeps | src/solver/solver.py:136-137 | cutting back keeps every entry's path and position valid |
| Solver.TruncateWeight | src/solver/solver.py:136-137 | cutting back never increases the termination measure |
| Solver.WeightRemoveAt | src/solver/solver.py:92 | popping lowers the termination measure by the popped entry's weight |
| Solver.Offer | src/solver/solver.py:103-113 | a direction that repeats the last one, an invalid move, or an already visited board leaves the search unchanged |
| Solver.OfferPushes | src/solver/solver.py:109-137 | otherwise the child is scored, pushed with priority `-combos`, its board key is added to `visited`, the running best is updated as `max`, and after the cut back the frontier plus the dropped entries equals the old frontier plus the child |
| Solver.OfferKeeps | src/solver/solver.py:103-137 | one direction keeps every frontier entry's path within `max_path`, free of immediate repeats and ending at its recorded position, and adds at most one child's weight |
| Solver.PushKeeps | src/solver/solver.py:115-137 | the same facts for a push followed by the cut back |
| Solver.PushWeight | src/solver/solver.py:125-137 | a push followed by the cut back adds at most one child's weight |
| Solver.ChildOk | src/solver/solver.py:106-124 | a child's path extends its parent's path by a non-repeating step and ends at `next_loc` |
| Solver.ExpandKeeps | src/solver/solver.py:103-137 | the four-direction loop keeps those facts and adds at most four children's weight |
| Solver.Larger | src/solver/solver.py:94-98 | the popped entry's count raises the running best only when it is larger |
| Solver.ReplayChild | src/solver/solver.py:109-127 | the pushed child holds exactly the count and board that replaying its parent's path plus the new direction gives |
| Solver.TruncateReplays | src/solver/solver.py:136-137 | cutting back keeps only entries that agree with their replay |
| Solver.PushReplays | src/solver/solver.py:115-137 | a push keeps every frontier entry in agreement with its replay, and keeps the running best a path whose replay scores the running count |
| Solver.OfferReplays | src/solver/solver.py:103-137 | the same for one direction, skipped or pushed |
| Solver.ExpandReplays | src/solver/solver.py:103-137 | the same for the four-direction loop |
| Solver.ExpandCovers | src/solver/solver.py:103-137 | after the four-direction loop, each direction falls in one of four cases: it repeats the last one, its move is invalid, the moved board's key is in `visited`, or that board's count is at most the running count |
| Solver.Round | src/solver/solver.py:89-137 | one turn of the `while` loop only grows `visited` and the running count |
| Solver.Popped | src/solver/solver.py:92-98 | popping leaves `visited` alone and never lowers the running count |
| Solver.PopKeeps | src/solver/solver.py:92-98 | popping keeps the frontier's invariants and removes exactly the popped entry's weight |
| Solver.GrowKeeps | src/solver/solver.py:100-137 | expanding an entry whose path may still grow adds less weight than the entry had |
| Solver.RoundKeeps | src/solver/solver.py:89-137 | one turn keeps every entry's path valid, every held count at most the running count, the heap at most 10 entries, and strictly lowers the termination measure |
| Solver.RoundReplays | src/solver/solver.py:89-137 | one turn keeps every entry in agreement with its replay, and the best path's replay scoring the running count |
| Solver.RoundCovers | src/solver/solver.py:89-137 | the first turn deals with every valid first move from the start cell, as in `Solver.ExpandCovers` |
| Solver.RootCoveredFromExpand | src/solver/solver.py:103-116 | dealing with the four directions from the start covers every direction |
| Solver.SolveFrom | src/solver/solver.py:66-148 | `_solve_from` scores the initial board and records its key. Its result is at least that score and is what replaying the returned path scores. The path is within `max_path` with no immediate repeats. It stops only on an empty heap or on reaching `max_combos()`, and every entry left in the heap agrees with its replay and scores at most the result. When the search may move at all, every valid first move from the start leads to a board whose key is in `visited` or that scores at most the result. Every key it adds to `visited` is the key of a board that replaying some path of at most `max_path` steps leaves |
| Solver.PushWithin | src/solver/solver.py:118-130 | a push adds to `visited` only the key of the child's board after `calc_combos` |
| Solver.OfferWithin | src/solver/solver.py:103-130 | the same for one direction, skipped or pushed |
| Solver.ExpandWithin | src/solver/solver.py:103-130 | the same for the four-direction loop |
| Solver.RoundWithin | src/solver/solver.py:89-130 | the same for one turn of the `while` loop |
| Solver.StartsCells | src/solver/solver.py:56-58 | the start cells are all the board's cells, paired with the orbs the double loop visits |
| Solver.StartsOrdered | src/solver/solver.py:56-58 | the start cells come in strictly increasing reading order |
| Solver.PickedNext | src/solver/solver.py:59-62 | a strictly larger count takes over the answer; a tie or a smaller one leaves it alone |
| Solver.Solve | src/solver/solver.py:55-64 | `solve` tries every cell in reading order. The first search gets the board `b`, and each later one gets the board the previous search left. Each start's count is at least its board's own score and is what replaying that start's path from that board scores. `solve` returns no start exactly when every count is 0; otherwise it returns the first cell with the largest count, together with that cell's path. For each start, the shared visited set grows by that search's scored initial board. It gains only keys of boards that start's search reached. When that search could move, each of its valid first moves leads to a visited board or to a board scoring at most its count |
| Solver.SearchedNext | src/solver/solver.py:56-58 | one more search, handed the visited set the previous one left, extends those per-start facts |
| Interface.FloorDiv | src/interface.py:90-97 | Python's `//` rounds the quotient towards minus infinity |
| Interface.Layout | src/interface.py:86-119 | `change` is `res_width // board_cols` and `radius` is `change // 2`. `bottom` is the status bar height plus the game height `res_width * height_ratio // width_ratio`, and `top` lies `board_rows * change` above it. The coordinate table has `board_rows` rows of `board_cols` points, and the board spans the screen width. A zero divisor raises (`None`) |
| Interface.LayoutCentred | src/interface.py:99-109 | every entry of the coordinate table is the centre `(radius + col*change, top + radius + row*change)` |
| Interface.CentreStep | src/interface.py:99-109 | horizontally or vertically adjacent centres are exactly `change` pixels apart |
| Interface.DiscsInsideBoard | src/interface.py:93-109 | with a non-negative width, every orb's disc of radius `radius` lies inside the board rectangle |
| Interface.AfterNext | src/interface.py:154-156 | each move shifts the current cell by that direction's delta |
| Interface.PathToCoord | src/interface.py:134-163 | `_path_to_coord` fails exactly when the start is off the board, the path has at most one move, or some move leaves the board. Otherwise it returns `len(path)+1` points, where the k-th is the table entry of the cell reached after k moves |
| Interface.SwipeSteps | src/interface.py:99-162 | on a laid-out screen, consecutive swipe points are one orb pitch apart in the direction of the move |
| Dawnglare.Letter | misc/util.py:11-22 | exactly the letters L, B, G, R, D, H name orbs; every other character gives `None`; no letter names the erased sentinel |
| Dawnglare.Name | misc/util.py:11-18 | each of the six colours has a letter, and the erased sentinel has none |
| Dawnglare.LetterName | misc/util.py:11-18 | letter and colour determine each other |
| Dawnglare.Rows | misc/util.py:20-30 | there are `len(s) // 6` rows of 6 entries; row k translates characters 6k to 6k+5; a trailing partial row is not emitted |
| Dawnglare.StrToEnum | misc/util.py:8-30 | the loop emits exactly those rows |
| Dawnglare.EncodeRow | misc/util.py:11-18 | writing a row of colours as letters and translating it gives the row back |
| Dawnglare.EncodeRoundTrip | misc/util.py:11-30 | translating the string of a six-column board gives the board back |

## Left out

- src/detector.py, src/solver/detector.py: image classification with OpenCV,
  PIL images and reference files on disk, and floating-point distances.
- The device parts of src/interface.py:
  - the adb shell calls and the `dumpsys` parsing of `setup_device` (the
    resolution and bar heights are parameters of `Interface.Layout`);
  - `board_screencap`, which crops PIL images;
  - `input_swipes`, a uiautomator call.
- src/__main__.py: the command-line front end, prompts and timing.
- setup.py (packaging) and misc/parser.py (a script reading an event dump).
- `Board.__str__`, the `logging` call and the commented-out prints. The
  visited key is the `key` field of `Solver.Space`.
- `print(self.a)` and the `self.a` counter in `_erase_orbs`: debugging
  output that does not affect the result.
- `move_orb`, `get_board` and `max_combos` are called by the search but not
  defined in src/solver/board.py. They are the `move` and `bound` fields of
  `Solver.Space`.
- Solver.MinIndex: `heapq` breaks priority ties by `id()`, which is
  unspecified. The model takes the first entry instead.
- Solver.Truncate: modelled as repeatedly dropping a largest entry rather
  than as `nsmallest`'s sort. The kept entries are the same up to ties;
  their order is not modelled.
- Solver.SolveFrom: does not state that the returned count is the best
  reachable count, because the beam cut-back makes the search incomplete.
  Which boards were explored is bounded from above (only boards reachable
  within `max_path` steps) and, from below, only for the first moves from
  the start cell. Which deeper boards survive the cut-back depends on tie
  order and is not stated.
- Solver.SolveFrom and Solver.Solve take `max_path` as a natural number. A
  negative `max_path` would stop every path at once in the source; the
  model does not cover it.
- Solver.Solve: the source returns only `(path, start)`. The model also
  returns each start's count, path, board and the visited set after its
  search, so that its contract can name them.
- Erasure.EraseOrbs: requires a rectangular board (`Shaped`). In the source
  a row shorter than the first raises `IndexError`, and a longer row's
  extra cells are ignored. The docstring describes the board as a numpy
  array, which is always rectangular.
- Erasure.CalcCombos: requires a rectangular board, for the same reason.
- Interface.PathToCoord: the source's check that a direction has a value
  can never fail, since every `Directions` member has one, so it is not
  modelled.
- Test files call `_erase_orbs` with a third argument that the method does
  not take. The fixtures model the two-argument call.
- `str_to_enum` prints each row as text. The model returns the rows
  themselves.
