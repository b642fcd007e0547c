/** Erasing runs of orbs (src/solver/board.py, `_erase_orbs` and `calc_combos`).
    The source mutates the board in place; here every step takes a grid and
    returns the grid it leaves behind, in the order the source performs them. */
module Erasure {
  import opened PadTypes
  import opened Grids
  import opened Counts

  /** The scanners extend a run through cells of the target colour and through
      cells that are already cleared. */
  predicate Ok(o: Orb, color: Orb)
  {
    o == color || o == Cleared
  }

  /** A grid after an erasing step, with the number of cells the step cleared. */
  datatype Erased = Erased(grid: Grid, changed: nat)

  /** First column at or after `i` in row `y` that stops a run (or `cols`). */
  function ScanRight(g: Grid, rows: nat, cols: nat, y: nat, i: nat, color: Orb): (b: nat)
    requires Shaped(g, rows, cols) && y < rows && i <= cols
    ensures i <= b <= cols
    ensures forall j :: i <= j < b ==> Ok(g[y][j], color)
    ensures b < cols ==> !Ok(g[y][b], color)
    decreases cols - i
  {
    if i == cols || !Ok(g[y][i], color) then i else ScanRight(g, rows, cols, y, i + 1, color)
  }

  /** First row at or after `j` in column `x` that stops a run (or `rows`). */
  function ScanDown(g: Grid, rows: nat, cols: nat, x: nat, j: nat, color: Orb): (b: nat)
    requires Shaped(g, rows, cols) && x < cols && j <= rows
    ensures j <= b <= rows
    ensures forall k :: j <= k < b ==> Ok(g[k][x], color)
    ensures b < rows ==> !Ok(g[b][x], color)
    decreases rows - j
  {
    if j == rows || !Ok(g[j][x], color) then j else ScanDown(g, rows, cols, x, j + 1, color)
  }

  /** `ComboLimit` consecutive cells of row `r` from column `s` are all `Ok`. */
  ghost predicate RowRun(g: Grid, rows: nat, cols: nat, r: int, s: int, color: Orb)
    requires Shaped(g, rows, cols) && 0 <= r < rows
  {
    0 <= s && s + ComboLimit <= cols && forall k :: s <= k < s + ComboLimit ==> Ok(g[r][k], color)
  }

  /** `ComboLimit` consecutive cells of column `c` from row `s` are all `Ok`. */
  ghost predicate ColumnRun(g: Grid, rows: nat, cols: nat, s: int, c: int, color: Orb)
    requires Shaped(g, rows, cols) && 0 <= c < cols
  {
    0 <= s && s + ComboLimit <= rows && forall k :: s <= k < s + ComboLimit ==> Ok(g[k][c], color)
  }

  /** Cell (`c`, `r`) lies in a horizontal or vertical run of at least
      `ComboLimit` cells, each of colour `color` or already cleared. */
  ghost predicate InRun(g: Grid, rows: nat, cols: nat, r: int, c: int, color: Orb)
    requires Shaped(g, rows, cols) && 0 <= r < rows && 0 <= c < cols
  {
    || (exists s :: s <= c < s + ComboLimit && RowRun(g, rows, cols, r, s, color))
    || (exists s :: s <= r < s + ComboLimit && ColumnRun(g, rows, cols, s, c, color))
  }

  /** `h` arises from `g` by clearing orbs of colour `color`, none above row `y`
      or left of column `x`. Every other cell, cleared cells included, is left
      as it was. */
  predicate Erases(g: Grid, h: Grid, rows: nat, cols: nat, color: Orb, x: nat, y: nat)
    requires Shaped(g, rows, cols)
  {
    && Shaped(h, rows, cols)
    && forall r, c :: 0 <= r < rows && 0 <= c < cols ==>
         h[r][c] == g[r][c] || (y <= r && x <= c && g[r][c] == color && h[r][c] == Cleared)
  }

  /** Every cell at which `h` differs from `g` lies in a run of `g`. */
  ghost predicate InRuns(g: Grid, h: Grid, rows: nat, cols: nat, color: Orb)
    requires Shaped(g, rows, cols) && Shaped(h, rows, cols)
  {
    forall r, c :: 0 <= r < rows && 0 <= c < cols && h[r][c] != g[r][c] ==> InRun(g, rows, cols, r, c, color)
  }

  /** Clearing never changes which cells the scanners may run through, so runs
      are the same before and after. */
  lemma RunsStable(g: Grid, h: Grid, rows: nat, cols: nat, color: Orb)
    requires Shaped(g, rows, cols) && Shaped(h, rows, cols)
    requires forall r, c :: 0 <= r < rows && 0 <= c < cols ==> Ok(h[r][c], color) == Ok(g[r][c], color)
    ensures forall r, c :: 0 <= r < rows && 0 <= c < cols ==>
      InRun(h, rows, cols, r, c, color) == InRun(g, rows, cols, r, c, color)
  {
    forall r, s | 0 <= r < rows
      ensures RowRun(h, rows, cols, r, s, color) == RowRun(g, rows, cols, r, s, color)
    {
    }
    forall s, c | 0 <= c < cols
      ensures ColumnRun(h, rows, cols, s, c, color) == ColumnRun(g, rows, cols, s, c, color)
    {
    }
  }

  lemma ComposeClears(g: Grid, h1: Grid, h2: Grid, rows: nat, cols: nat, color: Orb,
                      x: nat, y: nat, x2: nat, y2: nat)
    requires Shaped(g, rows, cols)
    requires Erases(g, h1, rows, cols, color, x, y)
    requires Erases(h1, h2, rows, cols, color, x2, y2)
    requires x <= x2 && y <= y2
    ensures Erases(g, h2, rows, cols, color, x, y)
  {
  }

  /** Runs of the first step and runs of the second step are runs of the
      original grid. */
  lemma ComposeRuns(g: Grid, h1: Grid, h2: Grid, rows: nat, cols: nat, color: Orb, x: nat, y: nat)
    requires Shaped(g, rows, cols) && Erases(g, h1, rows, cols, color, x, y) && Shaped(h2, rows, cols)
    requires InRuns(g, h1, rows, cols, color) && InRuns(h1, h2, rows, cols, color)
    ensures InRuns(g, h2, rows, cols, color)
  {
    RunsStable(g, h1, rows, cols, color);
  }

  /** Scans see the same run boundaries before and after a clearing step. */
  lemma ScansStable(g: Grid, h: Grid, rows: nat, cols: nat, color: Orb, x: nat, y: nat)
    requires Shaped(g, rows, cols) && Erases(g, h, rows, cols, color, x, y)
    ensures forall r, i :: 0 <= r < rows && 0 <= i <= cols ==>
      ScanRight(h, rows, cols, r, i, color) == ScanRight(g, rows, cols, r, i, color)
    ensures forall c, j :: 0 <= c < cols && 0 <= j <= rows ==>
      ScanDown(h, rows, cols, c, j, color) == ScanDown(g, rows, cols, c, j, color)
  {
    forall r, i | 0 <= r < rows && 0 <= i <= cols
      ensures ScanRight(h, rows, cols, r, i, color) == ScanRight(g, rows, cols, r, i, color)
    {
      ScanRightStable(g, h, rows, cols, color, x, y, r, i);
    }
    forall c, j | 0 <= c < cols && 0 <= j <= rows
      ensures ScanDown(h, rows, cols, c, j, color) == ScanDown(g, rows, cols, c, j, color)
    {
      ScanDownStable(g, h, rows, cols, color, x, y, c, j);
    }
  }

  lemma ScanRightStable(g: Grid, h: Grid, rows: nat, cols: nat, color: Orb, x: nat, y: nat, r: nat, i: nat)
    requires Shaped(g, rows, cols) && Erases(g, h, rows, cols, color, x, y)
    requires r < rows && i <= cols
    ensures ScanRight(h, rows, cols, r, i, color) == ScanRight(g, rows, cols, r, i, color)
    decreases cols - i
  {
    if i < cols {
      assert Ok(h[r][i], color) == Ok(g[r][i], color);
      ScanRightStable(g, h, rows, cols, color, x, y, r, i + 1);
    }
  }

  lemma ScanDownStable(g: Grid, h: Grid, rows: nat, cols: nat, color: Orb, x: nat, y: nat, c: nat, j: nat)
    requires Shaped(g, rows, cols) && Erases(g, h, rows, cols, color, x, y)
    requires c < cols && j <= rows
    ensures ScanDown(h, rows, cols, c, j, color) == ScanDown(g, rows, cols, c, j, color)
    decreases rows - j
  {
    if j < rows {
      assert Ok(h[j][c], color) == Ok(g[j][c], color);
      ScanDownStable(g, h, rows, cols, color, x, y, c, j + 1);
    }
  }

  /** Clearing cell (`i`, `y`) of a clearable row run. */
  lemma ClearInRow(g: Grid, rows: nat, cols: nat, x: nat, y: nat, color: Orb, rightB: nat, i: nat)
    requires Shaped(g, rows, cols) && y < rows && x <= i < rightB <= cols
    requires rightB - x >= ComboLimit && forall j :: x <= j < rightB ==> Ok(g[y][j], color)
    ensures Erases(g, SetCell(g, y, i, Cleared), rows, cols, color, x, y)
    ensures GridCount(SetCell(g, y, i, Cleared), Cleared)
         == GridCount(g, Cleared) + (if g[y][i] != Cleared then 1 else 0)
  {
    SetCellCount(g, y, i, Cleared, Cleared);
  }

  /** Every cell of a row run of at least `ComboLimit` cells lies in a run. */
  lemma ClearInRowInRun(g: Grid, rows: nat, cols: nat, x: nat, y: nat, color: Orb, rightB: nat, i: nat)
    requires Shaped(g, rows, cols) && y < rows && x <= i < rightB <= cols
    requires rightB - x >= ComboLimit && forall j :: x <= j < rightB ==> Ok(g[y][j], color)
    ensures InRuns(g, SetCell(g, y, i, Cleared), rows, cols, color)
  {
    var s := if i + ComboLimit <= rightB then i else rightB - ComboLimit;
    assert RowRun(g, rows, cols, y, s, color);
  }

  /** Clearing cell (`x`, `j`) of a clearable column run. */
  lemma ClearInColumn(g: Grid, rows: nat, cols: nat, x: nat, y: nat, color: Orb, downB: nat, j: nat)
    requires Shaped(g, rows, cols) && x < cols && y <= j < downB <= rows
    requires downB - y >= ComboLimit && forall k :: y <= k < downB ==> Ok(g[k][x], color)
    ensures Erases(g, SetCell(g, j, x, Cleared), rows, cols, color, x, y)
    ensures GridCount(SetCell(g, j, x, Cleared), Cleared)
         == GridCount(g, Cleared) + (if g[j][x] != Cleared then 1 else 0)
  {
    SetCellCount(g, j, x, Cleared, Cleared);
  }

  /** Every cell of a column run of at least `ComboLimit` cells lies in a run. */
  lemma ClearInColumnInRun(g: Grid, rows: nat, cols: nat, x: nat, y: nat, color: Orb, downB: nat, j: nat)
    requires Shaped(g, rows, cols) && x < cols && y <= j < downB <= rows
    requires downB - y >= ComboLimit && forall k :: y <= k < downB ==> Ok(g[k][x], color)
    ensures InRuns(g, SetCell(g, j, x, Cleared), rows, cols, color)
  {
    var s := if j + ComboLimit <= downB then j else downB - ComboLimit;
    assert ColumnRun(g, rows, cols, s, x, color);
  }

  /** `go_right`: scan the run to the right of (`x`, `y`), then walk it. */
  function GoRight(g: Grid, rows: nat, cols: nat, x: nat, y: nat, color: Orb): (r: Erased)
    requires Shaped(g, rows, cols) && x < cols && y < rows
    ensures Erases(g, r.grid, rows, cols, color, x, y)
    ensures r.changed + GridCount(g, Cleared) == GridCount(r.grid, Cleared)
    decreases (cols - x) + (rows - y), 2, 0
  {
    var rightB := ScanRight(g, rows, cols, y, x, color);
    RightLoop(g, rows, cols, x, y, color, rightB, rightB - x >= ComboLimit, x)
  }

  /** The `for i in range(x, right_b)` loop of `go_right`, from column `i` on.
      A run too short to clear is walked only when its first cell is already
      cleared. */
  function RightLoop(g: Grid, rows: nat, cols: nat, x: nat, y: nat, color: Orb,
                     rightB: nat, clearable: bool, i: nat): (r: Erased)
    requires Shaped(g, rows, cols) && x < cols && y < rows && x <= i <= rightB <= cols
    requires clearable ==> rightB - x >= ComboLimit && forall j :: x <= j < rightB ==> Ok(g[y][j], color)
    ensures Erases(g, r.grid, rows, cols, color, x, y)
    ensures r.changed + GridCount(g, Cleared) == GridCount(r.grid, Cleared)
    decreases (cols - x) + (rows - y), 1, rightB - i + 1
  {
    if i == rightB then Erased(g, 0)
    else if !clearable && i == x && g[y][i] != Cleared then Erased(g, 0)
    else
      var step := RightStep(g, rows, cols, x, y, color, rightB, clearable, i);
      var rest := RightLoop(step.grid, rows, cols, x, y, color, rightB, clearable, i + 1);
      ComposeClears(g, step.grid, rest.grid, rows, cols, color, x, y, x, y);
      Erased(rest.grid, step.changed + rest.changed)
  }

  /** The body of the `go_right` loop at column `i`: clear the cell when the
      run is clearable, then go down from it unless it is the first cell. */
  function RightStep(g: Grid, rows: nat, cols: nat, x: nat, y: nat, color: Orb,
                     rightB: nat, clearable: bool, i: nat): (r: Erased)
    requires Shaped(g, rows, cols) && x < cols && y < rows && x <= i < rightB <= cols
    requires clearable ==> rightB - x >= ComboLimit && forall j :: x <= j < rightB ==> Ok(g[y][j], color)
    ensures Erases(g, r.grid, rows, cols, color, x, y)
    ensures r.changed + GridCount(g, Cleared) == GridCount(r.grid, Cleared)
    decreases (cols - x) + (rows - y), 1, rightB - i
  {
    var cleared := if clearable then SetCell(g, y, i, Cleared) else g;
    var n := if clearable && g[y][i] != Cleared then 1 else 0;
    assert Erases(g, cleared, rows, cols, color, x, y)
        && GridCount(cleared, Cleared) == GridCount(g, Cleared) + n by {
      if clearable {
        ClearInRow(g, rows, cols, x, y, color, rightB, i);
      }
    }
    var down := if i != x then GoDown(cleared, rows, cols, i, y, color) else Erased(cleared, 0);
    ComposeClears(g, cleared, down.grid, rows, cols, color, x, y, i, y);
    Erased(down.grid, n + down.changed)
  }

  /** `go_down`: the mirror image of `go_right`, scanning column `x` downwards. */
  function GoDown(g: Grid, rows: nat, cols: nat, x: nat, y: nat, color: Orb): (r: Erased)
    requires Shaped(g, rows, cols) && x < cols && y < rows
    ensures Erases(g, r.grid, rows, cols, color, x, y)
    ensures r.changed + GridCount(g, Cleared) == GridCount(r.grid, Cleared)
    decreases (cols - x) + (rows - y), 2, 0
  {
    var downB := ScanDown(g, rows, cols, x, y, color);
    DownLoop(g, rows, cols, x, y, color, downB, downB - y >= ComboLimit, y)
  }

  /** The `for i in range(y, down_b)` loop of `go_down`, from row `j` on. */
  function DownLoop(g: Grid, rows: nat, cols: nat, x: nat, y: nat, color: Orb,
                    downB: nat, clearable: bool, j: nat): (r: Erased)
    requires Shaped(g, rows, cols) && x < cols && y < rows && y <= j <= downB <= rows
    requires clearable ==> downB - y >= ComboLimit && forall k :: y <= k < downB ==> Ok(g[k][x], color)
    ensures Erases(g, r.grid, rows, cols, color, x, y)
    ensures r.changed + GridCount(g, Cleared) == GridCount(r.grid, Cleared)
    decreases (cols - x) + (rows - y), 1, downB - j + 1
  {
    if j == downB then Erased(g, 0)
    else if !clearable && j == y && g[j][x] != Cleared then Erased(g, 0)
    else
      var step := DownStep(g, rows, cols, x, y, color, downB, clearable, j);
      var rest := DownLoop(step.grid, rows, cols, x, y, color, downB, clearable, j + 1);
      ComposeClears(g, step.grid, rest.grid, rows, cols, color, x, y, x, y);
      Erased(rest.grid, step.changed + rest.changed)
  }

  /** The body of the `go_down` loop at row `j`: clear the cell when the run is
      clearable, then go right from it unless it is the first cell. */
  function DownStep(g: Grid, rows: nat, cols: nat, x: nat, y: nat, color: Orb,
                    downB: nat, clearable: bool, j: nat): (r: Erased)
    requires Shaped(g, rows, cols) && x < cols && y < rows && y <= j < downB <= rows
    requires clearable ==> downB - y >= ComboLimit && forall k :: y <= k < downB ==> Ok(g[k][x], color)
    ensures Erases(g, r.grid, rows, cols, color, x, y)
    ensures r.changed + GridCount(g, Cleared) == GridCount(r.grid, Cleared)
    decreases (cols - x) + (rows - y), 1, downB - j
  {
    var cleared := if clearable then SetCell(g, j, x, Cleared) else g;
    var n := if clearable && g[j][x] != Cleared then 1 else 0;
    assert Erases(g, cleared, rows, cols, color, x, y)
        && GridCount(cleared, Cleared) == GridCount(g, Cleared) + n by {
      if clearable {
        ClearInColumn(g, rows, cols, x, y, color, downB, j);
      }
    }
    var across := if j != y then GoRight(cleared, rows, cols, x, j, color) else Erased(cleared, 0);
    ComposeClears(g, cleared, across.grid, rows, cols, color, x, y, x, j);
    Erased(across.grid, n + across.changed)
  }

  /** One turn of the `go_right` loop. */
  lemma RightLoopUnfold(g: Grid, rows: nat, cols: nat, x: nat, y: nat, color: Orb,
                        rightB: nat, clearable: bool, i: nat)
    requires Shaped(g, rows, cols) && x < cols && y < rows && x <= i < rightB <= cols
    requires clearable ==> rightB - x >= ComboLimit && forall j :: x <= j < rightB ==> Ok(g[y][j], color)
    requires clearable || i != x || g[y][i] == Cleared
    ensures RightLoop(g, rows, cols, x, y, color, rightB, clearable, i).grid
         == RightLoop(RightStep(g, rows, cols, x, y, color, rightB, clearable, i).grid,
                      rows, cols, x, y, color, rightB, clearable, i + 1).grid
  {
  }

  /** One turn of the `go_down` loop. */
  lemma DownLoopUnfold(g: Grid, rows: nat, cols: nat, x: nat, y: nat, color: Orb,
                       downB: nat, clearable: bool, j: nat)
    requires Shaped(g, rows, cols) && x < cols && y < rows && y <= j < downB <= rows
    requires clearable ==> downB - y >= ComboLimit && forall k :: y <= k < downB ==> Ok(g[k][x], color)
    requires clearable || j != y || g[j][x] == Cleared
    ensures DownLoop(g, rows, cols, x, y, color, downB, clearable, j).grid
         == DownLoop(DownStep(g, rows, cols, x, y, color, downB, clearable, j).grid,
                     rows, cols, x, y, color, downB, clearable, j + 1).grid
  {
  }

  /** Soundness of `go_right`: every cell it clears lies in a run of at least
      `ComboLimit` cells of `color` (cleared cells counting as any colour). */
  lemma GoRightSound(g: Grid, rows: nat, cols: nat, x: nat, y: nat, color: Orb)
    requires Shaped(g, rows, cols) && x < cols && y < rows
    ensures InRuns(g, GoRight(g, rows, cols, x, y, color).grid, rows, cols, color)
    decreases (cols - x) + (rows - y), 2, 0
  {
    var rightB := ScanRight(g, rows, cols, y, x, color);
    RightLoopSound(g, rows, cols, x, y, color, rightB, rightB - x >= ComboLimit, x);
  }

  lemma RightLoopSound(g: Grid, rows: nat, cols: nat, x: nat, y: nat, color: Orb,
                       rightB: nat, clearable: bool, i: nat)
    requires Shaped(g, rows, cols) && x < cols && y < rows && x <= i <= rightB <= cols
    requires clearable ==> rightB - x >= ComboLimit && forall j :: x <= j < rightB ==> Ok(g[y][j], color)
    ensures InRuns(g, RightLoop(g, rows, cols, x, y, color, rightB, clearable, i).grid, rows, cols, color)
    decreases (cols - x) + (rows - y), 1, rightB - i + 1
  {
    if i < rightB && (clearable || i != x || g[y][i] == Cleared) {
      RightLoopUnfold(g, rows, cols, x, y, color, rightB, clearable, i);
      var step := RightStep(g, rows, cols, x, y, color, rightB, clearable, i).grid;
      RightStepSound(g, rows, cols, x, y, color, rightB, clearable, i);
      RightLoopSound(step, rows, cols, x, y, color, rightB, clearable, i + 1);
      ComposeRuns(g, step, RightLoop(step, rows, cols, x, y, color, rightB, clearable, i + 1).grid,
                  rows, cols, color, x, y);
    }
  }

  lemma RightStepSound(g: Grid, rows: nat, cols: nat, x: nat, y: nat, color: Orb,
                       rightB: nat, clearable: bool, i: nat)
    requires Shaped(g, rows, cols) && x < cols && y < rows && x <= i < rightB <= cols
    requires clearable ==> rightB - x >= ComboLimit && forall j :: x <= j < rightB ==> Ok(g[y][j], color)
    ensures InRuns(g, RightStep(g, rows, cols, x, y, color, rightB, clearable, i).grid, rows, cols, color)
    decreases (cols - x) + (rows - y), 1, rightB - i
  {
    var cleared := if clearable then SetCell(g, y, i, Cleared) else g;
    if clearable {
      ClearInRow(g, rows, cols, x, y, color, rightB, i);
      ClearInRowInRun(g, rows, cols, x, y, color, rightB, i);
    }
    if i != x {
      GoDownSound(cleared, rows, cols, i, y, color);
      ComposeRuns(g, cleared, GoDown(cleared, rows, cols, i, y, color).grid, rows, cols, color, x, y);
    }
  }

  /** Soundness of `go_down`, the mirror image of `GoRightSound`. */
  lemma GoDownSound(g: Grid, rows: nat, cols: nat, x: nat, y: nat, color: Orb)
    requires Shaped(g, rows, cols) && x < cols && y < rows
    ensures InRuns(g, GoDown(g, rows, cols, x, y, color).grid, rows, cols, color)
    decreases (cols - x) + (rows - y), 2, 0
  {
    var downB := ScanDown(g, rows, cols, x, y, color);
    DownLoopSound(g, rows, cols, x, y, color, downB, downB - y >= ComboLimit, y);
  }

  lemma DownLoopSound(g: Grid, rows: nat, cols: nat, x: nat, y: nat, color: Orb,
                      downB: nat, clearable: bool, j: nat)
    requires Shaped(g, rows, cols) && x < cols && y < rows && y <= j <= downB <= rows
    requires clearable ==> downB - y >= ComboLimit && forall k :: y <= k < downB ==> Ok(g[k][x], color)
    ensures InRuns(g, DownLoop(g, rows, cols, x, y, color, downB, clearable, j).grid, rows, cols, color)
    decreases (cols - x) + (rows - y), 1, downB - j + 1
  {
    if j < downB && (clearable || j != y || g[j][x] == Cleared) {
      DownLoopUnfold(g, rows, cols, x, y, color, downB, clearable, j);
      var step := DownStep(g, rows, cols, x, y, color, downB, clearable, j).grid;
      DownStepSound(g, rows, cols, x, y, color, downB, clearable, j);
      DownLoopSound(step, rows, cols, x, y, color, downB, clearable, j + 1);
      ComposeRuns(g, step, DownLoop(step, rows, cols, x, y, color, downB, clearable, j + 1).grid,
                  rows, cols, color, x, y);
    }
  }

  lemma DownStepSound(g: Grid, rows: nat, cols: nat, x: nat, y: nat, color: Orb,
                      downB: nat, clearable: bool, j: nat)
    requires Shaped(g, rows, cols) && x < cols && y < rows && y <= j < downB <= rows
    requires clearable ==> downB - y >= ComboLimit && forall k :: y <= k < downB ==> Ok(g[k][x], color)
    ensures InRuns(g, DownStep(g, rows, cols, x, y, color, downB, clearable, j).grid, rows, cols, color)
    decreases (cols - x) + (rows - y), 1, downB - j
  {
    var cleared := if clearable then SetCell(g, j, x, Cleared) else g;
    if clearable {
      ClearInColumn(g, rows, cols, x, y, color, downB, j);
      ClearInColumnInRun(g, rows, cols, x, y, color, downB, j);
    }
    if j != y {
      GoRightSound(cleared, rows, cols, x, j, color);
      ComposeRuns(g, cleared, GoRight(cleared, rows, cols, x, j, color).grid, rows, cols, color, x, y);
    }
  }

  /** Under `Erases`, the cells that changed are exactly the cells that
      became `Cleared`. */
  lemma ClearsCount(g: Grid, h: Grid, rows: nat, cols: nat, color: Orb, x: nat, y: nat)
    requires Shaped(g, rows, cols) && Erases(g, h, rows, cols, color, x, y)
    ensures Diff(g, h) + GridCount(g, Cleared) == GridCount(h, Cleared)
  {
    forall i, j | 0 <= i < |g| && 0 <= j < |g[i]|
      ensures Turned(g[i][j], h[i][j], color)
    {
    }
    DiffIsNewlyCleared(g, h, color);
  }

  /** `_erase_orbs`: go right from `(x, y)`, then go down from it on the board
      the first pass left behind. The count is the number of cells that
      changed, every one of them an orb of `color`. */
  function EraseOrbs(g: Grid, rows: nat, cols: nat, x: nat, y: nat, color: Orb): (r: Erased)
    requires Shaped(g, rows, cols) && x < cols && y < rows
    ensures Erases(g, r.grid, rows, cols, color, x, y)
    ensures r.changed == Diff(g, r.grid)
    ensures r.changed + GridCount(g, Cleared) == GridCount(r.grid, Cleared)
    ensures r.changed == 0 <==> r.grid == g
  {
    var right := GoRight(g, rows, cols, x, y, color);
    var down := GoDown(right.grid, rows, cols, x, y, color);
    ComposeClears(g, right.grid, down.grid, rows, cols, color, x, y, x, y);
    ClearsCount(g, down.grid, rows, cols, color, x, y);
    DiffZero(g, down.grid);
    Erased(down.grid, right.changed + down.changed)
  }

  /** Soundness of `_erase_orbs`: every orb it clears lies in a run of `color`. */
  lemma EraseOrbsSound(g: Grid, rows: nat, cols: nat, x: nat, y: nat, color: Orb)
    requires Shaped(g, rows, cols) && x < cols && y < rows
    ensures InRuns(g, EraseOrbs(g, rows, cols, x, y, color).grid, rows, cols, color)
  {
    var right := GoRight(g, rows, cols, x, y, color);
    GoRightSound(g, rows, cols, x, y, color);
    GoDownSound(right.grid, rows, cols, x, y, color);
    ComposeRuns(g, right.grid, GoDown(right.grid, rows, cols, x, y, color).grid, rows, cols, color, x, y);
  }

  /** On a clearable row run, the loop body leaves its own cell cleared. */
  lemma RightStepClears(g: Grid, rows: nat, cols: nat, x: nat, y: nat, color: Orb, rightB: nat, i: nat)
    requires Shaped(g, rows, cols) && x < cols && y < rows && x <= i < rightB <= cols
    requires rightB - x >= ComboLimit && forall j :: x <= j < rightB ==> Ok(g[y][j], color)
    ensures RightStep(g, rows, cols, x, y, color, rightB, true, i).grid[y][i] == Cleared
  {
    ClearInRow(g, rows, cols, x, y, color, rightB, i);
  }

  /** On a clearable column run, the loop body leaves its own cell cleared. */
  lemma DownStepClears(g: Grid, rows: nat, cols: nat, x: nat, y: nat, color: Orb, downB: nat, j: nat)
    requires Shaped(g, rows, cols) && x < cols && y < rows && y <= j < downB <= rows
    requires downB - y >= ComboLimit && forall k :: y <= k < downB ==> Ok(g[k][x], color)
    ensures DownStep(g, rows, cols, x, y, color, downB, true, j).grid[j][x] == Cleared
  {
    ClearInColumn(g, rows, cols, x, y, color, downB, j);
  }

  /** A clearable row run is cleared in full from column `i` on. */
  lemma {:induction false} RightLoopClearsRun(g: Grid, rows: nat, cols: nat, x: nat, y: nat, color: Orb,
                                              rightB: nat, i: nat)
    requires Shaped(g, rows, cols) && x < cols && y < rows && x <= i <= rightB <= cols
    requires rightB - x >= ComboLimit && forall j :: x <= j < rightB ==> Ok(g[y][j], color)
    ensures forall j :: i <= j < rightB ==>
      RightLoop(g, rows, cols, x, y, color, rightB, true, i).grid[y][j] == Cleared
    decreases rightB - i
  {
    if i < rightB {
      RightLoopUnfold(g, rows, cols, x, y, color, rightB, true, i);
      var step := RightStep(g, rows, cols, x, y, color, rightB, true, i).grid;
      RightStepClears(g, rows, cols, x, y, color, rightB, i);
      RightLoopClearsRun(step, rows, cols, x, y, color, rightB, i + 1);
    }
  }

  /** A clearable column run is cleared in full from row `j` on. */
  lemma {:induction false} DownLoopClearsRun(g: Grid, rows: nat, cols: nat, x: nat, y: nat, color: Orb,
                                             downB: nat, j: nat)
    requires Shaped(g, rows, cols) && x < cols && y < rows && y <= j <= downB <= rows
    requires downB - y >= ComboLimit && forall k :: y <= k < downB ==> Ok(g[k][x], color)
    ensures forall k :: j <= k < downB ==>
      DownLoop(g, rows, cols, x, y, color, downB, true, j).grid[k][x] == Cleared
    decreases downB - j
  {
    if j < downB {
      DownLoopUnfold(g, rows, cols, x, y, color, downB, true, j);
      var step := DownStep(g, rows, cols, x, y, color, downB, true, j).grid;
      DownStepClears(g, rows, cols, x, y, color, downB, j);
      DownLoopClearsRun(step, rows, cols, x, y, color, downB, j + 1);
    }
  }

  /** `go_right` clears the whole run it finds when it has at least
      `ComboLimit` cells. */
  lemma GoRightClearsRun(g: Grid, rows: nat, cols: nat, x: nat, y: nat, color: Orb)
    requires Shaped(g, rows, cols) && x < cols && y < rows
    requires ScanRight(g, rows, cols, y, x, color) - x >= ComboLimit
    ensures forall j :: x <= j < ScanRight(g, rows, cols, y, x, color) ==>
      GoRight(g, rows, cols, x, y, color).grid[y][j] == Cleared
  {
    RightLoopClearsRun(g, rows, cols, x, y, color, ScanRight(g, rows, cols, y, x, color), x);
  }

  /** `go_down` clears the whole run it finds when it has at least
      `ComboLimit` cells. */
  lemma GoDownClearsRun(g: Grid, rows: nat, cols: nat, x: nat, y: nat, color: Orb)
    requires Shaped(g, rows, cols) && x < cols && y < rows
    requires ScanDown(g, rows, cols, x, y, color) - y >= ComboLimit
    ensures forall k :: y <= k < ScanDown(g, rows, cols, x, y, color) ==>
      GoDown(g, rows, cols, x, y, color).grid[k][x] == Cleared
  {
    DownLoopClearsRun(g, rows, cols, x, y, color, ScanDown(g, rows, cols, x, y, color), y);
  }

  /** When column `c` holds a run of at least `ComboLimit` cells downwards from
      row `y` in `g`, every cell of that run is `Cleared` in `h`. */
  ghost predicate ColumnRunCleared(g: Grid, h: Grid, rows: nat, cols: nat, c: nat, y: nat, color: Orb)
    requires Shaped(g, rows, cols) && Shaped(h, rows, cols) && c < cols && y <= rows
  {
    var b := ScanDown(g, rows, cols, c, y, color);
    b - y >= ComboLimit ==> forall k :: y <= k < b ==> h[k][c] == Cleared
  }

  /** Along a clearable row run, `go_right` also goes down from every cell after
      the first, so each column run hanging below the row is cleared as well
      in the grid `h` the loop leaves behind. */
  lemma {:induction false} RightLoopClearsColumns(g: Grid, rows: nat, cols: nat, x: nat, y: nat, color: Orb,
                                                  rightB: nat, i: nat, h: Grid)
    requires Shaped(g, rows, cols) && x < cols && y < rows && x <= i <= rightB <= cols
    requires rightB - x >= ComboLimit && forall j :: x <= j < rightB ==> Ok(g[y][j], color)
    requires h == RightLoop(g, rows, cols, x, y, color, rightB, true, i).grid
    ensures forall c :: x < c && i <= c < rightB ==> ColumnRunCleared(g, h, rows, cols, c, y, color)
    decreases rightB - i
  {
    if i < rightB {
      RightLoopUnfold(g, rows, cols, x, y, color, rightB, true, i);
      var step := RightStep(g, rows, cols, x, y, color, rightB, true, i).grid;
      RightLoopClearsColumns(step, rows, cols, x, y, color, rightB, i + 1, h);
      if x < i {
        RightStepClearsColumn(g, rows, cols, x, y, color, rightB, i);
      }
      ColumnsStep(g, step, h, rows, cols, x, y, color, rightB, i);
    }
  }

  /** `go_right` along a run of at least `ComboLimit` cells also clears every
      column run hanging below the run, except below its first cell. */
  lemma GoRightClearsColumns(g: Grid, rows: nat, cols: nat, x: nat, y: nat, color: Orb, h: Grid)
    requires Shaped(g, rows, cols) && x < cols && y < rows
    requires ScanRight(g, rows, cols, y, x, color) - x >= ComboLimit
    requires h == GoRight(g, rows, cols, x, y, color).grid
    ensures forall c :: x < c < ScanRight(g, rows, cols, y, x, color) ==>
      ColumnRunCleared(g, h, rows, cols, c, y, color)
  {
    RightLoopClearsColumns(g, rows, cols, x, y, color, ScanRight(g, rows, cols, y, x, color), x, h);
  }

  /** Combining one column cleared by the loop body with the columns the rest
      of the loop clears. */
  lemma ColumnsStep(g: Grid, step: Grid, rest: Grid, rows: nat, cols: nat, x: nat, y: nat, color: Orb,
                    rightB: nat, i: nat)
    requires Shaped(g, rows, cols) && y < rows && x <= i < rightB <= cols
    requires Erases(g, step, rows, cols, color, x, y) && Erases(step, rest, rows, cols, color, x, y)
    requires x < i ==> ColumnRunCleared(g, step, rows, cols, i, y, color)
    requires forall c :: x < c && i + 1 <= c < rightB ==> ColumnRunCleared(step, rest, rows, cols, c, y, color)
    ensures forall c :: x < c && i <= c < rightB ==> ColumnRunCleared(g, rest, rows, cols, c, y, color)
  {
    forall c | x < c && i <= c < rightB
      ensures ColumnRunCleared(g, rest, rows, cols, c, y, color)
    {
      if c != i {
        ScanDownStable(g, step, rows, cols, color, x, y, c, y);
        assert ColumnRunCleared(step, rest, rows, cols, c, y, color);
      }
    }
  }

  /** The loop body at a later cell of a clearable row run goes down from it,
      clearing the column run below. */
  lemma RightStepClearsColumn(g: Grid, rows: nat, cols: nat, x: nat, y: nat, color: Orb, rightB: nat, i: nat)
    requires Shaped(g, rows, cols) && x < i < rightB <= cols && y < rows
    requires rightB - x >= ComboLimit && forall j :: x <= j < rightB ==> Ok(g[y][j], color)
    ensures ColumnRunCleared(g, RightStep(g, rows, cols, x, y, color, rightB, true, i).grid, rows, cols, i, y, color)
  {
    var cleared := SetCell(g, y, i, Cleared);
    ClearInRow(g, rows, cols, x, y, color, rightB, i);
    ScanDownStable(g, cleared, rows, cols, color, x, y, i, y);
    if ScanDown(g, rows, cols, i, y, color) - y >= ComboLimit {
      GoDownClearsRun(cleared, rows, cols, i, y, color);
    }
  }

  /** With no run of `ComboLimit` cells across or down from a cell that is not
      yet cleared, `_erase_orbs` changes nothing and reports zero. */
  lemma EraseNoRun(g: Grid, rows: nat, cols: nat, x: nat, y: nat, color: Orb)
    requires Shaped(g, rows, cols) && x < cols && y < rows && g[y][x] != Cleared
    requires ScanRight(g, rows, cols, y, x, color) - x < ComboLimit
    requires ScanDown(g, rows, cols, x, y, color) - y < ComboLimit
    ensures EraseOrbs(g, rows, cols, x, y, color) == Erased(g, 0)
  {
    assert GoRight(g, rows, cols, x, y, color) == Erased(g, 0);
    assert GoDown(g, rows, cols, x, y, color) == Erased(g, 0);
  }

  /** From an orb of `color` that starts a run of `ComboLimit` cells across or
      down, `_erase_orbs` clears that orb and reports a positive count. */
  lemma EraseFindsRun(g: Grid, rows: nat, cols: nat, x: nat, y: nat, color: Orb)
    requires Shaped(g, rows, cols) && x < cols && y < rows && g[y][x] == color && color != Cleared
    requires || ScanRight(g, rows, cols, y, x, color) - x >= ComboLimit
             || ScanDown(g, rows, cols, x, y, color) - y >= ComboLimit
    ensures EraseOrbs(g, rows, cols, x, y, color).grid[y][x] == Cleared
    ensures EraseOrbs(g, rows, cols, x, y, color).changed > 0
  {
    var right := GoRight(g, rows, cols, x, y, color);
    if ScanRight(g, rows, cols, y, x, color) - x >= ComboLimit {
      GoRightClearsRun(g, rows, cols, x, y, color);
    } else {
      ScansStable(g, right.grid, rows, cols, color, x, y);
      GoDownClearsRun(right.grid, rows, cols, x, y, color);
    }
    var r := EraseOrbs(g, rows, cols, x, y, color);
    assert r.grid[y][x] != g[y][x];
  }

  /** `ComboLimit` cells of one colour, not yet cleared, across from (`c`, `r`). */
  predicate SameRowRun(g: Grid, rows: nat, cols: nat, r: nat, c: nat)
    requires Shaped(g, rows, cols) && r < rows && c < cols
  {
    c + ComboLimit <= cols && g[r][c] != Cleared && forall k :: c <= k < c + ComboLimit ==> g[r][k] == g[r][c]
  }

  /** `ComboLimit` cells of one colour, not yet cleared, down from (`c`, `r`). */
  predicate SameColumnRun(g: Grid, rows: nat, cols: nat, r: nat, c: nat)
    requires Shaped(g, rows, cols) && r < rows && c < cols
  {
    r + ComboLimit <= rows && g[r][c] != Cleared && forall k :: r <= k < r + ComboLimit ==> g[k][c] == g[r][c]
  }

  /** No same-coloured run starts at or after (`x`, `y`) in row-major order. */
  ghost predicate Settled(g: Grid, rows: nat, cols: nat, y: nat, x: nat)
    requires Shaped(g, rows, cols)
  {
    forall r, c :: 0 <= r < rows && 0 <= c < cols && !Before(r, c, y, x) ==>
      !SameRowRun(g, rows, cols, r, c) && !SameColumnRun(g, rows, cols, r, c)
  }

  /** `h` arises from `g` by clearing orbs at or after (`x`, `y`) in row-major
      order; everything before that position is untouched. */
  ghost predicate ErasesFrom(g: Grid, h: Grid, rows: nat, cols: nat, y: nat, x: nat)
    requires Shaped(g, rows, cols)
  {
    && Shaped(h, rows, cols)
    && forall r, c :: 0 <= r < rows && 0 <= c < cols ==>
         h[r][c] == g[r][c] || (!Before(r, c, y, x) && g[r][c] != Cleared && h[r][c] == Cleared)
  }

  /** The board contains no cleared cell. */
  predicate Clean(g: Grid)
  {
    forall r, c :: 0 <= r < |g| && 0 <= c < |g[r]| ==> g[r][c] != Cleared
  }

  /** Clearing cannot create a same-coloured run. */
  lemma RunsOnlyShrink(g: Grid, h: Grid, rows: nat, cols: nat, y: nat, x: nat, r: nat, c: nat)
    requires Shaped(g, rows, cols) && ErasesFrom(g, h, rows, cols, y, x) && r < rows && c < cols
    ensures SameRowRun(h, rows, cols, r, c) ==> SameRowRun(g, rows, cols, r, c)
    ensures SameColumnRun(h, rows, cols, r, c) ==> SameColumnRun(g, rows, cols, r, c)
  {
  }

  /** Every cell from `i` up to `e` lets the scan through, so it reaches `e`. */
  lemma {:induction false} ScanRightReaches(g: Grid, rows: nat, cols: nat, y: nat, i: nat, e: nat, color: Orb)
    requires Shaped(g, rows, cols) && y < rows && i <= e <= cols
    requires forall k :: i <= k < e ==> Ok(g[y][k], color)
    ensures ScanRight(g, rows, cols, y, i, color) >= e
    decreases e - i
  {
    if i < e {
      ScanRightReaches(g, rows, cols, y, i + 1, e, color);
    }
  }

  lemma {:induction false} ScanDownReaches(g: Grid, rows: nat, cols: nat, x: nat, j: nat, e: nat, color: Orb)
    requires Shaped(g, rows, cols) && x < cols && j <= e <= rows
    requires forall k :: j <= k < e ==> Ok(g[k][x], color)
    ensures ScanDown(g, rows, cols, x, j, color) >= e
    decreases e - j
  {
    if j < e {
      ScanDownReaches(g, rows, cols, x, j + 1, e, color);
    }
  }

  /** The `calc_combos` double loop, resumed at column `x` of row `y`: from every
      orb that is not yet cleared, erase its colour and count a combo when
      something changed. Each combo clears at least one cell, and a pass that
      finds none leaves the board as it was. */
  function CalcFrom(g: Grid, rows: nat, cols: nat, y: nat, x: nat): (r: Erased)
    requires Shaped(g, rows, cols) && y <= rows && x <= cols
    ensures Shaped(r.grid, rows, cols)
    ensures r.changed + GridCount(g, Cleared) <= GridCount(r.grid, Cleared)
    ensures r.changed == 0 ==> r.grid == g
    decreases rows - y, cols - x, 1
  {
    if y == rows then Erased(g, 0)
    else if x == cols then CalcFrom(g, rows, cols, y + 1, 0)
    else if g[y][x] == Cleared then CalcFrom(g, rows, cols, y, x + 1)
    else Visit(g, rows, cols, y, x)
  }

  /** The loop body at an orb: erase from it, count one combo if anything was
      cleared, and carry on with the next cell. */
  function Visit(g: Grid, rows: nat, cols: nat, y: nat, x: nat): (r: Erased)
    requires Shaped(g, rows, cols) && y < rows && x < cols
    ensures Shaped(r.grid, rows, cols)
    ensures r.changed + GridCount(g, Cleared) <= GridCount(r.grid, Cleared)
    ensures r.changed == 0 ==> r.grid == g
    decreases rows - y, cols - x, 0
  {
    var e := EraseOrbs(g, rows, cols, x, y, g[y][x]);
    var rest := CalcFrom(e.grid, rows, cols, y, x + 1);
    Erased(rest.grid, rest.changed + (if e.changed > 0 then 1 else 0))
  }

  /** The double loop only clears orbs it has reached, and leaves no
      same-coloured run starting at any cell it visited. */
  lemma {:induction false} CalcFromSettles(g: Grid, rows: nat, cols: nat, y: nat, x: nat, h: Grid)
    requires Shaped(g, rows, cols) && y <= rows && x <= cols
    requires h == CalcFrom(g, rows, cols, y, x).grid
    ensures ErasesFrom(g, h, rows, cols, y, x)
    ensures Settled(h, rows, cols, y, x)
    decreases rows - y, cols - x, 1
  {
    if y == rows {
    } else if x == cols {
      CalcFromWraps(g, rows, cols, y);
      CalcFromSettles(g, rows, cols, y + 1, 0, h);
      RowWrap(g, h, rows, cols, y);
    } else if g[y][x] == Cleared {
      CalcFromSkips(g, rows, cols, y, x);
      CalcFromSettles(g, rows, cols, y, x + 1, h);
      SkipCleared(g, h, rows, cols, y, x);
    } else {
      assert CalcFrom(g, rows, cols, y, x) == Visit(g, rows, cols, y, x);
      VisitSettles(g, rows, cols, y, x, h);
    }
  }

  /** The same two facts for the loop body at an orb. */
  lemma {:induction false} VisitSettles(g: Grid, rows: nat, cols: nat, y: nat, x: nat, h: Grid)
    requires Shaped(g, rows, cols) && y < rows && x < cols && g[y][x] != Cleared
    requires h == Visit(g, rows, cols, y, x).grid
    ensures ErasesFrom(g, h, rows, cols, y, x)
    ensures Settled(h, rows, cols, y, x)
    decreases rows - y, cols - x, 0
  {
    var mid := EraseOrbs(g, rows, cols, x, y, g[y][x]).grid;
    CalcFromSettles(mid, rows, cols, y, x + 1, h);
    CalcStep(g, mid, h, rows, cols, y, x);
  }

  /** The end of a row moves on to the start of the next one. */
  lemma CalcFromWraps(g: Grid, rows: nat, cols: nat, y: nat)
    requires Shaped(g, rows, cols) && y < rows
    ensures CalcFrom(g, rows, cols, y, cols) == CalcFrom(g, rows, cols, y + 1, 0)
  {
  }

  /** A cleared cell is passed over. */
  lemma CalcFromSkips(g: Grid, rows: nat, cols: nat, y: nat, x: nat)
    requires Shaped(g, rows, cols) && y < rows && x < cols && g[y][x] == Cleared
    ensures CalcFrom(g, rows, cols, y, x) == CalcFrom(g, rows, cols, y, x + 1)
  {
  }

  /** An orb is erased, and the loop carries on over the grid that leaves. */
  lemma CalcFromErases(g: Grid, rows: nat, cols: nat, y: nat, x: nat)
    requires Shaped(g, rows, cols) && y < rows && x < cols && g[y][x] != Cleared
    ensures CalcFrom(g, rows, cols, y, x).grid
         == CalcFrom(EraseOrbs(g, rows, cols, x, y, g[y][x]).grid, rows, cols, y, x + 1).grid
  {
    assert CalcFrom(g, rows, cols, y, x) == Visit(g, rows, cols, y, x);
  }

  /** Moving from the end of row `y` to the start of the next row visits nothing. */
  lemma RowWrap(g: Grid, h: Grid, rows: nat, cols: nat, y: nat)
    requires Shaped(g, rows, cols) && y < rows
    requires ErasesFrom(g, h, rows, cols, y + 1, 0) && Settled(h, rows, cols, y + 1, 0)
    ensures ErasesFrom(g, h, rows, cols, y, cols) && Settled(h, rows, cols, y, cols)
  {
  }

  /** A cell that is already cleared starts no run, so skipping it keeps both facts. */
  lemma SkipCleared(g: Grid, h: Grid, rows: nat, cols: nat, y: nat, x: nat)
    requires Shaped(g, rows, cols) && y < rows && x < cols && g[y][x] == Cleared
    requires ErasesFrom(g, h, rows, cols, y, x + 1) && Settled(h, rows, cols, y, x + 1)
    ensures ErasesFrom(g, h, rows, cols, y, x) && Settled(h, rows, cols, y, x)
  {
    assert h[y][x] == Cleared;
  }

  /** One erasing step of the double loop keeps the frame and leaves no run
      starting at the visited cell. */
  lemma CalcStep(g: Grid, mid: Grid, h: Grid, rows: nat, cols: nat, y: nat, x: nat)
    requires Shaped(g, rows, cols) && y < rows && x < cols && g[y][x] != Cleared
    requires mid == EraseOrbs(g, rows, cols, x, y, g[y][x]).grid
    requires ErasesFrom(mid, h, rows, cols, y, x + 1)
    requires Settled(h, rows, cols, y, x + 1)
    ensures ErasesFrom(g, h, rows, cols, y, x)
    ensures Settled(h, rows, cols, y, x)
  {
    var color := g[y][x];
    assert ErasesFrom(g, mid, rows, cols, y, x);
    RunsOnlyShrink(g, h, rows, cols, y, x, y, x);
    if SameRowRun(g, rows, cols, y, x) {
      ScanRightReaches(g, rows, cols, y, x, x + ComboLimit, color);
      EraseFindsRun(g, rows, cols, x, y, color);
    } else if SameColumnRun(g, rows, cols, y, x) {
      ScanDownReaches(g, rows, cols, x, y, y + ComboLimit, color);
      EraseFindsRun(g, rows, cols, x, y, color);
    }
  }

  /** `calc_combos`: the number of combos on the board, with the board it
      leaves behind (the source clears the combos it counts in place). */
  function CalcCombos(g: Grid, rows: nat, cols: nat): (r: Erased)
    requires Shaped(g, rows, cols)
    ensures ErasesFrom(g, r.grid, rows, cols, 0, 0)
    ensures r.changed + GridCount(g, Cleared) <= GridCount(r.grid, Cleared)
    ensures Settled(r.grid, rows, cols, 0, 0)
    ensures r.changed == 0 ==> r.grid == g && Settled(g, rows, cols, 0, 0)
  {
    CalcFromSettles(g, rows, cols, 0, 0, CalcFrom(g, rows, cols, 0, 0).grid);
    CalcFrom(g, rows, cols, 0, 0)
  }

  /** On a board with no cleared cell, a scan that finds a run of `ComboLimit`
      cells found a same-coloured run. */
  lemma CleanScanIsRun(g: Grid, rows: nat, cols: nat, y: nat, x: nat)
    requires Shaped(g, rows, cols) && Clean(g) && y < rows && x < cols
    ensures ScanRight(g, rows, cols, y, x, g[y][x]) - x >= ComboLimit ==> SameRowRun(g, rows, cols, y, x)
    ensures ScanDown(g, rows, cols, x, y, g[y][x]) - y >= ComboLimit ==> SameColumnRun(g, rows, cols, y, x)
  {
  }

  /** Visiting cell (`c`, `y`) leaves the double loop's outcome unchanged. */
  ghost predicate SkipsAt(g: Grid, rows: nat, cols: nat, y: nat, c: nat)
    requires Shaped(g, rows, cols) && y < rows && c < cols
  {
    CalcFrom(g, rows, cols, y, c) == CalcFrom(g, rows, cols, y, c + 1)
  }

  /** Every visit in row `r` is skipped. */
  ghost predicate RowSkipped(g: Grid, rows: nat, cols: nat, r: nat)
    requires Shaped(g, rows, cols) && r < rows
  {
    forall c :: 0 <= c < cols ==> SkipsAt(g, rows, cols, r, c)
  }

  /** On a board with no cleared cell and no same-coloured run from the start
      of row `y` on, the rest of the double loop finds no combo and changes
      nothing. */
  lemma SettledScoresZero(g: Grid, rows: nat, cols: nat, y: nat)
    requires Shaped(g, rows, cols) && y <= rows
    requires Clean(g) && Settled(g, rows, cols, y, 0)
    ensures CalcFrom(g, rows, cols, y, 0) == Erased(g, 0)
  {
    forall r | y <= r < rows
      ensures RowSkipped(g, rows, cols, r)
    {
      SettledRowSkips(g, rows, cols, r);
    }
    SkippedScoresZero(g, rows, cols, y);
  }

  /** When every visit from row `y` on is skipped, the double loop returns the
      board unchanged with no combo. */
  lemma {:induction false} SkippedScoresZero(g: Grid, rows: nat, cols: nat, y: nat)
    requires Shaped(g, rows, cols) && y <= rows
    requires forall r :: y <= r < rows ==> RowSkipped(g, rows, cols, r)
    ensures CalcFrom(g, rows, cols, y, 0) == Erased(g, 0)
    decreases rows - y
  {
    if y < rows {
      assert RowSkipped(g, rows, cols, y);
      RowSkips(g, rows, cols, y, 0);
      CalcFromWraps(g, rows, cols, y);
      SkippedScoresZero(g, rows, cols, y + 1);
    }
  }

  /** When every visit in row `y` from column `x` on is skipped, the loop goes
      straight to the end of the row. */
  lemma {:induction false} RowSkips(g: Grid, rows: nat, cols: nat, y: nat, x: nat)
    requires Shaped(g, rows, cols) && y < rows && x <= cols
    requires forall c :: x <= c < cols ==> SkipsAt(g, rows, cols, y, c)
    ensures CalcFrom(g, rows, cols, y, x) == CalcFrom(g, rows, cols, y, cols)
    decreases cols - x
  {
    if x < cols {
      assert SkipsAt(g, rows, cols, y, x);
      RowSkips(g, rows, cols, y, x + 1);
    }
  }

  /** On a clean board settled from row `y` on, every visit in row `y` is skipped. */
  lemma SettledRowSkips(g: Grid, rows: nat, cols: nat, y: nat)
    requires Shaped(g, rows, cols) && y < rows
    requires Clean(g) && Settled(g, rows, cols, y, 0)
    ensures forall c :: 0 <= c < cols ==> SkipsAt(g, rows, cols, y, c)
  {
    forall c | 0 <= c < cols
      ensures SkipsAt(g, rows, cols, y, c)
    {
      SettledSkips(g, rows, cols, y, c);
    }
  }

  /** On a clean board with no same-coloured run at (`x`, `y`), visiting it is
      skipped. */
  lemma SettledSkips(g: Grid, rows: nat, cols: nat, y: nat, x: nat)
    requires Shaped(g, rows, cols) && y < rows && x < cols && Clean(g)
    requires !SameRowRun(g, rows, cols, y, x) && !SameColumnRun(g, rows, cols, y, x)
    ensures SkipsAt(g, rows, cols, y, x)
  {
    CleanScanIsRun(g, rows, cols, y, x);
    EraseNoRun(g, rows, cols, x, y, g[y][x]);
    CalcFromErases(g, rows, cols, y, x);
  }

  /** On a board with no cleared cell, `calc_combos` reports zero exactly when
      no same-coloured run of `ComboLimit` orbs is on the board. */
  lemma CombosZeroIffSettled(g: Grid, rows: nat, cols: nat)
    requires Shaped(g, rows, cols) && Clean(g)
    ensures CalcCombos(g, rows, cols).changed == 0 <==> Settled(g, rows, cols, 0, 0)
  {
    if Settled(g, rows, cols, 0, 0) {
      SettledScoresZero(g, rows, cols, 0);
    }
  }
}
