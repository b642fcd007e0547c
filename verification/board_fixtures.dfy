/** The boards of test/board_test.py and what `_erase_orbs` leaves of them. */
module BoardFixtures {
  import opened PadTypes
  import opened Grids
  import opened Erasure

  /** `board1_input`. */
  const Board1: Grid := [
    [Light, Blue,  Blue,  Blue,  Blue, Blue ],
    [Red,   Blue,  Blue,  Blue,  Green, Heart],
    [Red,   Blue,  Blue,  Blue,  Heart, Green],
    [Light, Heart, Light, Light, Dark,  Red  ],
    [Light, Light, Green, Red,   Red,   Blue ]]

  /** `board1_output`. */
  const Board1Output: Grid := [
    [Light, Cleared, Cleared, Cleared, Cleared, Cleared],
    [Red,   Cleared, Cleared, Cleared, Green,   Heart  ],
    [Red,   Cleared, Cleared, Cleared, Heart,   Green  ],
    [Light, Heart,   Light,   Light,   Dark,    Red    ],
    [Light, Light,   Green,   Red,     Red,     Blue   ]]

  /** `board2_input`: twenty-nine light orbs and one blue one in the corner. */
  const Board2: Grid := [
    [Light, Light, Light, Light, Light, Light],
    [Light, Light, Light, Light, Light, Light],
    [Light, Light, Light, Light, Light, Light],
    [Light, Light, Light, Light, Light, Light],
    [Light, Light, Light, Light, Light, Blue ]]

  /** `board2_output`. */
  const Board2Output: Grid := [
    [Cleared, Cleared, Cleared, Cleared, Cleared, Cleared],
    [Cleared, Cleared, Cleared, Cleared, Cleared, Cleared],
    [Cleared, Cleared, Cleared, Cleared, Cleared, Cleared],
    [Cleared, Cleared, Cleared, Cleared, Cleared, Cleared],
    [Cleared, Cleared, Cleared, Cleared, Cleared, Blue   ]]

  /** `board3_input`: a dark row between two light bands. */
  const Board3: Grid := [
    [Light, Light, Light, Light, Light, Light],
    [Light, Light, Light, Light, Light, Light],
    [Dark,  Dark,  Dark,  Dark,  Dark,  Dark ],
    [Light, Light, Light, Light, Light, Light],
    [Light, Light, Light, Light, Light, Blue ]]

  /** `board3_output`. */
  const Board3Output: Grid := [
    [Light,   Light,   Light,   Light,   Light,   Light  ],
    [Light,   Light,   Light,   Light,   Light,   Light  ],
    [Dark,    Dark,    Dark,    Dark,    Dark,    Dark   ],
    [Cleared, Cleared, Cleared, Cleared, Cleared, Cleared],
    [Cleared, Cleared, Cleared, Cleared, Cleared, Blue   ]]

  /** `test_erase_2`: from (0, 3), where no blue run starts, nothing is erased. */
  lemma EraseUnrelatedCell()
    ensures Shaped(Board1, 5, 6)
    ensures EraseOrbs(Board1, 5, 6, 0, 3, Blue) == Erased(Board1, 0)
  {
    assert ScanRight(Board1, 5, 6, 3, 0, Blue) == 0;
    assert ScanDown(Board1, 5, 6, 0, 3, Blue) == 3;
    EraseNoRun(Board1, 5, 6, 0, 3, Blue);
  }

  /** The cells of `board2_input`. */
  predicate AllButOneInput(g: Grid)
  {
    && Shaped(g, 5, 6)
    && forall r, c :: 0 <= r < 5 && 0 <= c < 6 ==>
         g[r][c] == (if r == 4 && c == 5 then Blue else Light)
  }

  /** The cells of `board2_output`. */
  predicate AllButOneOutput(g: Grid)
  {
    && Shaped(g, 5, 6)
    && forall r, c :: 0 <= r < 5 && 0 <= c < 6 ==>
         g[r][c] == (if r == 4 && c == 5 then Blue else Cleared)
  }

  lemma Board2Cells()
    ensures AllButOneInput(Board2) && AllButOneOutput(Board2Output)
  {
  }

  /** The `go_right` pass of `test_erase_3` clears row 0 ... */
  lemma AllButOneRow(g: Grid)
    requires AllButOneInput(g)
    ensures forall c :: 0 <= c < 6 ==> GoRight(g, 5, 6, 0, 0, Light).grid[0][c] == Cleared
  {
    ScanRightReaches(g, 5, 6, 0, 0, 6, Light);
    GoRightClearsRun(g, 5, 6, 0, 0, Light);
  }

  /** ... and the light run below every cell of row 0 but the first. */
  lemma AllButOneColumns(g: Grid)
    requires AllButOneInput(g)
    ensures forall c :: 0 < c < 6 ==>
      ColumnRunCleared(g, GoRight(g, 5, 6, 0, 0, Light).grid, 5, 6, c, 0, Light)
  {
    ScanRightReaches(g, 5, 6, 0, 0, 6, Light);
    GoRightClearsColumns(g, 5, 6, 0, 0, Light, GoRight(g, 5, 6, 0, 0, Light).grid);
  }

  /** Those light runs reach the bottom row, except in the last column where the
      blue orb ends the run. */
  lemma AllButOneColumnCells(g: Grid, h: Grid)
    requires AllButOneInput(g) && Shaped(h, 5, 6)
    requires forall c :: 0 < c < 6 ==> ColumnRunCleared(g, h, 5, 6, c, 0, Light)
    ensures forall r, c :: 0 <= r < 5 && 0 < c < 6 && !(r == 4 && c == 5) ==> h[r][c] == Cleared
  {
    forall r, c | 0 <= r < 5 && 0 < c < 6 && !(r == 4 && c == 5)
      ensures h[r][c] == Cleared
    {
      assert ColumnRunCleared(g, h, 5, 6, c, 0, Light);
      ScanDownReaches(g, 5, 6, c, 0, if c == 5 then 4 else 5, Light);
    }
  }

  /** Putting the passes of `test_erase_3` together. */
  lemma AllButOneCombine(g: Grid, right: Grid, h: Grid)
    requires AllButOneInput(g)
    requires Erases(g, right, 5, 6, Light, 0, 0) && Erases(right, h, 5, 6, Light, 0, 0)
    requires forall c :: 0 <= c < 6 ==> right[0][c] == Cleared
    requires forall r, c :: 0 <= r < 5 && 0 < c < 6 && !(r == 4 && c == 5) ==> right[r][c] == Cleared
    requires forall r :: 0 <= r < 5 ==> h[r][0] == Cleared
    ensures AllButOneOutput(h)
  {
  }

  /** `test_erase_3`: erasing light from (0, 0) clears every light orb and
      leaves the blue one. */
  lemma AllButOne(g: Grid)
    requires AllButOneInput(g)
    ensures AllButOneOutput(EraseOrbs(g, 5, 6, 0, 0, Light).grid)
  {
    var right := GoRight(g, 5, 6, 0, 0, Light).grid;
    AllButOneRow(g);
    AllButOneColumns(g);
    AllButOneColumnCells(g, right);
    AllButOneDown(right);
    AllButOneCombine(g, right, GoDown(right, 5, 6, 0, 0, Light).grid);
  }

  /** The `go_down` pass of `test_erase_3` clears column 0. */
  lemma AllButOneDown(g: Grid)
    requires Shaped(g, 5, 6) && forall r :: 0 <= r < 5 ==> Ok(g[r][0], Light)
    ensures forall r :: 0 <= r < 5 ==> GoDown(g, 5, 6, 0, 0, Light).grid[r][0] == Cleared
  {
    ScanDownReaches(g, 5, 6, 0, 0, 5, Light);
    GoDownClearsRun(g, 5, 6, 0, 0, Light);
  }

  /** `test_erase_3` with the expected board written out: whatever grid holds
      the cells of `board2_input` (and only `Board2` does) erases to
      `board2_output`. */
  lemma EraseAllButOne(g: Grid)
    requires AllButOneInput(g)
    ensures EraseOrbs(g, 5, 6, 0, 0, Light).grid == Board2Output
  {
    AllButOne(g);
    AllButOneOutputIsBoard2Output(EraseOrbs(g, 5, 6, 0, 0, Light).grid);
  }

  lemma AllButOneOutputIsBoard2Output(h: Grid)
    requires AllButOneOutput(h)
    ensures h == Board2Output
  {
    Board2Cells();
    GridsEqual(h, Board2Output, 5, 6);
  }

  /** `Board2` is the one grid with the cells of `board2_input`. */
  lemma AllButOneInputIsBoard2(g: Grid)
    ensures AllButOneInput(g) <==> g == Board2
  {
    Board2Cells();
    if AllButOneInput(g) {
      GridsEqual(g, Board2, 5, 6);
    }
  }

  /** The cells of `board3_input`. */
  predicate BandsInput(g: Grid)
  {
    && Shaped(g, 5, 6)
    && forall r, c :: 0 <= r < 5 && 0 <= c < 6 ==>
         g[r][c] == (if r == 2 then Dark else if r == 4 && c == 5 then Blue else Light)
  }

  /** The cells of `board3_output`. */
  predicate BandsOutput(g: Grid)
  {
    && Shaped(g, 5, 6)
    && forall r, c :: 0 <= r < 5 && 0 <= c < 6 ==>
         g[r][c] == (if r == 2 then Dark else if r < 2 then Light else if r == 4 && c == 5 then Blue else Cleared)
  }

  lemma Board3Cells()
    ensures BandsInput(Board3) && BandsOutput(Board3Output)
  {
  }

  /** The `go_right` pass of `test_erase_4` clears row 3. */
  lemma BandsRight(g: Grid)
    requires BandsInput(g)
    ensures forall c :: 0 <= c < 6 ==> GoRight(g, 5, 6, 0, 3, Light).grid[3][c] == Cleared
  {
    ScanRightReaches(g, 5, 6, 3, 0, 6, Light);
    GoRightClearsRun(g, 5, 6, 0, 3, Light);
  }

  /** The `go_down` pass of `test_erase_4`: the column below (0, 3) is two cells
      long, too short to clear, but its first cell is already cleared, so the
      loop goes on and goes right from (0, 4). */
  lemma BandsDown(g: Grid)
    requires Shaped(g, 5, 6) && g[3][0] == Cleared && Ok(g[4][0], Light)
    ensures GoDown(g, 5, 6, 0, 3, Light).grid == GoRight(g, 5, 6, 0, 4, Light).grid
  {
    ScanDownReaches(g, 5, 6, 0, 3, 5, Light);
    DownLoopUnfold(g, 5, 6, 0, 3, Light, 5, false, 3);
    BandsFirstStep(g);
    DownLoopUnfold(g, 5, 6, 0, 3, Light, 5, false, 4);
  }

  /** The first turn of that loop, at the cleared cell itself, changes nothing. */
  lemma BandsFirstStep(g: Grid)
    requires Shaped(g, 5, 6)
    ensures DownStep(g, 5, 6, 0, 3, Light, 5, false, 3).grid == g
  {
  }

  /** Going right from (0, 4) clears the run of five cells before the blue orb. */
  lemma BandsLast(g: Grid)
    requires Shaped(g, 5, 6) && forall c :: 0 <= c < 5 ==> Ok(g[4][c], Light)
    ensures forall c :: 0 <= c < 5 ==> GoRight(g, 5, 6, 0, 4, Light).grid[4][c] == Cleared
  {
    ScanRightReaches(g, 5, 6, 4, 0, 5, Light);
    GoRightClearsRun(g, 5, 6, 0, 4, Light);
  }

  /** `test_erase_4`: erasing light from (0, 3) clears the bottom two rows but
      the blue orb, and leaves the rows above intact. */
  lemma Bands(g: Grid)
    requires BandsInput(g)
    ensures BandsOutput(EraseOrbs(g, 5, 6, 0, 3, Light).grid)
  {
    var right := GoRight(g, 5, 6, 0, 3, Light).grid;
    BandsRight(g);
    BandsDown(right);
    BandsLast(right);
  }

  /** `test_erase_4` with the expected board written out. */
  lemma EraseBands(g: Grid)
    requires BandsInput(g)
    ensures EraseOrbs(g, 5, 6, 0, 3, Light).grid == Board3Output
  {
    Bands(g);
    BandsOutputIsBoard3Output(EraseOrbs(g, 5, 6, 0, 3, Light).grid);
  }

  lemma BandsOutputIsBoard3Output(h: Grid)
    requires BandsOutput(h)
    ensures h == Board3Output
  {
    Board3Cells();
    GridsEqual(h, Board3Output, 5, 6);
  }

  /** `Board3` is the one grid with the cells of `board3_input`. */
  lemma BandsInputIsBoard3(g: Grid)
    ensures BandsInput(g) <==> g == Board3
  {
    Board3Cells();
    if BandsInput(g) {
      GridsEqual(g, Board3, 5, 6);
    }
  }

  /** The cells of `board1_input`. */
  predicate BlockInput(g: Grid)
  {
    && Shaped(g, 5, 6) && Shaped(Board1, 5, 6)
    && forall r, c :: 0 <= r < 5 && 0 <= c < 6 ==> g[r][c] == Board1[r][c]
  }

  /** `board1_output` is `board1_input` with every blue orb cleared but the one
      in the bottom-right corner. */
  lemma Board1Cells()
    ensures Shaped(Board1, 5, 6) && Shaped(Board1Output, 5, 6)
    ensures forall r, c :: 0 <= r < 5 && 0 <= c < 6 ==>
      Board1Output[r][c] == (if Board1[r][c] == Blue && !(r == 4 && c == 5) then Cleared else Board1[r][c])
  {
  }

  /** The `go_right` pass of `test_erase_1` clears the blue run along row 0 ... */
  lemma BlockRow(g: Grid)
    requires BlockInput(g)
    ensures forall c :: 1 <= c < 6 ==> GoRight(g, 5, 6, 1, 0, Blue).grid[0][c] == Cleared
  {
    ScanRightReaches(g, 5, 6, 0, 1, 6, Blue);
    GoRightClearsRun(g, 5, 6, 1, 0, Blue);
  }

  /** ... and the column runs hanging below it. */
  lemma BlockColumns(g: Grid)
    requires BlockInput(g)
    ensures forall c :: 1 < c < 6 ==>
      ColumnRunCleared(g, GoRight(g, 5, 6, 1, 0, Blue).grid, 5, 6, c, 0, Blue)
  {
    ScanRightReaches(g, 5, 6, 0, 1, 6, Blue);
    GoRightClearsColumns(g, 5, 6, 1, 0, Blue, GoRight(g, 5, 6, 1, 0, Blue).grid);
  }

  /** Below columns 2 and 3 the blue runs are three orbs long. */
  lemma BlockColumnCells(g: Grid, h: Grid)
    requires BlockInput(g) && Shaped(h, 5, 6)
    requires forall c :: 1 < c < 6 ==> ColumnRunCleared(g, h, 5, 6, c, 0, Blue)
    ensures forall r, c :: 0 <= r < 3 && 2 <= c < 4 ==> h[r][c] == Cleared
  {
    forall r, c | 0 <= r < 3 && 2 <= c < 4
      ensures h[r][c] == Cleared
    {
      assert ColumnRunCleared(g, h, 5, 6, c, 0, Blue);
      ScanDownReaches(g, 5, 6, c, 0, 3, Blue);
    }
  }

  /** The `go_down` pass from (1, 0) clears column 1 down to row 2. */
  lemma BlockDown(g: Grid)
    requires Shaped(g, 5, 6) && forall r :: 0 <= r < 3 ==> Ok(g[r][1], Blue)
    ensures forall r :: 0 <= r < 3 ==> GoDown(g, 5, 6, 1, 0, Blue).grid[r][1] == Cleared
  {
    ScanDownReaches(g, 5, 6, 1, 0, 3, Blue);
    GoDownClearsRun(g, 5, 6, 1, 0, Blue);
  }

  /** The blue orbs of `board1_input`: the block along the top, and one in the
      bottom-right corner. */
  predicate BlueSpot(r: int, c: int)
  {
    (r == 0 && 1 <= c < 6) || (1 <= r < 3 && 1 <= c < 4) || (r == 4 && c == 5)
  }

  lemma BlockBlue(g: Grid)
    requires BlockInput(g)
    ensures forall r, c :: 0 <= r < 5 && 0 <= c < 6 ==> (g[r][c] == Blue <==> BlueSpot(r, c))
  {
  }

  /** The blue orb in the corner lies in no blue run. */
  lemma CornerInNoRun(g: Grid)
    requires BlockInput(g)
    ensures !InRun(g, 5, 6, 4, 5, Blue)
  {
    assert !Ok(g[4][3], Blue) && !Ok(g[2][5], Blue);
  }

  /** So no sound erasure touches it. */
  lemma BlockCorner(g: Grid)
    requires BlockInput(g)
    ensures EraseOrbs(g, 5, 6, 1, 0, Blue).grid[4][5] == Blue
  {
    EraseOrbsSound(g, 5, 6, 1, 0, Blue);
    CornerInNoRun(g);
  }

  /** Putting the passes together: every blue orb but the corner one is
      cleared, and nothing else changes. */
  lemma BlockCombine(g: Grid, right: Grid, h: Grid)
    requires Shaped(g, 5, 6)
    requires forall r, c :: 0 <= r < 5 && 0 <= c < 6 ==> (g[r][c] == Blue <==> BlueSpot(r, c))
    requires Erases(g, right, 5, 6, Blue, 1, 0) && Erases(right, h, 5, 6, Blue, 1, 0)
    requires forall c :: 1 <= c < 6 ==> right[0][c] == Cleared
    requires forall r, c :: 0 <= r < 3 && 2 <= c < 4 ==> right[r][c] == Cleared
    requires forall r :: 0 <= r < 3 ==> h[r][1] == Cleared
    requires h[4][5] == Blue
    ensures forall r, c :: 0 <= r < 5 && 0 <= c < 6 ==>
      h[r][c] == (if g[r][c] == Blue && !(r == 4 && c == 5) then Cleared else g[r][c])
  {
  }

  /** `test_erase_1`: erasing blue from (1, 0) clears the blue block along the
      top and leaves every other orb. */
  lemma Block(g: Grid)
    requires BlockInput(g)
    ensures forall r, c :: 0 <= r < 5 && 0 <= c < 6 ==>
      EraseOrbs(g, 5, 6, 1, 0, Blue).grid[r][c]
        == (if g[r][c] == Blue && !(r == 4 && c == 5) then Cleared else g[r][c])
  {
    var right := GoRight(g, 5, 6, 1, 0, Blue).grid;
    BlockRow(g);
    BlockColumns(g);
    BlockColumnCells(g, right);
    var h := GoDown(right, 5, 6, 1, 0, Blue).grid;
    BlockDown(right);
    BlockCorner(g);
    BlockBlue(g);
    BlockCombine(g, right, h);
  }

  /** `test_erase_1` with the expected board written out. */
  lemma EraseBlock(g: Grid)
    requires BlockInput(g)
    ensures EraseOrbs(g, 5, 6, 1, 0, Blue).grid == Board1Output
  {
    Block(g);
    Board1Cells();
    GridsEqual(EraseOrbs(g, 5, 6, 1, 0, Blue).grid, Board1Output, 5, 6);
  }

  /** `Board1` is the one grid with the cells of `board1_input`. */
  lemma BlockInputIsBoard1(g: Grid)
    ensures BlockInput(g) <==> g == Board1
  {
    Board1Cells();
    if BlockInput(g) {
      GridsEqual(g, Board1, 5, 6);
    }
  }
}
