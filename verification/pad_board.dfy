/** The `Board` record of src/solver/board.py: the grid, its dimensions, the
    orb frequencies and the greedy combo estimate, all fixed at construction. */
module PadBoard {
  import opened Optional
  import opened PadTypes
  import opened Grids
  import opened Counts
  import opened Erasure

  datatype Board = Board(grid: Grid, rows: nat, cols: nat, counts: Tally, max: nat)

  /** The grid is a `rows` by `cols` rectangle. The constructor does not check
      this; the erasing code relies on it. */
  predicate Valid(b: Board)
  {
    Shaped(b.grid, b.rows, b.cols)
  }

  /** `Board(orbs)`. An empty list of rows has no `orbs[0]`, which raises in the
      source; that is the `None` case. */
  function NewBoard(orbs: Grid): (r: Option<Board>)
    ensures r.None? <==> orbs == []
    ensures r.Some? ==> r.value.grid == orbs && r.value.rows == |orbs| && r.value.cols == |orbs[0]|
    ensures r.Some? ==> DistinctKeys(r.value.counts)
    ensures r.Some? ==> Total(r.value.counts) == |Flatten(orbs)|
    ensures r.Some? ==> forall o :: Lookup(r.value.counts, o) == SeqCount(Flatten(orbs), o)
    ensures r.Some? ==> ComboLimit * r.value.max <= |Flatten(orbs)|
  {
    if orbs == [] then None
    else
      var counts := TallyOf(Flatten(orbs));
      Some(Board(orbs, |orbs|, |orbs[0]|, counts, |Greedy(counts, None)|))
  }

  /** The per-colour counts of a rectangular board add up to its number of cells. */
  lemma CountsCoverCells(orbs: Grid, rows: nat, cols: nat)
    requires Shaped(orbs, rows, cols) && rows > 0
    ensures NewBoard(orbs).Some? && Valid(NewBoard(orbs).value)
    ensures Total(NewBoard(orbs).value.counts) == rows * cols
  {
    FlattenLength(orbs, rows, cols);
  }

  /** Every estimated combo uses `ComboLimit` orbs, so the estimate is at most a
      third of the cells. */
  lemma MaxAtMostThird(orbs: Grid, rows: nat, cols: nat)
    requires Shaped(orbs, rows, cols) && rows > 0
    ensures ComboLimit * NewBoard(orbs).value.max <= rows * cols
  {
    FlattenLength(orbs, rows, cols);
  }

  /** The estimate is the length of a sequence of picks in which no colour
      follows itself, each spending `ComboLimit` orbs the board has. */
  lemma MaxIsPicks(orbs: Grid)
    requires orbs != []
    ensures var b := NewBoard(orbs).value;
      exists picks: seq<Orb> ::
        && |picks| == b.max
        && (forall i :: 0 <= i < |picks| - 1 ==> picks[i] != picks[i + 1])
        && (forall o :: ComboLimit * SeqCount(picks, o) <= SeqCount(Flatten(orbs), o))
  {
    var b := NewBoard(orbs).value;
    var picks := Greedy(b.counts, None);
    assert forall o :: ComboLimit * SeqCount(picks, o) <= SeqCount(Flatten(orbs), o);
  }

  /** With no colour reaching `ComboLimit` orbs the estimate is zero. */
  lemma MaxZero(orbs: Grid)
    requires orbs != []
    requires forall o :: SeqCount(Flatten(orbs), o) < ComboLimit
    ensures NewBoard(orbs).value.max == 0
  {
    NoEligibleColour(NewBoard(orbs).value.counts);
  }

  /** With exactly one colour reaching `ComboLimit` orbs the estimate is one. */
  lemma MaxOne(orbs: Grid, o: Orb)
    requires orbs != []
    requires SeqCount(Flatten(orbs), o) >= ComboLimit
    requires forall p :: p != o ==> SeqCount(Flatten(orbs), p) < ComboLimit
    ensures NewBoard(orbs).value.max == 1
  {
    OneEligibleColour(NewBoard(orbs).value.counts, o);
  }

  /** `b.calc_combos()`: the combo count, and the board it leaves behind. Only
      the grid changes; the counts and the estimate stay as built. */
  function CalcCombosOn(b: Board): (r: (nat, Board))
    requires Valid(b)
    ensures Valid(r.1)
    ensures r.1.rows == b.rows && r.1.cols == b.cols && r.1.counts == b.counts && r.1.max == b.max
    ensures Settled(r.1.grid, b.rows, b.cols, 0, 0)
    ensures r.0 == 0 ==> r.1 == b
  {
    var e := CalcCombos(b.grid, b.rows, b.cols);
    (e.changed, b.(grid := e.grid))
  }
}
