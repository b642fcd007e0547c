/** Orb kinds, drag directions and board coordinates (src/solver/pad_types.py). */
module PadTypes {
  import opened Optional

  /** The six orb colours plus the sentinel for an erased cell. */
  datatype Orb = Light | Dark | Green | Red | Blue | Heart | Cleared

  /** The integer value each enum member carries. */
  function OrbValue(o: Orb): (v: nat)
    ensures v <= 6
    ensures v == 6 <==> o == Cleared
  {
    match o
    case Light => 0
    case Dark => 1
    case Green => 2
    case Red => 3
    case Blue => 4
    case Heart => 5
    case Cleared => 6
  }

  /** Enum lookup by value, `Orbs(v)`; values outside the enum have no member. */
  function OrbFromValue(v: int): (r: Option<Orb>)
    ensures r.Some? <==> 0 <= v <= 6
    ensures r.Some? ==> OrbValue(r.value) == v
  {
    if v == 0 then Some(Light)
    else if v == 1 then Some(Dark)
    else if v == 2 then Some(Green)
    else if v == 3 then Some(Red)
    else if v == 4 then Some(Blue)
    else if v == 5 then Some(Heart)
    else if v == 6 then Some(Cleared)
    else None
  }

  /** The enum is `@unique`: every member is recovered from its value, so the
      seven values are pairwise distinct. */
  lemma OrbValueRoundTrip(o: Orb)
    ensures OrbFromValue(OrbValue(o)) == Some(o)
  {
  }

  lemma OrbValuesDistinct(a: Orb, b: Orb)
    ensures a != b ==> OrbValue(a) != OrbValue(b)
  {
    OrbValueRoundTrip(a);
    OrbValueRoundTrip(b);
  }

  datatype Direction = Left | Up | Right | Down

  /** Iteration order of the `Directions` enum. */
  const AllDirections: seq<Direction> := [Left, Up, Right, Down]

  /** Column delta of a direction. */
  function Dx(d: Direction): int
  {
    match d
    case Left => -1
    case Up => 0
    case Right => 1
    case Down => 0
  }

  /** Row delta of a direction (rows grow downwards). */
  function Dy(d: Direction): int
  {
    match d
    case Left => 0
    case Up => -1
    case Right => 0
    case Down => 1
  }

  /** Every direction moves exactly one cell along exactly one axis. */
  lemma DirectionIsUnit(d: Direction)
    ensures (Dx(d) == 0) != (Dy(d) == 0)
    ensures Dx(d) * Dx(d) + Dy(d) * Dy(d) == 1
  {
  }

  /** LEFT undoes RIGHT and UP undoes DOWN. */
  lemma DirectionOpposites()
    ensures Dx(Left) == -Dx(Right) && Dy(Left) == -Dy(Right)
    ensures Dx(Up) == -Dx(Down) && Dy(Up) == -Dy(Down)
  {
  }

  /** Distinct directions have distinct deltas, and the iteration order lists each once. */
  lemma DirectionsDistinct(a: Direction, b: Direction)
    ensures a != b ==> (Dx(a), Dy(a)) != (Dx(b), Dy(b))
    ensures |AllDirections| == 4 && a in AllDirections
    ensures forall i, j :: 0 <= i < j < |AllDirections| ==> AllDirections[i] != AllDirections[j]
  {
  }

  /** A board position: `x` is the column, `y` the row. */
  datatype Coord = Coord(x: int, y: int)

  function Step(c: Coord, d: Direction): Coord
  {
    Coord(c.x + Dx(d), c.y + Dy(d))
  }

  /** Where a dragged orb ends up after following `p` from `c`. */
  function Travel(c: Coord, p: seq<Direction>): Coord
  {
    if p == [] then c else Step(Travel(c, p[..|p| - 1]), p[|p| - 1])
  }

  function SumDx(p: seq<Direction>): int
  {
    if p == [] then 0 else Dx(p[0]) + SumDx(p[1..])
  }

  function SumDy(p: seq<Direction>): int
  {
    if p == [] then 0 else Dy(p[0]) + SumDy(p[1..])
  }

  lemma {:induction false} SumSnoc(p: seq<Direction>, d: Direction)
    ensures SumDx(p + [d]) == SumDx(p) + Dx(d)
    ensures SumDy(p + [d]) == SumDy(p) + Dy(d)
  {
    if p != [] {
      assert (p + [d])[1..] == p[1..] + [d];
      SumSnoc(p[1..], d);
    }
  }

  /** Following a path moves by the sum of its direction deltas. */
  lemma {:induction false} TravelIsDisplacement(c: Coord, p: seq<Direction>)
    ensures Travel(c, p) == Coord(c.x + SumDx(p), c.y + SumDy(p))
  {
    if p != [] {
      var q := p[..|p| - 1];
      assert p == q + [p[|p| - 1]];
      TravelIsDisplacement(c, q);
      SumSnoc(q, p[|p| - 1]);
    }
  }

  /** Travel can also be unfolded from the front. */
  lemma TravelFront(c: Coord, d: Direction, p: seq<Direction>)
    ensures Travel(c, [d] + p) == Travel(Step(c, d), p)
  {
    TravelIsDisplacement(c, [d] + p);
    TravelIsDisplacement(Step(c, d), p);
    assert ([d] + p)[1..] == p;
  }
}
