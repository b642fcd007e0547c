/** Orb frequencies and the greedy "maximum combos" estimate computed when a
    board is built (src/solver/board.py, `Board.__init__`). */
module Counts {
  import opened Optional
  import opened PadTypes
  import opened Grids

  /** A run must be at least this long to clear, and the estimate spends this
      many orbs per combo. */
  const ComboLimit: nat := 3

  datatype OrbCount = OrbCount(orb: Orb, n: nat)

  /** A frequency dictionary, kept in insertion order: the greedy estimate picks
      the first eligible key, so the order is observable. */
  type Tally = seq<OrbCount>

  function KeySet(t: Tally): set<Orb>
  {
    if t == [] then {} else {t[0].orb} + KeySet(t[1..])
  }

  /** Dictionary keys are unique. */
  predicate DistinctKeys(t: Tally)
  {
    t == [] || (t[0].orb !in KeySet(t[1..]) && DistinctKeys(t[1..]))
  }

  /** `counts.get(o, 0)`. */
  function Lookup(t: Tally, o: Orb): nat
  {
    if t == [] then 0 else if t[0].orb == o then t[0].n else Lookup(t[1..], o)
  }

  /** Sum of all counts. */
  function Total(t: Tally): nat
  {
    if t == [] then 0 else t[0].n + Total(t[1..])
  }

  lemma {:induction false} LookupAbsent(t: Tally, o: Orb)
    requires o !in KeySet(t)
    ensures Lookup(t, o) == 0
  {
    if t != [] {
      LookupAbsent(t[1..], o);
    }
  }

  /** `counts.update({o: counts.get(o, 0) + 1})`: bump an existing key in place,
      or append a new key with count 1. */
  function Bump(t: Tally, o: Orb): (r: Tally)
    ensures KeySet(r) == KeySet(t) + {o}
    ensures DistinctKeys(t) ==> DistinctKeys(r)
    ensures Total(r) == Total(t) + 1
    ensures forall p :: Lookup(r, p) == Lookup(t, p) + (if p == o then 1 else 0)
  {
    if t == [] then [OrbCount(o, 1)]
    else if t[0].orb == o then [OrbCount(o, t[0].n + 1)] + t[1..]
    else
      var rest := Bump(t[1..], o);
      assert ([t[0]] + rest)[1..] == rest;
      [t[0]] + rest
  }

  /** The constructor's frequency count over the cells in row-major order. */
  function TallyOf(s: seq<Orb>): (t: Tally)
    ensures DistinctKeys(t)
    ensures Total(t) == |s|
    ensures forall o :: Lookup(t, o) == SeqCount(s, o)
  {
    if s == [] then [] else Bump(TallyOf(s[..|s| - 1]), s[|s| - 1])
  }

  /** `{k: v for k, v in counts.items() if v >= COMBO_LIMIT}`. */
  function Prune(t: Tally): (r: Tally)
    ensures KeySet(r) <= KeySet(t)
    ensures DistinctKeys(t) ==> DistinctKeys(r)
    ensures forall i :: 0 <= i < |r| ==> r[i].n >= ComboLimit
    ensures Total(r) <= Total(t)
  {
    if t == [] then []
    else
      var rest := Prune(t[1..]);
      if t[0].n >= ComboLimit then
        assert ([t[0]] + rest)[1..] == rest;
        [t[0]] + rest
      else
        rest
  }

  /** Pruning keeps exactly the counts that reach `ComboLimit`. */
  lemma {:induction false} PruneLookup(t: Tally, o: Orb)
    requires DistinctKeys(t)
    ensures Lookup(Prune(t), o) == (if Lookup(t, o) >= ComboLimit then Lookup(t, o) else 0)
  {
    if t != [] {
      PruneLookup(t[1..], o);
      var rest := Prune(t[1..]);
      if t[0].n >= ComboLimit {
        assert Prune(t) == [t[0]] + rest;
        assert ([t[0]] + rest)[1..] == rest;
      } else if t[0].orb == o {
        LookupAbsent(t[1..], o);
        LookupAbsent(rest, o);
      }
    }
  }

  /** `next((orb for orb in key_list if orb != exclude), None)`, as an index. */
  function FirstOther(t: Tally, exclude: Option<Orb>): (r: Option<nat>)
    ensures r.Some? ==> r.value < |t| && (exclude.None? || t[r.value].orb != exclude.value)
    ensures forall j :: 0 <= j < |t| && (r.None? || j < r.value) ==>
      exclude.Some? && t[j].orb == exclude.value
  {
    if t == [] then None
    else if exclude.None? || t[0].orb != exclude.value then Some(0)
    else match FirstOther(t[1..], exclude)
      case None => None
      case Some(i) => Some(i + 1)
  }

  /** Lowering the count stored at one position of a tally. */
  lemma {:induction false} LowerAt(t: Tally, i: nat, m: nat)
    requires i < |t| && DistinctKeys(t)
    ensures KeySet(t[i := OrbCount(t[i].orb, m)]) == KeySet(t)
    ensures DistinctKeys(t[i := OrbCount(t[i].orb, m)])
    ensures Total(t[i := OrbCount(t[i].orb, m)]) + t[i].n == Total(t) + m
    ensures forall p :: Lookup(t[i := OrbCount(t[i].orb, m)], p)
                     == (if p == t[i].orb then m else Lookup(t, p))
  {
    var u := t[i := OrbCount(t[i].orb, m)];
    if i == 0 {
      assert u[1..] == t[1..];
      forall p
        ensures Lookup(u, p) == (if p == t[i].orb then m else Lookup(t, p))
      {
      }
    } else {
      assert u[0] == t[0];
      assert u[1..] == t[1..][i - 1 := OrbCount(t[i].orb, m)];
      LowerAt(t[1..], i - 1, m);
      KeySetHas(t[1..], i - 1);
      assert t[1..][i - 1] == t[i];
      assert t[0].orb != t[i].orb;
      forall p
        ensures Lookup(u, p) == (if p == t[i].orb then m else Lookup(t, p))
      {
        if p != t[0].orb {
          assert Lookup(u, p) == Lookup(u[1..], p);
          assert Lookup(t, p) == Lookup(t[1..], p);
          assert Lookup(u[1..], p) == (if p == t[i].orb then m else Lookup(t[1..], p));
        }
      }
    }
  }

  lemma {:induction false} KeySetHas(t: Tally, i: nat)
    requires i < |t|
    ensures t[i].orb in KeySet(t)
  {
    if i > 0 {
      KeySetHas(t[1..], i - 1);
    }
  }

  lemma {:induction false} LookupAt(t: Tally, i: nat)
    requires DistinctKeys(t) && i < |t|
    ensures Lookup(t, t[i].orb) == t[i].n
  {
    if i > 0 {
      KeySetHas(t[1..], i - 1);
      assert t[1..][i - 1] == t[i];
      LookupAt(t[1..], i - 1);
    }
  }

  /** `pruned.update({exclude: pruned.get(exclude) - COMBO_LIMIT})` for the
      entry at position `i`. */
  function Spend(t: Tally, i: nat): (r: Tally)
    requires DistinctKeys(t) && i < |t| && t[i].n >= ComboLimit
    ensures DistinctKeys(r)
    ensures Total(r) + ComboLimit == Total(t)
    ensures forall p :: Lookup(r, p) + (if p == t[i].orb then ComboLimit else 0) == Lookup(t, p)
  {
    LowerAt(t, i, t[i].n - ComboLimit);
    LookupAt(t, i);
    t[i := OrbCount(t[i].orb, t[i].n - ComboLimit)]
  }

  /** The greedy estimate as the sequence of colours it picks: each pick spends
      `ComboLimit` orbs of a colour that still has that many, and never repeats
      the previous pick. The estimate `max` is the number of picks. */
  function Greedy(t: Tally, exclude: Option<Orb>): (picks: seq<Orb>)
    requires DistinctKeys(t)
    ensures forall i :: 0 <= i < |picks| - 1 ==> picks[i] != picks[i + 1]
    ensures |picks| > 0 && exclude.Some? ==> picks[0] != exclude.value
    ensures forall o :: ComboLimit * SeqCount(picks, o) <= Lookup(t, o)
    ensures ComboLimit * |picks| <= Total(t)
    decreases Total(t)
  {
    var pruned := Prune(t);
    if exclude.Some? && |pruned| == 1 && pruned[0].orb == exclude.value then []
    else match FirstOther(pruned, exclude)
      case None => []
      case Some(i) =>
        var o := pruned[i].orb;
        var rest := Greedy(Spend(pruned, i), Some(o));
        PruneShrinks(t);
        PickAccounting(t, pruned, i, rest);
        [o] + rest
  }

  lemma PruneShrinks(t: Tally)
    requires DistinctKeys(t)
    ensures forall o :: Lookup(Prune(t), o) <= Lookup(t, o)
  {
    forall o
      ensures Lookup(Prune(t), o) <= Lookup(t, o)
    {
      PruneLookup(t, o);
    }
  }

  /** Bookkeeping for one greedy pick: the pick's `ComboLimit` orbs, plus what
      the remaining picks spend of the lowered tally, fit in the original tally. */
  lemma PickAccounting(t: Tally, pruned: Tally, i: nat, rest: seq<Orb>)
    requires DistinctKeys(pruned) && i < |pruned| && pruned[i].n >= ComboLimit
    requires Total(pruned) <= Total(t)
    requires forall p :: Lookup(pruned, p) <= Lookup(t, p)
    requires forall p :: ComboLimit * SeqCount(rest, p) <= Lookup(Spend(pruned, i), p)
    requires ComboLimit * |rest| <= Total(Spend(pruned, i))
    ensures forall p :: ComboLimit * SeqCount([pruned[i].orb] + rest, p) <= Lookup(t, p)
    ensures ComboLimit * |[pruned[i].orb] + rest| <= Total(t)
  {
    var o := pruned[i].orb;
    forall p
      ensures ComboLimit * SeqCount([o] + rest, p) <= Lookup(t, p)
    {
      SeqCountAppend([o], rest, p);
      assert [o][..0] == [];
    }
  }

  /** The colour the estimate may not pick next once it stops: its last pick,
      or `exclude` when it picked nothing. */
  function LastPick(picks: seq<Orb>, exclude: Option<Orb>): Option<Orb>
  {
    if picks == [] then exclude else Some(picks[|picks| - 1])
  }

  /** The estimate stops only when nothing is left to pick: every colour
      other than the one it may not repeat has fewer than `ComboLimit` orbs
      left once the picks have spent theirs. Together with the accounting in
      `Greedy`'s contract this pins every colour's number of picks. */
  lemma {:induction false} GreedyStops(t: Tally, exclude: Option<Orb>)
    requires DistinctKeys(t)
    ensures var picks := Greedy(t, exclude);
      forall o :: Some(o) != LastPick(picks, exclude) ==>
        Lookup(t, o) < ComboLimit * SeqCount(picks, o) + ComboLimit
    decreases Total(t)
  {
    var pruned := Prune(t);
    if exclude.Some? && |pruned| == 1 && pruned[0].orb == exclude.value {
      forall o | Some(o) != exclude
        ensures Lookup(t, o) < ComboLimit
      {
        PruneLookup(t, o);
        LookupOnly(pruned, exclude.value, o);
      }
    } else {
      match FirstOther(pruned, exclude)
      case None =>
        forall o | Some(o) != exclude
          ensures Lookup(t, o) < ComboLimit
        {
          PruneLookup(t, o);
          if exclude.Some? {
            LookupOnly(pruned, exclude.value, o);
          }
        }
      case Some(i) =>
        var picked := pruned[i].orb;
        var u := Spend(pruned, i);
        var rest := Greedy(u, Some(picked));
        GreedyStops(u, Some(picked));
        StopsAfterPick(t, i, rest);
        assert Greedy(t, exclude) == [picked] + rest;
        assert LastPick([picked] + rest, exclude) == LastPick(rest, Some(picked));
    }
  }

  /** One pick followed by picks that stop leaves the same stopping condition
      on the tally before the pick. */
  lemma StopsAfterPick(t: Tally, i: nat, rest: seq<Orb>)
    requires DistinctKeys(t) && i < |Prune(t)|
    requires forall o :: Some(o) != LastPick(rest, Some(Prune(t)[i].orb)) ==>
               Lookup(Spend(Prune(t), i), o) < ComboLimit * SeqCount(rest, o) + ComboLimit
    ensures forall o :: Some(o) != LastPick(rest, Some(Prune(t)[i].orb)) ==>
              Lookup(t, o) < ComboLimit * SeqCount([Prune(t)[i].orb] + rest, o) + ComboLimit
  {
    var picked := Prune(t)[i].orb;
    forall o | Some(o) != LastPick(rest, Some(picked))
      ensures Lookup(t, o) < ComboLimit * SeqCount([picked] + rest, o) + ComboLimit
    {
      PruneLookup(t, o);
      SeqCountAppend([picked], rest, o);
      assert [picked][..0] == [];
    }
  }

  /** A tally whose every key is `x` has nothing for any other colour. */
  lemma {:induction false} LookupOnly(t: Tally, x: Orb, o: Orb)
    requires forall j :: 0 <= j < |t| ==> t[j].orb == x
    requires o != x
    ensures Lookup(t, o) == 0
  {
    if t != [] {
      LookupOnly(t[1..], x, o);
    }
  }

  /** When no colour has `ComboLimit` orbs the estimate is zero. */
  lemma NoEligibleColour(t: Tally)
    requires DistinctKeys(t)
    requires forall o :: Lookup(t, o) < ComboLimit
    ensures Greedy(t, None) == []
  {
    var pruned := Prune(t);
    if pruned != [] {
      LookupAt(pruned, 0);
      PruneLookup(t, pruned[0].orb);
      assert false;
    }
  }

  /** When exactly one colour has `ComboLimit` orbs the estimate is one combo of it. */
  lemma OneEligibleColour(t: Tally, o: Orb)
    requires DistinctKeys(t)
    requires Lookup(t, o) >= ComboLimit
    requires forall p :: p != o ==> Lookup(t, p) < ComboLimit
    ensures Greedy(t, None) == [o]
  {
    var pruned := Prune(t);
    forall p
      ensures Lookup(pruned, p) == (if p == o then Lookup(t, o) else 0)
    {
      PruneLookup(t, p);
    }
    OnlyKey(pruned, o);
    SinglePrunedEntry(t, o);
  }

  lemma SinglePrunedEntry(t: Tally, o: Orb)
    requires DistinctKeys(t)
    requires |Prune(t)| == 1 && Prune(t)[0].orb == o
    ensures Greedy(t, None) == [o]
  {
    SinglePrunedFirst(t, o);
    SpentSingle(Spend(Prune(t), 0), o);
  }

  /** With a single eligible colour, the first pick is that colour. */
  lemma SinglePrunedFirst(t: Tally, o: Orb)
    requires DistinctKeys(t)
    requires |Prune(t)| == 1 && Prune(t)[0].orb == o
    ensures Prune(t)[0].n >= ComboLimit && DistinctKeys(Prune(t))
    ensures Greedy(t, None) == [o] + Greedy(Spend(Prune(t), 0), Some(o))
    ensures |Spend(Prune(t), 0)| == 1 && Spend(Prune(t), 0)[0].orb == o
  {
    assert FirstOther(Prune(t), None) == Some(0);
  }

  /** After the only eligible colour has been picked, nothing is left to pick. */
  lemma SpentSingle(u: Tally, o: Orb)
    requires |u| == 1 && u[0].orb == o
    ensures Greedy(u, Some(o)) == []
  {
    assert u[1..] == [];
    var pruned := Prune(u);
    assert pruned == [] || pruned == u;
  }

  /** A distinct-keyed tally in which only `o` can be looked up with a positive
      count, and `o` can, is the single entry for `o`. */
  lemma OnlyKey(t: Tally, o: Orb)
    requires DistinctKeys(t)
    requires Lookup(t, o) > 0
    requires forall i :: 0 <= i < |t| ==> t[i].n > 0
    requires forall p :: p != o ==> Lookup(t, p) == 0
    ensures |t| == 1 && t[0].orb == o
  {
    if t[0].orb != o {
      LookupAt(t, 0);
      assert false;
    }
    if |t| > 1 {
      KeySetHas(t[1..], 0);
      LookupAt(t, 1);
      assert false;
    }
  }
}
