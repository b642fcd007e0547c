/** The beam search of src/solver/solver.py (`solve` and `_solve_from`, the
    `debugging` side of the unresolved merge). The board is abstract: the
    search only moves an orb, scores a board, keys it for the visited set and
    asks for the combo bound, and those four operations are parameters. */
module Solver {
  import opened Optional
  import opened PadTypes
  import opened Grids

  /** The board operations the search calls.
      - `move(b, at, d)`: `move_orb` on a copy of `b`; `None` when the move is invalid.
      - `evaluate(b)`: `calc_combos`, which returns the count and clears the
        combos it counts, so the board it leaves is returned too.
      - `key(b)`: the string form stored in `visited`.
      - `bound(b)`: `max_combos()`, the count at which the search stops. */
  datatype Space<!B, K> = Space(
    move: (B, Coord, Direction) -> Option<B>,
    evaluate: B -> (nat, B),
    key: B -> K,
    bound: B -> nat)

  /** A heap entry: the priority (`-combos`; the first entry is pushed with
      `+combos`), the board, the directions taken and where the dragged orb is. */
  datatype Entry<B> = Entry(priority: int, board: B, path: seq<Direction>, at: Coord)

  /** The frontier is cut back to this many entries after every push. */
  const Width: nat := 10

  /** The search state between two heap operations. */
  datatype Search<B, K> = Search(frontier: seq<Entry<B>>, visited: set<K>, cur: nat, best: seq<Direction>)

  function Abs(p: int): nat
  {
    if p < 0 then -p else p
  }

  /** No direction follows itself. */
  predicate NoRepeat(p: seq<Direction>)
  {
    forall i :: 0 <= i < |p| - 1 ==> p[i] != p[i + 1]
  }

  /** An entry the search can hold: its path respects the length bound and the
      no-repeat rule, and the orb sits where the path leads from `start`. */
  predicate EntryOk<B>(e: Entry<B>, start: Coord, maxPath: nat)
  {
    |e.path| <= maxPath && NoRepeat(e.path) && e.at == Travel(start, e.path)
  }

  predicate AllOk<B>(h: seq<Entry<B>>, start: Coord, maxPath: nat)
  {
    forall j :: 0 <= j < |h| ==> EntryOk(h[j], start, maxPath)
  }

  /** Every combo count held in the frontier is at most `cur`. */
  predicate Below<B>(h: seq<Entry<B>>, cur: nat)
  {
    forall j :: 0 <= j < |h| ==> Abs(h[j].priority) <= cur
  }

  /** `heappop`: the position of the smallest priority, the first one on ties
      (the source breaks ties by `id`, which is not modelled). */
  function MinIndex<B>(h: seq<Entry<B>>): (i: nat)
    requires |h| > 0
    ensures i < |h|
    ensures forall j :: 0 <= j < |h| ==> h[i].priority <= h[j].priority
    ensures forall j :: 0 <= j < i ==> h[j].priority > h[i].priority
  {
    MinFrom(h, 0, 1)
  }

  /** The scan behind `MinIndex`: `best` is the first minimum of `h[..k]`. */
  function MinFrom<B>(h: seq<Entry<B>>, best: nat, k: nat): (i: nat)
    requires best < k <= |h|
    requires forall j :: 0 <= j < k ==> h[best].priority <= h[j].priority
    requires forall j :: 0 <= j < best ==> h[j].priority > h[best].priority
    ensures i < |h|
    ensures forall j :: 0 <= j < |h| ==> h[i].priority <= h[j].priority
    ensures forall j :: 0 <= j < i ==> h[j].priority > h[i].priority
    decreases |h| - k
  {
    if k == |h| then best
    else MinFrom(h, if h[k].priority < h[best].priority then k else best, k + 1)
  }

  /** The position of a largest priority, the first one on ties. */
  function MaxIndex<B>(h: seq<Entry<B>>): (i: nat)
    requires |h| > 0
    ensures i < |h|
    ensures forall j :: 0 <= j < |h| ==> h[j].priority <= h[i].priority
  {
    MaxFrom(h, 0, 1)
  }

  function MaxFrom<B>(h: seq<Entry<B>>, best: nat, k: nat): (i: nat)
    requires best < k <= |h|
    requires forall j :: 0 <= j < k ==> h[j].priority <= h[best].priority
    ensures i < |h|
    ensures forall j :: 0 <= j < |h| ==> h[j].priority <= h[i].priority
    decreases |h| - k
  {
    if k == |h| then best
    else MaxFrom(h, if h[k].priority > h[best].priority then k else best, k + 1)
  }

  function RemoveAt<B>(h: seq<Entry<B>>, i: nat): (r: seq<Entry<B>>)
    requires i < |h|
    ensures |r| == |h| - 1
    ensures forall j :: 0 <= j < |r| ==> r[j] == h[if j < i then j else j + 1]
  {
    h[..i] + h[i + 1..]
  }

  lemma RemoveAtMultiset<B>(h: seq<Entry<B>>, i: nat)
    requires i < |h|
    ensures multiset(RemoveAt(h, i)) + multiset{h[i]} == multiset(h)
  {
    assert h == h[..i] + [h[i]] + h[i + 1..];
  }

  /** `if len(h) > 10: h = heapq.nsmallest(10, h)`: keep the `Width` entries
      of smallest priority, by dropping a largest one until `Width` are left. */
  function Truncate<B>(h: seq<Entry<B>>): (r: seq<Entry<B>>)
    ensures |r| == if |h| <= Width then |h| else Width
    decreases |h|
  {
    if |h| <= Width then h else Truncate(RemoveAt(h, MaxIndex(h)))
  }

  /** The entries `Truncate` drops, in the order it drops them. */
  function Dropped<B>(h: seq<Entry<B>>): (r: seq<Entry<B>>)
    ensures |r| == if |h| <= Width then 0 else |h| - Width
    decreases |h|
  {
    if |h| <= Width then [] else [h[MaxIndex(h)]] + Dropped(RemoveAt(h, MaxIndex(h)))
  }

  /** The kept and the dropped entries together are exactly the entries of `h`. */
  lemma {:induction false} TruncatePartition<B>(h: seq<Entry<B>>)
    ensures multiset(Truncate(h)) + multiset(Dropped(h)) == multiset(h)
    decreases |h|
  {
    if |h| > Width {
      var m := MaxIndex(h);
      var h' := RemoveAt(h, m);
      TruncatePartition(h');
      RemoveAtMultiset(h, m);
      assert multiset(Dropped(h)) == multiset{h[m]} + multiset(Dropped(h'));
    }
  }

  lemma {:induction false} TruncateAtMost<B>(h: seq<Entry<B>>, p: int)
    requires forall j :: 0 <= j < |h| ==> h[j].priority <= p
    ensures forall k :: 0 <= k < |Truncate(h)| ==> Truncate(h)[k].priority <= p
    decreases |h|
  {
    if |h| > Width {
      TruncateAtMost(RemoveAt(h, MaxIndex(h)), p);
    }
  }

  /** `nsmallest` keeps the best entries: no dropped entry has a smaller
      priority than a kept one. */
  lemma {:induction false} TruncateKeepsBest<B>(h: seq<Entry<B>>)
    ensures forall k, m :: 0 <= k < |Truncate(h)| && 0 <= m < |Dropped(h)| ==>
      Truncate(h)[k].priority <= Dropped(h)[m].priority
    decreases |h|
  {
    if |h| > Width {
      var i := MaxIndex(h);
      var h' := RemoveAt(h, i);
      TruncateKeepsBest(h');
      TruncateAtMost(h', h[i].priority);
      assert Dropped(h) == [h[i]] + Dropped(h');
    }
  }

  /** Cutting the frontier back keeps the search's per-entry invariants. */
  lemma {:induction false} TruncateKeeps<B>(h: seq<Entry<B>>, start: Coord, maxPath: nat, cur: nat)
    requires AllOk(h, start, maxPath) && Below(h, cur)
    ensures AllOk(Truncate(h), start, maxPath) && Below(Truncate(h), cur)
    decreases |h|
  {
    if |h| > Width {
      var h' := RemoveAt(h, MaxIndex(h));
      assert AllOk(h', start, maxPath) && Below(h', cur);
      TruncateKeeps(h', start, maxPath, cur);
    }
  }

  /** Termination weight: an entry with `m` steps of path left counts `5^m`,
      more than the at most four children it can have. */
  function Pow5(m: nat): (p: nat)
    ensures p >= 1
  {
    if m == 0 then 1 else 5 * Pow5(m - 1)
  }

  function EntryWeight<B>(e: Entry<B>, maxPath: nat): nat
  {
    if |e.path| <= maxPath then Pow5(maxPath - |e.path|) else 1
  }

  function Weight<B>(h: seq<Entry<B>>, maxPath: nat): nat
  {
    if h == [] then 0 else Weight(h[..|h| - 1], maxPath) + EntryWeight(h[|h| - 1], maxPath)
  }

  lemma {:induction false} WeightAppend<B>(a: seq<Entry<B>>, b: seq<Entry<B>>, maxPath: nat)
    ensures Weight(a + b, maxPath) == Weight(a, maxPath) + Weight(b, maxPath)
  {
    if b == [] {
      assert a + b == a;
    } else {
      assert (a + b)[..|a + b| - 1] == a + b[..|b| - 1];
      WeightAppend(a, b[..|b| - 1], maxPath);
    }
  }

  lemma WeightPush<B>(h: seq<Entry<B>>, e: Entry<B>, maxPath: nat)
    ensures Weight(h + [e], maxPath) == Weight(h, maxPath) + EntryWeight(e, maxPath)
  {
    assert (h + [e])[..|h|] == h;
  }

  lemma WeightCons<B>(e: Entry<B>, t: seq<Entry<B>>, maxPath: nat)
    ensures Weight([e] + t, maxPath) == EntryWeight(e, maxPath) + Weight(t, maxPath)
  {
    WeightAppend([e], t, maxPath);
    assert [e][..0] == [];
  }

  lemma WeightRemoveAt<B>(h: seq<Entry<B>>, i: nat, maxPath: nat)
    requires i < |h|
    ensures Weight(RemoveAt(h, i), maxPath) + EntryWeight(h[i], maxPath) == Weight(h, maxPath)
  {
    assert h == h[..i] + ([h[i]] + h[i + 1..]);
    WeightAppend(h[..i], [h[i]] + h[i + 1..], maxPath);
    WeightCons(h[i], h[i + 1..], maxPath);
    WeightAppend(h[..i], h[i + 1..], maxPath);
  }

  /** Cutting the frontier back never adds weight. */
  lemma {:induction false} TruncateWeight<B>(h: seq<Entry<B>>, maxPath: nat)
    ensures Weight(Truncate(h), maxPath) <= Weight(h, maxPath)
    decreases |h|
  {
    if |h| > Width {
      var m := MaxIndex(h);
      TruncateWeight(RemoveAt(h, m), maxPath);
      WeightRemoveAt(h, m, maxPath);
    }
  }

  /** The body of the `for direction in Directions` loop for one direction:
      skip a repeat of the last direction, an invalid move and an already
      visited board; otherwise score the moved board and push it. */
  function Offer<B(==), K(==)>(sp: Space<B, K>, st: Search<B, K>, e: Entry<B>, d: Direction): (r: Search<B, K>)
    ensures st.visited <= r.visited && st.cur <= r.cur
    ensures |e.path| > 0 && d == e.path[|e.path| - 1] ==> r == st
    ensures sp.move(e.board, e.at, d).None? ==> r == st
    ensures sp.move(e.board, e.at, d).Some? && sp.key(sp.move(e.board, e.at, d).value) in st.visited ==> r == st
  {
    if |e.path| > 0 && d == e.path[|e.path| - 1] then st
    else match sp.move(e.board, e.at, d)
      case None => st
      case Some(moved) =>
        if sp.key(moved) in st.visited then st
        else Push(sp, st, e, d, sp.evaluate(moved))
  }

  /** Pushing the child reached along `d`, scored `ev.0` and leaving board
      `ev.1`: its key joins `visited`, the running best becomes the larger
      count (the new path on a tie) and the frontier is cut back. */
  function Push<B(==), K(==)>(sp: Space<B, K>, st: Search<B, K>, e: Entry<B>, d: Direction, ev: (nat, B)): (r: Search<B, K>)
    ensures st.visited <= r.visited && st.cur <= r.cur
  {
    var path := e.path + [d];
    var cur := if ev.0 > st.cur then ev.0 else st.cur;
    Search(Truncate(st.frontier + [Child(e, d, ev)]),
           st.visited + {sp.key(ev.1)},
           cur,
           if cur == ev.0 then path else st.best)
  }

  /** The heap entry for the child of `e` along `d`. */
  function Child<B>(e: Entry<B>, d: Direction, ev: (nat, B)): Entry<B>
  {
    Entry(-(ev.0 as int), ev.1, e.path + [d], Step(e.at, d))
  }

  /** A pushed board is scored, its key joins `visited`, the running best
      becomes the larger of the two counts, taking the new path on a tie, and
      the frontier keeps only entries it held or the new child. */
  lemma OfferPushes<B, K>(sp: Space<B, K>, st: Search<B, K>, e: Entry<B>, d: Direction)
    requires !(|e.path| > 0 && d == e.path[|e.path| - 1])
    requires sp.move(e.board, e.at, d).Some?
    requires sp.key(sp.move(e.board, e.at, d).value) !in st.visited
    ensures var ev := sp.evaluate(sp.move(e.board, e.at, d).value);
      var r := Offer(sp, st, e, d);
      && r.visited == st.visited + {sp.key(ev.1)}
      && r.cur == (if ev.0 > st.cur then ev.0 else st.cur)
      && (r.cur == ev.0 ==> r.best == e.path + [d])
      && (r.cur != ev.0 ==> r.best == st.best)
      && multiset(r.frontier) + multiset(Dropped(st.frontier + [Child(e, d, ev)]))
         == multiset(st.frontier) + multiset{Child(e, d, ev)}
  {
    var ev := sp.evaluate(sp.move(e.board, e.at, d).value);
    var pushed := st.frontier + [Child(e, d, ev)];
    TruncatePartition(pushed);
    assert Offer(sp, st, e, d).frontier == Truncate(pushed);
  }

  /** One `Offer` from an entry that may still grow keeps the search's
      invariants and adds at most one child's weight. */
  lemma OfferKeeps<B, K>(sp: Space<B, K>, st: Search<B, K>, e: Entry<B>, d: Direction,
                         start: Coord, maxPath: nat)
    requires EntryOk(e, start, maxPath) && |e.path| < maxPath
    requires AllOk(st.frontier, start, maxPath) && Below(st.frontier, st.cur)
    requires |st.frontier| <= Width
    requires |st.best| <= maxPath && NoRepeat(st.best)
    ensures var r := Offer(sp, st, e, d);
      && AllOk(r.frontier, start, maxPath) && Below(r.frontier, r.cur)
      && |r.frontier| <= Width
      && |r.best| <= maxPath && NoRepeat(r.best)
      && Weight(r.frontier, maxPath) <= Weight(st.frontier, maxPath) + Pow5(maxPath - |e.path| - 1)
  {
    if !(|e.path| > 0 && d == e.path[|e.path| - 1]) && sp.move(e.board, e.at, d).Some? {
      var moved := sp.move(e.board, e.at, d).value;
      if sp.key(moved) !in st.visited {
        PushKeeps(sp, st, e, d, sp.evaluate(moved), start, maxPath);
      }
    }
  }

  lemma PushKeeps<B, K>(sp: Space<B, K>, st: Search<B, K>, e: Entry<B>, d: Direction, ev: (nat, B),
                        start: Coord, maxPath: nat)
    requires EntryOk(e, start, maxPath) && |e.path| < maxPath
    requires !(|e.path| > 0 && d == e.path[|e.path| - 1])
    requires AllOk(st.frontier, start, maxPath) && Below(st.frontier, st.cur)
    requires |st.frontier| <= Width
    requires |st.best| <= maxPath && NoRepeat(st.best)
    ensures var r := Push(sp, st, e, d, ev);
      && AllOk(r.frontier, start, maxPath) && Below(r.frontier, r.cur)
      && |r.frontier| <= Width
      && |r.best| <= maxPath && NoRepeat(r.best)
      && Weight(r.frontier, maxPath) <= Weight(st.frontier, maxPath) + Pow5(maxPath - |e.path| - 1)
  {
    var child := Child(e, d, ev);
    var cur := if ev.0 > st.cur then ev.0 else st.cur;
    ChildOk(e, d, start, maxPath);
    var pushed := st.frontier + [child];
    assert AllOk(pushed, start, maxPath) && Below(pushed, cur);
    TruncateKeeps(pushed, start, maxPath, cur);
    PushWeight(st.frontier, e, d, ev, maxPath);
  }

  /** Pushing one child and cutting back adds at most the child's weight. */
  lemma PushWeight<B>(h: seq<Entry<B>>, e: Entry<B>, d: Direction, ev: (nat, B), maxPath: nat)
    requires |e.path| < maxPath
    ensures Weight(Truncate(h + [Child(e, d, ev)]), maxPath) <= Weight(h, maxPath) + Pow5(maxPath - |e.path| - 1)
  {
    var child := Child(e, d, ev);
    WeightPush(h, child, maxPath);
    assert EntryWeight(child, maxPath) == Pow5(maxPath - |e.path| - 1);
    TruncateWeight(h + [child], maxPath);
  }

  /** `for direction in Directions`: offer every direction of `ds` in turn. */
  function Expand<B(==), K(==)>(sp: Space<B, K>, st: Search<B, K>, e: Entry<B>, ds: seq<Direction>): (r: Search<B, K>)
    ensures st.visited <= r.visited && st.cur <= r.cur
    decreases |ds|
  {
    if ds == [] then st else Expand(sp, Offer(sp, st, e, ds[0]), e, ds[1..])
  }

  /** Offering all the directions keeps the search's invariants and adds at
      most one child's weight per direction. */
  lemma {:induction false} ExpandKeeps<B, K>(sp: Space<B, K>, st: Search<B, K>, e: Entry<B>, ds: seq<Direction>,
                                             start: Coord, maxPath: nat)
    requires EntryOk(e, start, maxPath) && |e.path| < maxPath
    requires AllOk(st.frontier, start, maxPath) && Below(st.frontier, st.cur)
    requires |st.frontier| <= Width
    requires |st.best| <= maxPath && NoRepeat(st.best)
    ensures var r := Expand(sp, st, e, ds);
      && AllOk(r.frontier, start, maxPath) && Below(r.frontier, r.cur)
      && |r.frontier| <= Width
      && |r.best| <= maxPath && NoRepeat(r.best)
      && Weight(r.frontier, maxPath) <= Weight(st.frontier, maxPath) + |ds| * Pow5(maxPath - |e.path| - 1)
    decreases |ds|
  {
    if ds != [] {
      var unit := Pow5(maxPath - |e.path| - 1);
      OfferKeeps(sp, st, e, ds[0], start, maxPath);
      ExpandKeeps(sp, Offer(sp, st, e, ds[0]), e, ds[1..], start, maxPath);
      assert |ds| * unit == unit + (|ds| - 1) * unit;
    }
  }

  /** The child of an entry along a direction other than its last one is an
      entry the search can hold. */
  lemma ChildOk<B>(e: Entry<B>, d: Direction, start: Coord, maxPath: nat)
    requires EntryOk(e, start, maxPath) && |e.path| < maxPath
    requires !(|e.path| > 0 && d == e.path[|e.path| - 1])
    ensures NoRepeat(e.path + [d])
    ensures forall b: B, p: int :: EntryOk(Entry(p, b, e.path + [d], Step(e.at, d)), start, maxPath)
  {
    var path := e.path + [d];
    assert path[..|path| - 1] == e.path;
  }

  /** The count and board the search holds for `path` from `start`, starting
      from the scored initial board `root`: every step moves the orb from
      where the earlier steps left it and scores the moved board. `None` when
      some move is invalid. */
  function Replay<B, K>(sp: Space<B, K>, root: (nat, B), start: Coord, path: seq<Direction>): Option<(nat, B)>
    decreases |path|
  {
    if path == [] then Some(root)
    else
      var prefix := path[..|path| - 1];
      match Replay(sp, root, start, prefix)
      case None => None
      case Some(r) =>
        match sp.move(r.1, Travel(start, prefix), path[|path| - 1])
        case None => None
        case Some(m) => Some(sp.evaluate(m))
  }

  /** Replaying `path` succeeds and scores `n` combos. */
  predicate Scores<B, K>(sp: Space<B, K>, root: (nat, B), start: Coord, path: seq<Direction>, n: nat)
  {
    Replay(sp, root, start, path).Some? && Replay(sp, root, start, path).value.0 == n
  }

  /** A heap entry holds exactly what replaying its path gives. */
  ghost predicate Replays<B, K>(sp: Space<B, K>, root: (nat, B), start: Coord, e: Entry<B>)
  {
    Replay(sp, root, start, e.path) == Some((Abs(e.priority), e.board))
  }

  ghost predicate AllReplay<B, K>(sp: Space<B, K>, root: (nat, B), start: Coord, h: seq<Entry<B>>)
  {
    forall j :: 0 <= j < |h| ==> Replays(sp, root, start, h[j])
  }

  /** The child of a replayed entry is the replay of the extended path. */
  lemma ReplayChild<B, K>(sp: Space<B, K>, root: (nat, B), start: Coord, e: Entry<B>, d: Direction)
    requires Replays(sp, root, start, e) && e.at == Travel(start, e.path)
    requires sp.move(e.board, e.at, d).Some?
    ensures Replays(sp, root, start, Child(e, d, sp.evaluate(sp.move(e.board, e.at, d).value)))
  {
    var p := e.path + [d];
    assert p[..|p| - 1] == e.path;
  }

  /** Cutting the frontier back keeps only replayed entries. */
  lemma {:induction false} TruncateReplays<B, K>(sp: Space<B, K>, root: (nat, B), start: Coord, h: seq<Entry<B>>)
    requires AllReplay(sp, root, start, h)
    ensures AllReplay(sp, root, start, Truncate(h))
    decreases |h|
  {
    if |h| > Width {
      var h' := RemoveAt(h, MaxIndex(h));
      assert AllReplay(sp, root, start, h');
      TruncateReplays(sp, root, start, h');
    }
  }

  /** A push keeps every held entry a replay, and the running best a path
      that replays to the running count. */
  lemma PushReplays<B, K>(sp: Space<B, K>, root: (nat, B), start: Coord, st: Search<B, K>, e: Entry<B>, d: Direction)
    requires Replays(sp, root, start, e) && e.at == Travel(start, e.path)
    requires sp.move(e.board, e.at, d).Some?
    requires AllReplay(sp, root, start, st.frontier) && Scores(sp, root, start, st.best, st.cur)
    ensures var r := Push(sp, st, e, d, sp.evaluate(sp.move(e.board, e.at, d).value));
      AllReplay(sp, root, start, r.frontier) && Scores(sp, root, start, r.best, r.cur)
  {
    var ev := sp.evaluate(sp.move(e.board, e.at, d).value);
    var child := Child(e, d, ev);
    ReplayChild(sp, root, start, e, d);
    var pushed := st.frontier + [child];
    assert AllReplay(sp, root, start, pushed);
    TruncateReplays(sp, root, start, pushed);
  }

  lemma OfferReplays<B, K>(sp: Space<B, K>, root: (nat, B), start: Coord, st: Search<B, K>, e: Entry<B>, d: Direction)
    requires Replays(sp, root, start, e) && e.at == Travel(start, e.path)
    requires AllReplay(sp, root, start, st.frontier) && Scores(sp, root, start, st.best, st.cur)
    ensures var r := Offer(sp, st, e, d);
      AllReplay(sp, root, start, r.frontier) && Scores(sp, root, start, r.best, r.cur)
  {
    if !(|e.path| > 0 && d == e.path[|e.path| - 1]) && sp.move(e.board, e.at, d).Some? {
      if sp.key(sp.move(e.board, e.at, d).value) !in st.visited {
        PushReplays(sp, root, start, st, e, d);
      }
    }
  }

  /** Expanding a replayed entry keeps every held entry a replay, and the
      running best a path that replays to the running count. */
  lemma {:induction false} ExpandReplays<B, K>(sp: Space<B, K>, root: (nat, B), start: Coord,
                                               st: Search<B, K>, e: Entry<B>, ds: seq<Direction>)
    requires Replays(sp, root, start, e) && e.at == Travel(start, e.path)
    requires AllReplay(sp, root, start, st.frontier) && Scores(sp, root, start, st.best, st.cur)
    ensures var r := Expand(sp, st, e, ds);
      AllReplay(sp, root, start, r.frontier) && Scores(sp, root, start, r.best, r.cur)
    decreases |ds|
  {
    if ds != [] {
      OfferReplays(sp, root, start, st, e, ds[0]);
      ExpandReplays(sp, root, start, Offer(sp, st, e, ds[0]), e, ds[1..]);
    }
  }

  /** Direction `d` from `e` was dealt with: it repeats the last direction,
      the move is invalid, the moved board's key is visited, or the moved
      board scores no more than the running count. */
  ghost predicate Covered<B, K>(sp: Space<B, K>, e: Entry<B>, d: Direction, visited: set<K>, cur: nat)
  {
    || (|e.path| > 0 && d == e.path[|e.path| - 1])
    || sp.move(e.board, e.at, d).None?
    || sp.key(sp.move(e.board, e.at, d).value) in visited
    || sp.evaluate(sp.move(e.board, e.at, d).value).0 <= cur
  }

  /** Expanding an entry deals with every direction it offers: each one is
      skipped by one of the `continue`s of the loop, or its board's count is
      taken into the running count. */
  lemma {:induction false} ExpandCovers<B, K>(sp: Space<B, K>, st: Search<B, K>, e: Entry<B>, ds: seq<Direction>)
    ensures var r := Expand(sp, st, e, ds);
      forall d :: d in ds ==> Covered(sp, e, d, r.visited, r.cur)
    decreases |ds|
  {
    if ds != [] {
      var d := ds[0];
      var st1 := Offer(sp, st, e, d);
      if !(|e.path| > 0 && d == e.path[|e.path| - 1]) && sp.move(e.board, e.at, d).Some?
         && sp.key(sp.move(e.board, e.at, d).value) !in st.visited {
        OfferPushes(sp, st, e, d);
      }
      assert Covered(sp, e, d, st1.visited, st1.cur);
      ExpandCovers(sp, st1, e, ds[1..]);
      assert forall x :: x in ds ==> x == d || x in ds[1..];
    }
  }

  /** Every valid move of the orb from `start` on `board` reaches a visited
      board or a board scoring at most `cur`. */
  ghost predicate RootCovered<B, K>(sp: Space<B, K>, board: B, start: Coord, visited: set<K>, cur: nat)
  {
    forall d :: sp.move(board, start, d).Some? ==>
      sp.key(sp.move(board, start, d).value) in visited || sp.evaluate(sp.move(board, start, d).value).0 <= cur
  }

  /** `k` is the key of a board the search can have scored: the board that
      replaying some path of at most `maxPath` steps leaves. */
  ghost predicate Explored<B, K>(sp: Space<B, K>, root: (nat, B), start: Coord, maxPath: nat, k: K)
  {
    exists p: seq<Direction> :: |p| <= maxPath && Replay(sp, root, start, p).Some?
                                 && k == sp.key(Replay(sp, root, start, p).value.1)
  }

  /** Every key the search added to `visited0` is the key of a scored board
      it reached (line 130 adds the key after `calc_combos`). */
  ghost predicate VisitedWithin<B, K>(sp: Space<B, K>, root: (nat, B), start: Coord, maxPath: nat,
                                      visited0: set<K>, visited: set<K>)
  {
    forall k :: k in visited ==> k in visited0 || Explored(sp, root, start, maxPath, k)
  }

  /** A push adds only the key of the child's scored board. */
  lemma PushWithin<B, K>(sp: Space<B, K>, root: (nat, B), start: Coord, maxPath: nat, visited0: set<K>,
                         st: Search<B, K>, e: Entry<B>, d: Direction)
    requires Replays(sp, root, start, e) && e.at == Travel(start, e.path) && |e.path| < maxPath
    requires sp.move(e.board, e.at, d).Some?
    requires VisitedWithin(sp, root, start, maxPath, visited0, st.visited)
    ensures VisitedWithin(sp, root, start, maxPath, visited0,
                          Push(sp, st, e, d, sp.evaluate(sp.move(e.board, e.at, d).value)).visited)
  {
    var ev := sp.evaluate(sp.move(e.board, e.at, d).value);
    ReplayChild(sp, root, start, e, d);
    var p := e.path + [d];
    assert Replay(sp, root, start, p) == Some(ev);
    assert Explored(sp, root, start, maxPath, sp.key(ev.1));
  }

  lemma OfferWithin<B, K>(sp: Space<B, K>, root: (nat, B), start: Coord, maxPath: nat, visited0: set<K>,
                          st: Search<B, K>, e: Entry<B>, d: Direction)
    requires Replays(sp, root, start, e) && e.at == Travel(start, e.path) && |e.path| < maxPath
    requires VisitedWithin(sp, root, start, maxPath, visited0, st.visited)
    ensures VisitedWithin(sp, root, start, maxPath, visited0, Offer(sp, st, e, d).visited)
  {
    if !(|e.path| > 0 && d == e.path[|e.path| - 1]) && sp.move(e.board, e.at, d).Some? {
      if sp.key(sp.move(e.board, e.at, d).value) !in st.visited {
        PushWithin(sp, root, start, maxPath, visited0, st, e, d);
      }
    }
  }

  /** Expanding an entry adds to `visited` only keys of boards it scored. */
  lemma {:induction false} ExpandWithin<B, K>(sp: Space<B, K>, root: (nat, B), start: Coord, maxPath: nat,
                                              visited0: set<K>, st: Search<B, K>, e: Entry<B>, ds: seq<Direction>)
    requires Replays(sp, root, start, e) && e.at == Travel(start, e.path) && |e.path| < maxPath
    requires VisitedWithin(sp, root, start, maxPath, visited0, st.visited)
    ensures VisitedWithin(sp, root, start, maxPath, visited0, Expand(sp, st, e, ds).visited)
    decreases |ds|
  {
    if ds != [] {
      OfferWithin(sp, root, start, maxPath, visited0, st, e, ds[0]);
      ExpandWithin(sp, root, start, maxPath, visited0, Offer(sp, st, e, ds[0]), e, ds[1..]);
    }
  }

  /** The larger of two combo counts. */
  function Larger(a: nat, b: nat): (r: nat)
    ensures r >= a && r >= b && (r == a || r == b)
  {
    if a > b then a else b
  }

  /** The entry `heappop` takes: the one with the smallest priority. */
  function Top<B>(h: seq<Entry<B>>): Entry<B>
    requires |h| > 0
  {
    h[MinIndex(h)]
  }

  /** The state once the top entry is popped and its count taken when it
      beats the running one. */
  function Popped<B, K>(st: Search<B, K>): (r: Search<B, K>)
    requires |st.frontier| > 0
    ensures r.visited == st.visited && st.cur <= r.cur
  {
    var e := Top(st.frontier);
    var combos := Abs(e.priority);
    Search(RemoveAt(st.frontier, MinIndex(st.frontier)), st.visited, Larger(combos, st.cur),
           if combos > st.cur then e.path else st.best)
  }

  /** One turn of the `while` loop of `_solve_from`: pop the top entry and
      offer every direction from it unless its path is already full. */
  function Round<B(==), K(==)>(sp: Space<B, K>, st: Search<B, K>, maxPath: nat): (r: Search<B, K>)
    requires |st.frontier| > 0
    ensures st.visited <= r.visited && st.cur <= r.cur
  {
    var e := Top(st.frontier);
    if |e.path| < maxPath then Expand(sp, Popped(st), e, AllDirections) else Popped(st)
  }

  /** Popping keeps the search's invariants and removes the top entry's weight. */
  lemma PopKeeps<B, K>(st: Search<B, K>, start: Coord, maxPath: nat)
    requires |st.frontier| > 0
    requires AllOk(st.frontier, start, maxPath) && Below(st.frontier, st.cur)
    requires |st.frontier| <= Width
    requires |st.best| <= maxPath && NoRepeat(st.best)
    ensures var r := Popped(st);
      && EntryOk(Top(st.frontier), start, maxPath)
      && AllOk(r.frontier, start, maxPath) && Below(r.frontier, r.cur)
      && |r.frontier| < Width
      && |r.best| <= maxPath && NoRepeat(r.best)
      && Weight(r.frontier, maxPath) + EntryWeight(Top(st.frontier), maxPath) == Weight(st.frontier, maxPath)
  {
    WeightRemoveAt(st.frontier, MinIndex(st.frontier), maxPath);
  }

  /** A turn keeps the search's invariants and strictly lowers the weight of
      the frontier. */
  lemma RoundKeeps<B, K>(sp: Space<B, K>, st: Search<B, K>, start: Coord, maxPath: nat)
    requires |st.frontier| > 0
    requires AllOk(st.frontier, start, maxPath) && Below(st.frontier, st.cur)
    requires |st.frontier| <= Width
    requires |st.best| <= maxPath && NoRepeat(st.best)
    ensures var r := Round(sp, st, maxPath);
      && AllOk(r.frontier, start, maxPath) && Below(r.frontier, r.cur)
      && |r.frontier| <= Width
      && |r.best| <= maxPath && NoRepeat(r.best)
      && Weight(r.frontier, maxPath) < Weight(st.frontier, maxPath)
  {
    PopKeeps(st, start, maxPath);
    if |Top(st.frontier).path| < maxPath {
      GrowKeeps(sp, Popped(st), Top(st.frontier), AllDirections, start, maxPath);
    }
  }

  /** Offering four directions from a popped entry that may still grow
      adds less than the entry's own weight. */
  lemma GrowKeeps<B, K>(sp: Space<B, K>, st: Search<B, K>, e: Entry<B>, ds: seq<Direction>,
                        start: Coord, maxPath: nat)
    requires |ds| == 4
    requires EntryOk(e, start, maxPath) && |e.path| < maxPath
    requires AllOk(st.frontier, start, maxPath) && Below(st.frontier, st.cur)
    requires |st.frontier| <= Width
    requires |st.best| <= maxPath && NoRepeat(st.best)
    ensures var r := Expand(sp, st, e, ds);
      && AllOk(r.frontier, start, maxPath) && Below(r.frontier, r.cur)
      && |r.frontier| <= Width
      && |r.best| <= maxPath && NoRepeat(r.best)
      && Weight(r.frontier, maxPath) < Weight(st.frontier, maxPath) + EntryWeight(e, maxPath)
  {
    var unit := Pow5(maxPath - |e.path| - 1);
    ExpandKeeps(sp, st, e, ds, start, maxPath);
    assert EntryWeight(e, maxPath) == 5 * unit;
  }

  /** A turn keeps every held entry a replay of its path, and the running
      best a path that replays to the running count. */
  lemma RoundReplays<B, K>(sp: Space<B, K>, root: (nat, B), st: Search<B, K>, start: Coord, maxPath: nat)
    requires |st.frontier| > 0
    requires AllOk(st.frontier, start, maxPath)
    requires AllReplay(sp, root, start, st.frontier) && Scores(sp, root, start, st.best, st.cur)
    ensures var r := Round(sp, st, maxPath);
      AllReplay(sp, root, start, r.frontier) && Scores(sp, root, start, r.best, r.cur)
  {
    var e := Top(st.frontier);
    assert Replays(sp, root, start, e) && EntryOk(e, start, maxPath);
    assert AllReplay(sp, root, start, Popped(st).frontier);
    if |e.path| < maxPath {
      ExpandReplays(sp, root, start, Popped(st), e, AllDirections);
    }
  }

  /** A turn adds to `visited` only keys of boards it scored. */
  lemma RoundWithin<B, K>(sp: Space<B, K>, root: (nat, B), st: Search<B, K>, start: Coord, maxPath: nat,
                          visited0: set<K>)
    requires |st.frontier| > 0
    requires AllOk(st.frontier, start, maxPath) && AllReplay(sp, root, start, st.frontier)
    requires VisitedWithin(sp, root, start, maxPath, visited0, st.visited)
    ensures VisitedWithin(sp, root, start, maxPath, visited0, Round(sp, st, maxPath).visited)
  {
    var e := Top(st.frontier);
    assert Replays(sp, root, start, e) && EntryOk(e, start, maxPath);
    if |e.path| < maxPath {
      ExpandWithin(sp, root, start, maxPath, visited0, Popped(st), e, AllDirections);
    }
  }

  /** The first turn, from the initial entry alone, deals with every valid
      first move when the path may grow at all. */
  lemma RoundCovers<B, K>(sp: Space<B, K>, st: Search<B, K>, maxPath: nat)
    requires |st.frontier| == 1 && st.frontier[0].path == [] && maxPath > 0
    ensures var r := Round(sp, st, maxPath);
      RootCovered(sp, st.frontier[0].board, st.frontier[0].at, r.visited, r.cur)
  {
    var e := st.frontier[0];
    assert Top(st.frontier) == e;
    ExpandCovers(sp, Popped(st), e, AllDirections);
    RootCoveredFromExpand(sp, e, Round(sp, st, maxPath).visited, Round(sp, st, maxPath).cur);
  }

  /** `_solve_from(start, max_path, b, visited)`. Returns the best combo count
      and its path, together with the board `b` becomes (its combos cleared by
      the first `calc_combos`), the grown visited set and the frontier left
      when the loop stopped. The count is what replaying the path scores, and
      every first move was either explored or skipped by one of the loop's
      `continue`s. */
  method SolveFrom<B(==), K(==)>(sp: Space<B, K>, start: Coord, maxPath: nat, b: B, visited0: set<K>)
    returns (cur: nat, best: seq<Direction>, board: B, visited: set<K>, frontier: seq<Entry<B>>)
    ensures board == sp.evaluate(b).1
    ensures cur >= sp.evaluate(b).0
    ensures |best| <= maxPath && NoRepeat(best)
    ensures visited0 + {sp.key(board)} <= visited
    ensures Scores(sp, sp.evaluate(b), start, best, cur)
    ensures AllReplay(sp, sp.evaluate(b), start, frontier) && Below(frontier, cur)
    ensures frontier == [] || cur >= sp.bound(b)
    ensures maxPath > 0 && sp.evaluate(b).0 < sp.bound(b) ==> RootCovered(sp, board, start, visited, cur)
    ensures VisitedWithin(sp, sp.evaluate(b), start, maxPath, visited0, visited)
  {
    var bound := sp.bound(b);
    var ev := sp.evaluate(b);
    board := ev.1;
    var root := Entry(ev.0, board, [], start);
    var st := Search([root], visited0 + {sp.key(board)}, ev.0, []);
    assert Replay(sp, ev, start, []) == Some(ev);
    assert Explored(sp, ev, start, maxPath, sp.key(board));
    ghost var expanded := false;
    while |st.frontier| > 0 && st.cur < bound
      invariant AllOk(st.frontier, start, maxPath) && Below(st.frontier, st.cur)
      invariant AllReplay(sp, ev, start, st.frontier) && Scores(sp, ev, start, st.best, st.cur)
      invariant |st.frontier| <= Width
      invariant |st.best| <= maxPath && NoRepeat(st.best)
      invariant st.cur >= ev.0
      invariant visited0 + {sp.key(board)} <= st.visited
      invariant !expanded ==> st.frontier == [root] && st.cur == ev.0
      invariant expanded && maxPath > 0 ==> RootCovered(sp, board, start, st.visited, st.cur)
      invariant VisitedWithin(sp, ev, start, maxPath, visited0, st.visited)
      decreases Weight(st.frontier, maxPath)
    {
      RoundKeeps(sp, st, start, maxPath);
      RoundReplays(sp, ev, st, start, maxPath);
      RoundWithin(sp, ev, st, start, maxPath, visited0);
      if !expanded && maxPath > 0 {
        RoundCovers(sp, st, maxPath);
      }
      st := Round(sp, st, maxPath);
      expanded := true;
    }
    cur, best, visited, frontier := st.cur, st.best, st.visited, st.frontier;
  }

  /** Having dealt with all four directions from the initial entry covers
      every valid first move. */
  lemma RootCoveredFromExpand<B, K>(sp: Space<B, K>, e: Entry<B>, visited: set<K>, cur: nat)
    requires e.path == []
    requires forall d :: d in AllDirections ==> Covered(sp, e, d, visited, cur)
    ensures RootCovered(sp, e.board, e.at, visited, cur)
  {
    forall d | sp.move(e.board, e.at, d).Some?
      ensures sp.key(sp.move(e.board, e.at, d).value) in visited || sp.evaluate(sp.move(e.board, e.at, d).value).0 <= cur
    {
      DirectionsDistinct(d, d);
    }
  }

  /** The start cells in the order `solve` tries them: row by row, left to right. */
  function Starts(raw: Grid): (r: seq<Coord>)
  {
    if raw == [] then []
    else Starts(raw[..|raw| - 1]) + seq(|raw[|raw| - 1]|, x => Coord(x, |raw| - 1))
  }

  predicate OnBoard(raw: Grid, c: Coord)
  {
    0 <= c.y < |raw| && 0 <= c.x < |raw[c.y]|
  }

  /** The `k`-th start cell holds the `k`-th orb of the row-major flattening:
      every cell is tried, in reading order. */
  lemma {:induction false} StartsCells(raw: Grid)
    ensures |Starts(raw)| == |Flatten(raw)|
    ensures forall k :: 0 <= k < |Starts(raw)| ==>
      OnBoard(raw, Starts(raw)[k]) && raw[Starts(raw)[k].y][Starts(raw)[k].x] == Flatten(raw)[k]
  {
    if raw != [] {
      var n := |raw|;
      var prev := raw[..n - 1];
      StartsCells(prev);
      assert Flatten(raw) == Flatten(prev) + raw[n - 1];
      forall k | 0 <= k < |Starts(raw)|
        ensures OnBoard(raw, Starts(raw)[k]) && raw[Starts(raw)[k].y][Starts(raw)[k].x] == Flatten(raw)[k]
      {
        if k < |Starts(prev)| {
          assert Starts(raw)[k] == Starts(prev)[k];
          assert prev[Starts(prev)[k].y] == raw[Starts(prev)[k].y];
        }
      }
    }
  }

  /** The start cells are in strictly increasing reading order, so no cell is
      tried twice. */
  lemma {:induction false} StartsOrdered(raw: Grid)
    ensures forall i, j :: 0 <= i < j < |Starts(raw)| ==>
              Before(Starts(raw)[i].y, Starts(raw)[i].x, Starts(raw)[j].y, Starts(raw)[j].x)
  {
    if raw != [] {
      var n := |raw|;
      var prev := raw[..n - 1];
      StartsOrdered(prev);
      StartsCells(prev);
    }
  }

  /** `k` is the first position holding the largest value of `s`. */
  predicate FirstMax(s: seq<nat>, k: int)
  {
    && 0 <= k < |s|
    && (forall j :: 0 <= j < k ==> s[j] < s[k])
    && (forall j :: k < j < |s| ==> s[j] <= s[k])
  }

  /** `boards` is the sequence of boards the searches are handed: the first
      is `b`, and each later one is what the search before it left behind. */
  ghost predicate Handed<B, K>(sp: Space<B, K>, b: B, boards: seq<B>)
  {
    && (|boards| > 0 ==> boards[0] == b)
    && forall k :: 0 < k < |boards| ==> boards[k] == sp.evaluate(boards[k - 1]).1
  }

  /** The search from the `k`-th start, handed `boards[k]`, reached
      `results[k]` combos along `paths[k]`. */
  predicate Reached<B, K>(sp: Space<B, K>, starts: seq<Coord>, maxPath: nat,
                          results: seq<nat>, paths: seq<seq<Direction>>, boards: seq<B>)
  {
    && |results| == |paths| == |boards| <= |starts|
    && forall k :: 0 <= k < |results| ==>
         && results[k] >= sp.evaluate(boards[k]).0
         && Scores(sp, sp.evaluate(boards[k]), starts[k], paths[k], results[k])
         && |paths[k]| <= maxPath && NoRepeat(paths[k])
  }

  lemma HandedNext<B, K>(sp: Space<B, K>, b: B, boards: seq<B>, board: B)
    requires Handed(sp, b, boards)
    requires board == if boards == [] then b else sp.evaluate(boards[|boards| - 1]).1
    ensures Handed(sp, b, boards + [board])
  {
  }

  lemma ReachedNext<B, K>(sp: Space<B, K>, starts: seq<Coord>, maxPath: nat,
                          results: seq<nat>, paths: seq<seq<Direction>>, boards: seq<B>,
                          c: nat, p: seq<Direction>, board: B)
    requires Reached(sp, starts, maxPath, results, paths, boards) && |results| < |starts|
    requires c >= sp.evaluate(board).0 && Scores(sp, sp.evaluate(board), starts[|results|], p, c)
    requires |p| <= maxPath && NoRepeat(p)
    ensures Reached(sp, starts, maxPath, results + [c], paths + [p], boards + [board])
  {
  }

  /** The visited set the `k`-th search was handed: empty for the first,
      and what the search before it left for the others. */
  function Prior<K>(visiteds: seq<set<K>>, k: nat): set<K>
    requires k <= |visiteds|
  {
    if k == 0 then {} else visiteds[k - 1]
  }

  /** What the search from the `k`-th start did to the shared visited set:
      it recorded its scored initial board, added only keys of boards it
      scored, and dealt with every valid first move when it could move. */
  ghost predicate Searched<B, K>(sp: Space<B, K>, starts: seq<Coord>, maxPath: nat,
                                 boards: seq<B>, results: seq<nat>, visiteds: seq<set<K>>, k: nat)
    requires k < |boards| == |results| == |visiteds| <= |starts|
  {
    var ev := sp.evaluate(boards[k]);
    && Prior(visiteds, k) + {sp.key(ev.1)} <= visiteds[k]
    && VisitedWithin(sp, ev, starts[k], maxPath, Prior(visiteds, k), visiteds[k])
    && (maxPath > 0 && ev.0 < sp.bound(boards[k]) ==> RootCovered(sp, ev.1, starts[k], visiteds[k], results[k]))
  }

  ghost predicate AllSearched<B, K>(sp: Space<B, K>, starts: seq<Coord>, maxPath: nat,
                                    boards: seq<B>, results: seq<nat>, visiteds: seq<set<K>>)
  {
    && |boards| == |results| == |visiteds| <= |starts|
    && forall k :: 0 <= k < |visiteds| ==> Searched(sp, starts, maxPath, boards, results, visiteds, k)
  }

  lemma SearchedNext<B, K>(sp: Space<B, K>, starts: seq<Coord>, maxPath: nat,
                           boards: seq<B>, results: seq<nat>, visiteds: seq<set<K>>,
                           board: B, c: nat, visited: set<K>)
    requires AllSearched(sp, starts, maxPath, boards, results, visiteds) && |visiteds| < |starts|
    requires var ev := sp.evaluate(board);
      && Prior(visiteds, |visiteds|) + {sp.key(ev.1)} <= visited
      && VisitedWithin(sp, ev, starts[|visiteds|], maxPath, Prior(visiteds, |visiteds|), visited)
      && (maxPath > 0 && ev.0 < sp.bound(board) ==> RootCovered(sp, ev.1, starts[|visiteds|], visited, c))
    ensures AllSearched(sp, starts, maxPath, boards + [board], results + [c], visiteds + [visited])
  {
    var boards', results', visiteds' := boards + [board], results + [c], visiteds + [visited];
    forall k | 0 <= k < |visiteds'|
      ensures Searched(sp, starts, maxPath, boards', results', visiteds', k)
    {
      if k < |visiteds| {
        assert Searched(sp, starts, maxPath, boards, results, visiteds, k);
        assert Prior(visiteds', k) == Prior(visiteds, k);
      }
    }
  }

  /** The answer `solve` holds after the starts behind `results`: none while
      every count is zero, otherwise the first start with the largest count
      `max`, found at position `at`, and its path. */
  predicate Picked(starts: seq<Coord>, results: seq<nat>, paths: seq<seq<Direction>>,
                   path: Option<seq<Direction>>, start: Option<Coord>, max: nat, at: nat)
  {
    && |results| == |paths| <= |starts|
    && (start.None? <==> max == 0)
    && (path.Some? <==> start.Some?)
    && (start.None? ==> forall j :: 0 <= j < |results| ==> results[j] == 0)
    && (start.Some? ==> && FirstMax(results, at) && results[at] == max > 0
                        && start.value == starts[at] && path == Some(paths[at]))
  }

  /** The `if combos > max_combos` update: a strictly larger count takes over
      the answer, a tie or a smaller count leaves it alone. */
  lemma PickedNext(starts: seq<Coord>, results: seq<nat>, paths: seq<seq<Direction>>,
                   path: Option<seq<Direction>>, start: Option<Coord>, max: nat, at: nat,
                   c: nat, p: seq<Direction>)
    requires Picked(starts, results, paths, path, start, max, at) && |results| < |starts|
    ensures c > max ==> Picked(starts, results + [c], paths + [p], Some(p), Some(starts[|results|]), c, |results|)
    ensures c <= max ==> Picked(starts, results + [c], paths + [p], path, start, max, at)
  {
  }

  /** `solve(raw_orbs, max_path)`: search from every start cell in turn,
      sharing one board and one visited set, and keep the first start whose
      count is strictly the largest. With no positive count the answer is
      `(None, None)`. Besides the answer, `results[k]` is the count the
      `k`-th start reached, `paths[k]` the path that reached it and
      `boards[k]` the board that start's search was handed and `visiteds[k]`
      the shared visited set once that search was done. */
  method Solve<B(==), K(==)>(sp: Space<B, K>, raw: Grid, b: B, maxPath: nat)
    returns (path: Option<seq<Direction>>, start: Option<Coord>,
             results: seq<nat>, paths: seq<seq<Direction>>, boards: seq<B>, visiteds: seq<set<K>>)
    ensures |results| == |Starts(raw)|
    ensures Handed(sp, b, boards) && Reached(sp, Starts(raw), maxPath, results, paths, boards)
    ensures AllSearched(sp, Starts(raw), maxPath, boards, results, visiteds)
    ensures start.None? <==> forall k :: 0 <= k < |results| ==> results[k] == 0
    ensures start.Some? ==> exists k :: && FirstMax(results, k) && results[k] > 0
                                        && start.value == Starts(raw)[k] && path == Some(paths[k])
    ensures path.Some? <==> start.Some?
  {
    var starts := Starts(raw);
    var board := b;
    var visited: set<K> := {};
    var max: nat := 0;
    var at: nat := 0;
    path, start, results, paths, boards, visiteds := None, None, [], [], [], [];
    var k := 0;
    while k < |starts|
      invariant 0 <= k <= |starts| && |results| == k
      invariant Handed(sp, b, boards) && Reached(sp, starts, maxPath, results, paths, boards)
      invariant AllSearched(sp, starts, maxPath, boards, results, visiteds)
      invariant visited == Prior(visiteds, k)
      invariant board == if k == 0 then b else sp.evaluate(boards[k - 1]).1
      invariant Picked(starts, results, paths, path, start, max, at)
    {
      var c, p, board', visited', left := SolveFrom(sp, starts[k], maxPath, board, visited);
      HandedNext(sp, b, boards, board);
      ReachedNext(sp, starts, maxPath, results, paths, boards, c, p, board);
      PickedNext(starts, results, paths, path, start, max, at, c, p);
      SearchedNext(sp, starts, maxPath, boards, results, visiteds, board, c, visited');
      visiteds := visiteds + [visited'];
      boards := boards + [board];
      results := results + [c];
      paths := paths + [p];
      board, visited := board', visited';
      if c > max {
        max := c;
        path := Some(p);
        start := Some(starts[k]);
        at := k;
      }
      k := k + 1;
    }
  }
}
