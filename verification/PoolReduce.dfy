/**
  `drain` as the combine step of a parallel reduction: pooled accumulators hold partial
  results, and which item went into which accumulator does not matter
  (examples/drain_reduce.rs).
 */
module PoolReduce {
  import opened Sums
  import opened PoolSteps
  import opened PoolConservation
  import opened PoolMemory
  import PoolLeases
  import PoolSolo
  import M = PoolModel

  datatype Monoid<!V> = Monoid(zero: V, add: (V, V) -> V)

  ghost predicate Commutative<V(!new)>(mon: Monoid<V>)
  {
    && (forall x :: mon.add(mon.zero, x) == x)
    && (forall x, y :: mon.add(x, y) == mon.add(y, x))
    && (forall x, y, z :: mon.add(mon.add(x, y), z) == mon.add(x, mon.add(y, z)))
  }

  function Fold<V>(mon: Monoid<V>, s: seq<V>): V
  {
    if s == [] then mon.zero else mon.add(Fold(mon, s[..|s| - 1]), s[|s| - 1])
  }

  /** Adding into one accumulator adds to the fold. */
  lemma {:induction false} FoldAddInto<V(!new)>(mon: Monoid<V>, s: seq<V>, i: nat, x: V)
    requires Commutative(mon) && i < |s|
    ensures Fold(mon, s[i := mon.add(s[i], x)]) == mon.add(Fold(mon, s), x)
  {
    var n := |s| - 1;
    var t := s[i := mon.add(s[i], x)];
    var f := Fold(mon, s[..n]);
    if i == n {
      assert t[..n] == s[..n];
    } else {
      assert t[..n] == s[..n][i := mon.add(s[..n][i], x)];
      FoldAddInto(mon, s[..n], i, x);
      assert mon.add(mon.add(f, x), s[n]) == mon.add(f, mon.add(x, s[n]))
             == mon.add(f, mon.add(s[n], x)) == mon.add(mon.add(f, s[n]), x);
    }
  }

  function Without<T>(s: seq<T>, p: nat): seq<T>
    requires p < |s|
  {
    s[..p] + s[p + 1..]
  }

  /** Any one summand can be added last. */
  lemma {:induction false} FoldRemove<V(!new)>(mon: Monoid<V>, s: seq<V>, p: nat)
    requires Commutative(mon) && p < |s|
    ensures Fold(mon, s) == mon.add(Fold(mon, Without(s, p)), s[p])
  {
    var n := |s| - 1;
    if p == n {
      assert Without(s, p) == s[..n];
    } else {
      var w := Without(s, p);
      assert w[..|w| - 1] == Without(s[..n], p) && w[|w| - 1] == s[n];
      FoldRemove(mon, s[..n], p);
      var f, x, y := Fold(mon, Without(s[..n], p)), s[p], s[n];
      assert mon.add(mon.add(f, x), y) == mon.add(f, mon.add(x, y)) == mon.add(f, mon.add(y, x))
             == mon.add(mon.add(f, y), x);
    }
  }

  lemma MultisetWithout<T>(s: seq<T>, p: nat)
    requires p < |s|
    ensures multiset(Without(s, p)) == multiset(s) - multiset{s[p]} && s[p] in multiset(s)
  {
    assert s == s[..p] + [s[p]] + s[p + 1..];
  }

  /** The order of the summands does not matter. */
  lemma {:induction false} FoldPermuted<V(!new)>(mon: Monoid<V>, a: seq<V>, b: seq<V>)
    requires Commutative(mon) && multiset(a) == multiset(b)
    ensures Fold(mon, a) == Fold(mon, b)
  {
    if b == [] {
      assert |multiset(a)| == 0;
    } else {
      var n := |b| - 1;
      assert b == b[..n] + [b[n]];
      assert multiset(b) == multiset(b[..n]) + multiset{b[n]};
      assert b[n] in multiset(b);
      var p :| 0 <= p < |a| && a[p] == b[n];
      MultisetWithout(a, p);
      assert multiset(Without(a, p)) == multiset(b[..n]);
      FoldRemove(mon, a, p);
      FoldPermuted(mon, Without(a, p), b[..n]);
    }
  }

  lemma FoldZero<V(!new)>(mon: Monoid<V>, s: seq<V>)
    requires Commutative(mon)
    ensures Fold(mon, s + [mon.zero]) == Fold(mon, s)
  {
    assert (s + [mon.zero])[..|s|] == s;
    assert mon.add(Fold(mon, s), mon.zero) == mon.add(mon.zero, Fold(mon, s));
  }

  // ---- the map phase ----

  /** What the workers do: lease, add an item into the leased accumulator, drop. */
  datatype Work<V> = Pool(act: Action) | Add(call: nat, item: V)

  predicate MapPhase(a: Action)
  {
    a.StartGet? || a.StartStock? || a.StartCount? || a.Step? || a.Drop? || a.Collect?
  }

  ghost predicate InPhase<V>(ws: seq<Work<V>>)
  {
    forall w | w in ws && w.Pool? :: MapPhase(w.act)
  }

  predicate CanAdd<V>(m: Mem<V>, w: Work<V>)
  {
    w.Add? && w.call < |m.ctl.calls| && m.ctl.calls[w.call].Held? && m.ctl.calls[w.call].buf < |m.heap|
  }

  /** The initializer yields the identity. */
  function AsMem<V>(mon: Monoid<V>, m: Mem<V>, w: Work<V>): MemAction<V>
  {
    match w
    case Pool(act) => Run(act, mon.zero)
    case Add(i, x) => Write(i, if CanAdd(m, w) then mon.add(m.heap[m.ctl.calls[i].buf], x) else x)
  }

  function Perform<V>(mon: Monoid<V>, m: Mem<V>, ws: seq<Work<V>>): (r: Mem<V>)
    requires |m.ctl.piles| > 1
    ensures |r.ctl.piles| == |m.ctl.piles|
  {
    if ws == [] then m else
    var t := Perform(mon, m, ws[..|ws| - 1]);
    ApplyMem(t, AsMem(mon, t, ws[|ws| - 1]))
  }

  /** The items that have been added, in the order it happened. */
  function Items<V>(mon: Monoid<V>, m: Mem<V>, ws: seq<Work<V>>): seq<V>
    requires |m.ctl.piles| > 1
  {
    if ws == [] then [] else
    Items(mon, m, ws[..|ws| - 1])
    + if CanAdd(Perform(mon, m, ws[..|ws| - 1]), ws[|ws| - 1]) then [ws[|ws| - 1].item] else []
  }

  /** Adding through a guard adds to its accumulator, to no other, and counts as done. */
  lemma AddsItem<V(!new)>(mon: Monoid<V>, m: Mem<V>, ws: seq<Work<V>>, i: nat, x: V)
    requires |m.ctl.piles| > 1 && Sound(Perform(mon, m, ws))
    requires var t := Perform(mon, m, ws); i < |t.ctl.calls| && t.ctl.calls[i].Held?
    ensures var t, r := Perform(mon, m, ws), Perform(mon, m, ws + [Add(i, x)]);
            var b := t.ctl.calls[i].buf;
            && b < |t.heap| && r == t.(heap := t.heap[b := mon.add(t.heap[b], x)])
            && Items(mon, m, ws + [Add(i, x)]) == Items(mon, m, ws) + [x]
  {
    var t := Perform(mon, m, ws);
    var b := t.ctl.calls[i].buf;
    assert IsAt(t.ctl, b, InFlight(i));
    Exclusivity(t.ctl, b, InFlight(i), InFlight(i));
    assert (ws + [Add(i, x)])[..|ws|] == ws;
  }

  predicate LeasesAndCounts(c: Call)
  {
    !c.Reset? && !c.Rollback? && !c.Drain? && !c.Drained?
  }

  /** No buffer has left the pool and its guards. */
  ghost predicate NothingLost(s: State)
  {
    && s.cap == Uncapped && !s.hook && s.hands == [] && s.gone == []
    && s.log.foreign == 0 && s.log.initPanics == 0
    && forall i | 0 <= i < |s.calls| :: LeasesAndCounts(s.calls[i])
  }

  lemma MovedKeeps(s: State, a: Action)
    requires InRange(s) && NothingLost(s) && MapPhase(a) && Target(a).Some? && Enabled(s, a)
    ensures var e := EffectOf(s, a);
            && LeasesAndCounts(e.call) && e.lost == [] && e.kept == []
            && e.log.foreign == s.log.foreign && e.log.initPanics == s.log.initPanics
            && !Resets(s, a)
  {
    assert CallInRange(s.calls[Target(a).value], |s.piles|);
    assert LeasesAndCounts(s.calls[Target(a).value]);
  }

  lemma ApplyKeeps(s: State, a: Action)
    requires InRange(s) && NothingLost(s) && MapPhase(a)
    ensures NothingLost(Apply(s, a)) && !Resets(s, a)
  {
    hide Advance;
    if Enabled(s, a) && Target(a).Some? {
      MovedKeeps(s, a);
    }
  }

  /** At every moment of the map phase, over every interleaving, the accumulators (idle,
      leased or in between) fold to the items added so far, and none has been lost. */
  lemma {:induction false} PartialsHoldTheTotal<V(!new)>(mon: Monoid<V>, n: nat, ws: seq<Work<V>>)
    requires n > 0 && Commutative(mon)
    requires InPhase(ws)
    ensures var m := Mem<V>.Mem(New(n), []); var t := Perform(mon, m, ws);
            && Sound(t) && NothingLost(t.ctl)
            && Fold(mon, t.heap) == Fold(mon, Items(mon, m, ws))
  {
    hide Commutative, Sound, NothingLost, MapPhase;
    if ws == [] {
      NewHoldsNothing(mon, n);
    } else {
      var m, k := Mem<V>.Mem(New(n), []), |ws| - 1;
      PartialsHoldTheTotal(mon, n, ws[..k]);
      var t, w := Perform(mon, m, ws[..k]), ws[k];
      hide ApplyMem, AsMem, CanAdd;
      WorkKeepsTotal(mon, t, w);
      if CanAdd(t, w) {
        FoldAppend(mon, Items(mon, m, ws[..k]), w.item);
      } else {
        assert Items(mon, m, ws) == Items(mon, m, ws[..k]);
      }
    }
  }

  lemma NewHoldsNothing<V>(mon: Monoid<V>, n: nat)
    requires n > 0
    ensures var m := Mem<V>.Mem(New(n), []);
            && Sound(m) && NothingLost(m.ctl)
            && Perform(mon, m, []) == m && Items(mon, m, []) == []
  {
    NewSound<V>(n);
  }

  lemma FoldAppend<V>(mon: Monoid<V>, s: seq<V>, x: V)
    ensures Fold(mon, s + [x]) == mon.add(Fold(mon, s), x)
  {
    assert (s + [x])[..|s|] == s;
  }

  lemma WorkKeepsTotal<V(!new)>(mon: Monoid<V>, t: Mem<V>, w: Work<V>)
    requires Sound(t) && NothingLost(t.ctl) && Commutative(mon) && (w.Pool? ==> MapPhase(w.act))
    ensures var r := ApplyMem(t, AsMem(mon, t, w));
            && Sound(r) && NothingLost(r.ctl)
            && Fold(mon, r.heap) == if CanAdd(t, w) then mon.add(Fold(mon, t.heap), w.item) else Fold(mon, t.heap)
  {
    ApplySound(t, AsMem(mon, t, w));
    if w.Pool? {
      ApplyKeeps(t.ctl, w.act);
      MadeSteps(t.ctl, w.act);
      FoldZero(mon, t.heap);
    } else if CanAdd(t, w) {
      FoldAddInto(mon, t.heap, t.ctl.calls[w.call].buf, w.item);
    }
  }

  // ---- the combine step ----

  /** Every id names an accumulator. */
  predicate Named(ids: seq<nat>, made: nat)
  {
    forall k | 0 <= k < |ids| :: ids[k] < made
  }

  /** What the accumulators named in `ids` hold. */
  function Gathered<V>(heap: seq<V>, ids: seq<nat>): seq<V>
    requires Named(ids, |heap|)
  {
    seq(|ids|, k requires 0 <= k < |ids| => heap[ids[k]])
  }

  lemma NamedOnce(ids: seq<nat>, n: nat)
    requires forall b: nat :: Occ(b, ids) == if b < n then 1 else 0
    ensures Named(ids, n)
  {
    forall k | 0 <= k < |ids| ensures ids[k] < n { OccIn(ids[k], ids); }
  }

  /** Listing every accumulator exactly once, in any order, lists all they hold. */
  lemma {:induction false} GatheredIsPermutation<V>(heap: seq<V>, ids: seq<nat>)
    requires Named(ids, |heap|) && forall b: nat :: Occ(b, ids) == if b < |heap| then 1 else 0
    ensures multiset(Gathered(heap, ids)) == multiset(heap) && |ids| == |heap|
  {
    hide Occ, Without;
    if heap == [] {
    } else {
      var n := |heap| - 1;
      var p := LastNamed(ids, n);
      GatheredIsPermutation(heap[..n], Without(ids, p));
      GatheredWithout(heap, ids, p);
      MultisetWithout(Gathered(heap, ids), p);
      assert heap == heap[..n] + [heap[n]];
    }
  }

  lemma LastNamed(ids: seq<nat>, n: nat) returns (p: nat)
    requires forall b: nat :: Occ(b, ids) == if b < n + 1 then 1 else 0
    ensures p < |ids| && ids[p] == n && Named(Without(ids, p), n)
    ensures forall b: nat :: Occ(b, Without(ids, p)) == if b < n then 1 else 0
  {
    OccIn(n, ids);
    p :| 0 <= p < |ids| && ids[p] == n;
    forall b: nat ensures Occ(b, Without(ids, p)) == if b < n then 1 else 0 { OccRemove(b, ids, p); }
    NamedOnce(Without(ids, p), n);
  }

  lemma GatheredWithout<V>(heap: seq<V>, ids: seq<nat>, p: nat)
    requires heap != [] && p < |ids| && Named(ids, |heap|) && Named(Without(ids, p), |heap| - 1)
    ensures Gathered(heap[..|heap| - 1], Without(ids, p)) == Without(Gathered(heap, ids), p)
  {
  }

  lemma {:induction false} OccFlatten(b: nat, piles: seq<seq<nat>>)
    ensures Occ(b, M.Flatten(piles)) == Sum(InPile(b), piles)
  {
    if piles == [] {
    } else {
      OccFlatten(b, M.Front(piles));
      OccConcat(b, M.Flatten(M.Front(piles)), M.Last(piles));
    }
  }

  /** No guard is out and nothing is in flight: a phase boundary. */
  ghost predicate PhaseOver(s: State)
  {
    forall i | 0 <= i < |s.calls| :: s.calls[i].Done? || s.calls[i].Counted?
  }

  /** The pile contents then list every accumulator exactly once. */
  lemma DrainListsAll(s: State)
    requires InRange(s) && Conserved(s) && NothingLost(s) && PhaseOver(s)
    ensures forall b: nat :: Occ(b, M.Flatten(s.piles)) == if b < s.made then 1 else 0
  {
    forall b: nat ensures Occ(b, M.Flatten(s.piles)) == if b < s.made then 1 else 0 {
      OccFlatten(b, s.piles);
      forall c | c in s.calls ensures InCall(b)(c) == 0 {
        var i :| 0 <= i < |s.calls| && s.calls[i] == c;
        assert s.calls[i].Done? || s.calls[i].Counted?;
      }
      SumZero(InCall(b), s.calls);
      assert Copies(s, b) == if b < s.made then 1 else 0;
    }
  }

  /** What the drain after the phase returns. */
  function Partials(s: State): seq<nat>
    requires |s.piles| > 1
  {
    M.Drained(PoolSolo.Abs(s))
  }

  /** For any items, threads and interleaving: once the phase is over, a drain returns every
      accumulator ever made, once, and what they hold folds to the items added. */
  lemma PooledReduction<V(!new)>(mon: Monoid<V>, n: nat, ws: seq<Work<V>>)
    requires n > 0 && Commutative(mon)
    requires InPhase(ws)
    requires PhaseOver(Perform(mon, Mem<V>.Mem(New(n), []), ws).ctl)
    ensures var m := Mem<V>.Mem(New(n), []); var s := Perform(mon, m, ws);
            var t := PoolSolo.Alone(Apply(s.ctl, StartDrain), |s.ctl.calls|, |s.ctl.piles| + 1);
            && t.calls == s.ctl.calls + [Drained(Partials(s.ctl))]
            && Named(Partials(s.ctl), |s.heap|) && |Partials(s.ctl)| == |s.heap|
            && Fold(mon, Gathered(s.heap, Partials(s.ctl))) == Fold(mon, Items(mon, m, ws))
  {
    hide Commutative;
    var m := Mem<V>.Mem(New(n), []);
    var s := Perform(mon, m, ws);
    PartialsHoldTheTotal(mon, n, ws);
    var c := s.ctl;
    PoolSolo.DrainAlone(c);
    var t := PoolSolo.Alone(Apply(c, StartDrain), |c.calls|, |c.piles| + 1);
    assert PoolSolo.View(t).calls == t.calls;
    assert M.Front(c.piles) == PoolSolo.Abs(c).stacks;
    assert M.Flatten(c.piles) == Partials(c);
    DrainListsAll(c);
    NamedOnce(Partials(c), |s.heap|);
    GatheredIsPermutation(s.heap, Partials(c));
    FoldPermuted(mon, Gathered(s.heap, Partials(c)), s.heap);
  }

  /** The pooled total is the sequential one: for any data of which every item was added once,
      in whatever order the schedule chose, the partials fold to the fold of the data in its
      own order. */
  lemma ReductionIsSequentialFold<V(!new)>(mon: Monoid<V>, n: nat, ws: seq<Work<V>>, data: seq<V>)
    requires n > 0 && Commutative(mon)
    requires InPhase(ws)
    requires PhaseOver(Perform(mon, Mem<V>.Mem(New(n), []), ws).ctl)
    requires multiset(Items(mon, Mem<V>.Mem(New(n), []), ws)) == multiset(data)
    ensures var s := Perform(mon, Mem<V>.Mem(New(n), []), ws);
            Named(Partials(s.ctl), |s.heap|) && Fold(mon, Gathered(s.heap, Partials(s.ctl))) == Fold(mon, data)
  {
    hide Commutative;
    PooledReduction(mon, n, ws);
    FoldPermuted(mon, Items(mon, Mem<V>.Mem(New(n), []), ws), data);
  }

  // ---- how many partials there are ----

  /** The run as a run of the bare pool. */
  function PoolActions<V>(ws: seq<Work<V>>): seq<Action>
  {
    if ws == [] then [] else
    PoolActions(ws[..|ws| - 1]) + if ws[|ws| - 1].Pool? then [ws[|ws| - 1].act] else []
  }

  lemma {:induction false} PerformIsRun<V>(mon: Monoid<V>, m: Mem<V>, ws: seq<Work<V>>)
    requires |m.ctl.piles| > 1
    ensures Perform(mon, m, ws).ctl == Exec(m.ctl, PoolActions(ws))
  {
    if ws == [] {
    } else {
      var k := |ws| - 1;
      PerformIsRun(mon, m, ws[..k]);
      if ws[k].Pool? {
        ExecThen(m.ctl, PoolActions(ws[..k]), ws[k].act);
      } else {
        assert PoolActions(ws) == PoolActions(ws[..k]);
      }
    }
  }

  /** Nothing was capped, detached or lost, so the partials are all the accumulators the
      pool ever counted. */
  lemma PartialsAreAllocations<V(!new)>(mon: Monoid<V>, n: nat, ws: seq<Work<V>>)
    requires n > 0 && Commutative(mon)
    requires InPhase(ws)
    requires PhaseOver(Perform(mon, Mem<V>.Mem(New(n), []), ws).ctl)
    ensures var s := Perform(mon, Mem<V>.Mem(New(n), []), ws);
            |Partials(s.ctl)| == s.ctl.allocations == s.ctl.made
  {
    hide Commutative;
    var m := Mem<V>.Mem(New(n), []);
    var s := Perform(mon, m, ws);
    PartialsHoldTheTotal(mon, n, ws);
    PooledReduction(mon, n, ws);
    PerformIsRun(mon, m, ws);
    assert Reachable(s.ctl);
    PoolLeases.ReachableBooks(s.ctl);
    forall c | c in s.ctl.calls ensures PoolLeases.Initializing(c) == 0 {
      var i :| 0 <= i < |s.ctl.calls| && s.ctl.calls[i] == c;
      assert s.ctl.calls[i].Done? || s.ctl.calls[i].Counted?;
    }
    SumZero(PoolLeases.Initializing, s.ctl.calls);
  }

  // ---- and every data set has such runs ----

  function Lifted<V>(acts: seq<Action>): seq<Work<V>>
  {
    seq(|acts|, k requires 0 <= k < |acts| => Pool(acts[k]))
  }

  lemma PoolMoves<V>(mon: Monoid<V>, m: Mem<V>, ws: seq<Work<V>>, a: Action)
    requires |m.ctl.piles| > 1
    ensures Perform(mon, m, ws + [Pool(a)]).ctl == Apply(Perform(mon, m, ws).ctl, a)
    ensures Items(mon, m, ws + [Pool(a)]) == Items(mon, m, ws)
  {
    hide Apply;
    assert (ws + [Pool(a)])[..|ws|] == ws;
  }

  /** Pool actions move the pool and add nothing. */
  lemma {:induction false} LiftedRuns<V>(mon: Monoid<V>, m: Mem<V>, ws: seq<Work<V>>, acts: seq<Action>)
    requires |m.ctl.piles| > 1
    ensures Perform(mon, m, ws + Lifted(acts)).ctl == Exec(Perform(mon, m, ws).ctl, acts)
    ensures Items(mon, m, ws + Lifted(acts)) == Items(mon, m, ws)
  {
    hide Perform, Items, Apply;
    if acts == [] {
      assert ws + Lifted<V>([]) == ws;
    } else {
      var n := |acts| - 1;
      LiftedRuns(mon, m, ws, acts[..n]);
      PoolMoves(mon, m, ws + Lifted<V>(acts[..n]), acts[n]);
      assert ws + Lifted<V>(acts) == ws + Lifted<V>(acts[..n]) + [Pool(acts[n])];
    }
  }

  /** All leases over and at rest, `k` of them so far, and exactly the data added. */
  ghost predicate Worked<V>(mon: Monoid<V>, m: Mem<V>, ws: seq<Work<V>>, data: seq<V>)
    requires |m.ctl.piles| > 1
  {
    var c := Perform(mon, m, ws).ctl;
    && InPhase(ws) && PoolSolo.Resting(c) && |c.calls| == |data| && PhaseOver(c)
    && (forall i | 0 <= i < |c.calls| :: c.calls[i].Done?)
    && Items(mon, m, ws) == data
  }

  /** One worker leases, adds the item, and drops. */
  lemma WorksOne<V(!new)>(mon: Monoid<V>, n: nat, ws: seq<Work<V>>, data: seq<V>, x: V) returns (more: seq<Work<V>>)
    requires n > 0 && Commutative(mon) && Worked(mon, Mem<V>.Mem(New(n), []), ws, data)
    ensures Worked(mon, Mem<V>.Mem(New(n), []), more, data + [x])
  {
    hide Commutative, Apply, Exec, Perform, Items, PoolSolo.Alone;
    var m: Mem<V> := Mem(New(n), []);
    var t, k := Perform(mon, m, ws).ctl, |data|;
    var lease := PoolSolo.OpActions(t, PoolSolo.DoLease(0));
    LiftedRuns(mon, m, ws, lease);
    PoolSolo.SoloIsRun(t, PoolSolo.DoLease(0));
    PoolSolo.GetAlone(t, 0);
    var u := PoolSolo.Solo(t, PoolSolo.DoLease(0));
    assert PoolSolo.View(u).calls == u.calls && u.calls[k].Held?;
    var leased := ws + Lifted(lease);
    PhaseGrows(ws, lease);
    PartialsHoldTheTotal(mon, n, leased);
    AddsItem(mon, m, leased, k, x);
    var added := leased + [Add(k, x)];
    var ret := PoolSolo.OpActions(u, PoolSolo.DoReturn(k, 0));
    LiftedRuns(mon, m, added, ret);
    PoolSolo.SoloIsRun(u, PoolSolo.DoReturn(k, 0));
    PoolSolo.DropAlone(u, k, 0);
    var v := PoolSolo.Solo(u, PoolSolo.DoReturn(k, 0));
    assert PoolSolo.View(v).calls == v.calls;
    PhaseGrows(added, ret);
    more := added + Lifted(ret);
  }

  lemma PhaseGrows<V>(ws: seq<Work<V>>, acts: seq<Action>)
    requires InPhase(ws) && forall a | a in acts :: MapPhase(a)
    ensures InPhase(ws + Lifted(acts))
  {
    forall w | w in ws + Lifted<V>(acts) && w.Pool? ensures MapPhase(w.act) {
      if w !in ws {
        var k :| 0 <= k < |acts| && w == Pool(acts[k]);
        assert acts[k] in acts;
      }
    }
  }

  /** For any data there is a run that adds every item once and ends its phase, so that the
      reduction is about something. */
  lemma {:induction false} SomeRunAddsAll<V(!new)>(mon: Monoid<V>, n: nat, data: seq<V>) returns (ws: seq<Work<V>>)
    requires n > 0 && Commutative(mon)
    ensures Worked(mon, Mem<V>.Mem(New(n), []), ws, data)
  {
    if data == [] {
      ws := [];
      NewRests(n);
    } else {
      hide Worked, Commutative;
      var before := SomeRunAddsAll(mon, n, data[..|data| - 1]);
      ws := WorksOne(mon, n, before, data[..|data| - 1], data[|data| - 1]);
      assert data[..|data| - 1] + [data[|data| - 1]] == data;
    }
  }

  lemma NewRests(n: nat)
    requires n > 0
    ensures PoolSolo.Resting(New(n)) && New(n).calls == []
  {
  }
}
