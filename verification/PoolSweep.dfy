/**
  `drain` and `count_idle` visit the piles one lock at a time while other calls keep
  parking and taking. What such a sweep may return is bounded by what happened meanwhile.
 */
module PoolSweep {
  import opened Wrappers
  import opened Sums
  import opened PoolSteps
  import opened PoolConservation

  // ---- what a run did to the piles ----

  /** Buffers the action takes out of the piles. */
  function RemovedBy(s: State, a: Action): seq<nat>
    requires |s.piles| > 1
  {
    if !a.Step? || !Enabled(s, a) then [] else
    match s.calls[a.call]
    case PopShard(sh) => if s.piles[sh] == [] then [] else [s.piles[sh][|s.piles[sh]| - 1]]
    case PopReserve(_) =>
      var reserve := s.piles[|s.piles| - 1];
      if reserve == [] then [] else [reserve[|reserve| - 1]]
    case Drain(k, _) => if k < |s.piles| then s.piles[k] else []
    case _ => []
  }

  /** Buffers the action parks. */
  function PushedBy(s: State, a: Action): seq<nat>
  {
    if a.Step? && a.call < |s.calls| && Enabled(s, a) && s.calls[a.call].Push? then [s.calls[a.call].buf] else []
  }

  /** Everything parked during the run. */
  function Parks(o: State, acts: seq<Action>): seq<nat>
    requires |o.piles| > 1
  {
    if acts == [] then [] else
    Parks(o, acts[..|acts| - 1]) + PushedBy(Exec(o, acts[..|acts| - 1]), acts[|acts| - 1])
  }

  /** Everything taken out of the piles during the run by calls other than `i`. */
  function Takes(o: State, acts: seq<Action>, i: nat): seq<nat>
    requires |o.piles| > 1
  {
    if acts == [] then [] else
    Takes(o, acts[..|acts| - 1], i)
    + if acts[|acts| - 1] == Step(i) then [] else RemovedBy(Exec(o, acts[..|acts| - 1]), acts[|acts| - 1])
  }

  // ---- the sweeping call ----

  predicate Sweeps(c: Call)
  {
    c.Drain? || c.Drained? || c.Count? || c.Counted?
  }

  /** The first pile the sweep has not visited. */
  function Frontier(c: Call, piles: nat): nat
    requires Sweeps(c)
  {
    match c
    case Drain(k, _) => k
    case Count(k, _) => k
    case _ => piles
  }

  /** How many buffers the sweep has gathered or counted. */
  function Got(c: Call): nat
    requires Sweeps(c)
  {
    match c
    case Drain(_, t) => |t|
    case Drained(t) => |t|
    case Count(_, n) => n
    case _ => c.seen
  }

  function Unswept(piles: seq<seq<nat>>, k: nat): int
    requires k <= |piles|
  {
    Sum(Length<nat>, piles[k..])
  }

  lemma UnsweptNext(piles: seq<seq<nat>>, k: nat)
    requires k < |piles|
    ensures Unswept(piles, k) == |piles[k]| + Unswept(piles, k + 1)
  {
    assert piles[k..] == [piles[k]] + piles[k + 1..];
    SumConcat(Length<nat>, [piles[k]], piles[k + 1..]);
    SumOne(Length<nat>, piles[k]);
  }

  lemma UnsweptUpdate(piles: seq<seq<nat>>, k: nat, p: nat, x: seq<nat>)
    requires k <= |piles| && p < |piles|
    ensures Unswept(piles[p := x], k) == Unswept(piles, k) + if p < k then 0 else |x| - |piles[p]|
  {
    if p < k {
      assert piles[p := x][k..] == piles[k..];
    } else {
      assert piles[p := x][k..] == piles[k..][p - k := x];
      SumUpdate(Length<nat>, piles[k..], p - k, x);
    }
  }

  // ---- bounds ----

  /** The action touches a pile that sweep `i` has not visited yet. */
  predicate Ahead(s: State, a: Action, i: nat)
    requires |s.piles| > 1
  {
    && i < |s.calls| && Sweeps(s.calls[i])
    && PileTouched(s, a).Some? && PileTouched(s, a).value >= Frontier(s.calls[i], |s.piles|)
  }

  /** How many buffers were parked ahead of sweep `i` during the run. */
  function ParksAhead(o: State, acts: seq<Action>, i: nat): nat
    requires |o.piles| > 1
  {
    if acts == [] then 0 else
    var s, a := Exec(o, acts[..|acts| - 1]), acts[|acts| - 1];
    ParksAhead(o, acts[..|acts| - 1], i) + if a != Step(i) && Ahead(s, a, i) then |PushedBy(s, a)| else 0
  }

  /** How many other calls took from piles ahead of it. */
  function TakesAhead(o: State, acts: seq<Action>, i: nat): nat
    requires |o.piles| > 1
  {
    if acts == [] then 0 else
    var s, a := Exec(o, acts[..|acts| - 1]), acts[|acts| - 1];
    TakesAhead(o, acts[..|acts| - 1], i) + if a != Step(i) && Ahead(s, a, i) then |RemovedBy(s, a)| else 0
  }

  /** Only a part of what is parked and taken meanwhile happens ahead of the sweep. */
  lemma {:induction false} AheadWithin(o: State, acts: seq<Action>, i: nat)
    requires |o.piles| > 1
    ensures ParksAhead(o, acts, i) <= |Parks(o, acts)| && TakesAhead(o, acts, i) <= |Takes(o, acts, i)|
  {
    if acts == [] {
    } else {
      hide RemovedBy, PushedBy, Ahead;
      AheadWithin(o, acts[..|acts| - 1], i);
    }
  }

  /** The books of sweep `i`, begun in `o`, after `acts`. */
  ghost predicate SweepBooks(o: State, acts: seq<Action>, i: nat)
    requires |o.piles| > 1
  {
    var s := Exec(o, acts);
    && i < |s.calls| && Sweeps(s.calls[i]) && Frontier(s.calls[i], |s.piles|) <= |s.piles|
    && Reached(s, i) == Idle(o.piles) + ParksAhead(o, acts, i) - TakesAhead(o, acts, i)
  }

  /** Gathered or counted, plus still to visit. */
  function Reached(s: State, i: nat): int
    requires i < |s.calls| && Sweeps(s.calls[i]) && Frontier(s.calls[i], |s.piles|) <= |s.piles|
  {
    Got(s.calls[i]) + Unswept(s.piles, Frontier(s.calls[i], |s.piles|))
  }

  lemma DrainStep(s: State, i: nat)
    requires InRange(s) && i < |s.calls| && s.calls[i].Drain?
    ensures CallInRange(s.calls[i], |s.piles|) && CallInRange(Apply(s, Step(i)).calls[i], |s.piles|)
    ensures var t := Apply(s, Step(i)); Sweeps(t.calls[i]) && |t.piles| == |s.piles| && Reached(t, i) == Reached(s, i)
  {
    hide Advance;
    var c := s.calls[i];
    assert CallInRange(c, |s.piles|);
    var e := EffectOf(s, Step(i));
    DrainEffect(s, c);
    if c.next < |s.piles| {
      UnsweptNext(s.piles, c.next);
      UnsweptUpdate(s.piles, c.next + 1, c.next, []);
    }
  }

  lemma DrainEffect(s: State, c: Call)
    requires |s.piles| > 0 && c.Drain? && CallInRange(c, |s.piles|)
    ensures var e := Advance(s, c);
            if c.next < |s.piles| then e.call == Drain(c.next + 1, c.taken + s.piles[c.next]) && e.pile == []
            else e.call == Drained(c.taken)
  {
  }

  lemma CountStep(s: State, i: nat)
    requires InRange(s) && i < |s.calls| && s.calls[i].Count?
    ensures CallInRange(s.calls[i], |s.piles|) && CallInRange(Apply(s, Step(i)).calls[i], |s.piles|)
    ensures var t := Apply(s, Step(i)); Sweeps(t.calls[i]) && t.piles == s.piles && Reached(t, i) == Reached(s, i)
  {
    var c := s.calls[i];
    assert CallInRange(c, |s.piles|);
    if c.next < |s.piles| {
      UnsweptNext(s.piles, c.next);
    }
  }

  /** The sweep's own step moves one pile's worth from unvisited to gathered. */
  lemma OwnStep(s: State, i: nat)
    requires InRange(s) && i < |s.calls| && Sweeps(s.calls[i]) && Frontier(s.calls[i], |s.piles|) <= |s.piles|
    ensures var t := Apply(s, Step(i));
            && i < |t.calls| && Sweeps(t.calls[i]) && Frontier(t.calls[i], |t.piles|) <= |t.piles|
            && Reached(t, i) == Reached(s, i) && PushedBy(s, Step(i)) == []
  {
    if s.calls[i].Drain? {
      DrainStep(s, i);
    } else if s.calls[i].Count? {
      CountStep(s, i);
    }
  }

  /** Any other action shifts the unswept piles by what it parks and takes there. */
  lemma OtherStep(s: State, i: nat, a: Action)
    requires InRange(s) && i < |s.calls| && Sweeps(s.calls[i]) && a != Step(i)
    requires a != Collect(i)
    ensures var t, k := Apply(s, a), Frontier(s.calls[i], |s.piles|);
            && i < |t.calls| && t.calls[i] == s.calls[i] && |t.piles| == |s.piles| && k <= |s.piles|
            && Unswept(t.piles, k)
               == Unswept(s.piles, k) + if Ahead(s, a, i) then |PushedBy(s, a)| - |RemovedBy(s, a)| else 0
  {
    var c, t := s.calls[i], Apply(s, a);
    assert CallInRange(c, |s.piles|);
    var k := Frontier(c, |s.piles|);
    if Enabled(s, a) && a.Step? {
      if PileTouched(s, a).Some? {
        OtherPile(s, a);
        UnsweptUpdate(s.piles, k, PileTouched(s, a).value, EffectOf(s, a).pile);
      }
    }
  }

  /** The pile a step touches loses what is removed and gains what is pushed. */
  lemma OtherPile(s: State, a: Action)
    requires InRange(s) && a.Step? && Enabled(s, a) && PileTouched(s, a).Some?
    ensures var p := PileTouched(s, a).value;
            && p < |s.piles|
            && |EffectOf(s, a).pile| == |s.piles[p]| - |RemovedBy(s, a)| + |PushedBy(s, a)|
            && (RemovedBy(s, a) == [] || PushedBy(s, a) == [])
  {
    assert CallInRange(s.calls[a.call], |s.piles|);
  }

  predicate LeavesAlone(acts: seq<Action>, i: nat)
  {
    Collect(i) !in acts
  }

  lemma {:induction false} ExecSweepBooks(o: State, acts: seq<Action>, i: nat)
    requires InRange(o) && SweepBooks(o, [], i) && LeavesAlone(acts, i)
    ensures SweepBooks(o, acts, i)
  {
    if acts == [] {
    } else {
      var n := |acts| - 1;
      var s := Exec(o, acts[..n]);
      ExecSweepBooks(o, acts[..n], i);
      ExecInRange(o, acts[..n]);
      if acts[n] == Step(i) {
        OwnStep(s, i);
      } else {
        OtherStep(s, i, acts[n]);
      }
    }
  }

  ghost predicate BeginsSweep(o: State, i: nat)
  {
    i < |o.calls| && (o.calls[i] == Drain(0, []) || o.calls[i] == Count(0, 0))
  }

  /** However the sweep interleaves with everything else, what `drain` returns and what
      `count_idle` reports is what was parked at its start, plus what was parked meanwhile in
      piles it had still to visit, less what others took from such piles. */
  lemma SweepExact(o: State, acts: seq<Action>, i: nat)
    requires Reachable(o) && BeginsSweep(o, i) && LeavesAlone(acts, i)
    ensures |o.piles| > 1
    ensures var s := Exec(o, acts);
            && i < |s.calls| && Sweeps(s.calls[i])
            && (s.calls[i].Drained? || s.calls[i].Counted? ==>
                Got(s.calls[i]) == Idle(o.piles) + ParksAhead(o, acts, i) - TakesAhead(o, acts, i))
  {
    ReachableInRange(o);
    assert o.piles[0..] == o.piles;
    assert Exec(o, []) == o;
    ExecSweepBooks(o, acts, i);
    var s := Exec(o, acts);
    if s.calls[i].Drained? || s.calls[i].Counted? {
      assert s.piles[|s.piles|..] == [];
    }
  }

  /** So it reports the idle count of the moment it began if and only if as much was parked
      ahead of it as was taken ahead of it. */
  lemma SweepExactIff(o: State, acts: seq<Action>, i: nat)
    requires Reachable(o) && BeginsSweep(o, i) && LeavesAlone(acts, i)
    requires |o.piles| > 1 && i < |Exec(o, acts).calls|
    requires Exec(o, acts).calls[i].Drained? || Exec(o, acts).calls[i].Counted?
    ensures Got(Exec(o, acts).calls[i]) == Idle(o.piles) <==> ParksAhead(o, acts, i) == TakesAhead(o, acts, i)
  {
    SweepExact(o, acts, i);
  }

  /** In particular it lies between the buffers parked at its start minus those taken by
      others meanwhile and those parked at its start plus those parked meanwhile. */
  lemma SweepBounds(o: State, acts: seq<Action>, i: nat)
    requires Reachable(o) && BeginsSweep(o, i) && LeavesAlone(acts, i)
    ensures |o.piles| > 1
    ensures var s := Exec(o, acts);
            && i < |s.calls| && Sweeps(s.calls[i])
            && (s.calls[i].Drained? || s.calls[i].Counted? ==>
                Idle(o.piles) - |Takes(o, acts, i)| <= Got(s.calls[i]) <= Idle(o.piles) + |Parks(o, acts)|)
  {
    SweepExact(o, acts, i);
    AheadWithin(o, acts, i);
  }

  // ---- completeness ----

  /** What a drain has gathered so far. */
  function Gathered(c: Call): seq<nat>
  {
    if c.Drain? || c.Drained? then c.taken else []
  }

  /** A parked buffer stays in its pile unless the action removes it. */
  lemma StaysOrRemoved(s: State, a: Action, q: nat, b: nat)
    requires InRange(s) && q < |s.piles| && b in s.piles[q]
    ensures |Apply(s, a).piles| == |s.piles|
    ensures b in Apply(s, a).piles[q] || b in RemovedBy(s, a)
  {
    if a.Step? && Enabled(s, a) && PileTouched(s, a) == Some(q) {
      var c, pile := s.calls[a.call], s.piles[q];
      assert CallInRange(c, |s.piles|);
      assert pile == pile[..|pile| - 1] + [pile[|pile| - 1]];
    }
  }

  /** A buffer found in a pile was there before or has just been parked. */
  lemma WasThereOrPushed(s: State, a: Action, q: nat, b: nat)
    requires InRange(s) && q < |s.piles|
    ensures |Apply(s, a).piles| == |s.piles|
    ensures b in Apply(s, a).piles[q] ==> b in s.piles[q] || b in PushedBy(s, a)
  {
    if a.Step? && Enabled(s, a) && PileTouched(s, a) == Some(q) {
      assert CallInRange(s.calls[a.call], |s.piles|);
    }
  }

  /** Buffer `b` of pile `q` is still ahead of drain `i`, or in its hands, or was taken. */
  ghost predicate NotMissed(o: State, acts: seq<Action>, i: nat, q: nat, b: nat)
    requires |o.piles| > 1
  {
    var s := Exec(o, acts);
    && i < |s.calls| && (s.calls[i].Drain? || s.calls[i].Drained?) && q < |s.piles|
    && (b in Takes(o, acts, i) || b in Gathered(s.calls[i])
        || (Frontier(s.calls[i], |s.piles|) <= q && b in s.piles[q]))
  }

  lemma OwnDrainMisses(s: State, i: nat, q: nat, b: nat)
    requires InRange(s) && i < |s.calls| && (s.calls[i].Drain? || s.calls[i].Drained?) && q < |s.piles|
    requires b in Gathered(s.calls[i]) || (Frontier(s.calls[i], |s.piles|) <= q && b in s.piles[q])
    ensures var t := Apply(s, Step(i));
            && |t.piles| == |s.piles| && i < |t.calls| && (t.calls[i].Drain? || t.calls[i].Drained?)
            && (b in Gathered(t.calls[i]) || (Frontier(t.calls[i], |t.piles|) <= q && b in t.piles[q]))
  {
    hide Advance;
    var c := s.calls[i];
    assert CallInRange(c, |s.piles|);
    if c.Drain? { DrainEffect(s, c); }
  }

  lemma {:induction false} ExecNotMissed(o: State, acts: seq<Action>, i: nat, q: nat, b: nat)
    requires InRange(o) && NotMissed(o, [], i, q, b) && LeavesAlone(acts, i)
    ensures NotMissed(o, acts, i, q, b)
  {
    if acts == [] {
    } else {
      var n := |acts| - 1;
      var s := Exec(o, acts[..n]);
      ExecNotMissed(o, acts[..n], i, q, b);
      ExecInRange(o, acts[..n]);
      if b in Takes(o, acts[..n], i) {
        KeepsDraining(s, i, acts[n]);
      } else if acts[n] == Step(i) {
        OwnDrainMisses(s, i, q, b);
      } else {
        OtherStep(s, i, acts[n]);
        if b !in Gathered(s.calls[i]) { StaysOrRemoved(s, acts[n], q, b); }
      }
    }
  }

  lemma KeepsDraining(s: State, i: nat, a: Action)
    requires InRange(s) && i < |s.calls| && (s.calls[i].Drain? || s.calls[i].Drained?) && a != Collect(i)
    ensures var t := Apply(s, a); |t.piles| == |s.piles| && i < |t.calls| && (t.calls[i].Drain? || t.calls[i].Drained?)
  {
    assert CallInRange(s.calls[i], |s.piles|);
    if a == Step(i) {
      if s.calls[i].Drain? { DrainEffect(s, s.calls[i]); }
    } else {
      OtherStep(s, i, a);
    }
  }

  /** Buffer `b` was in some pile when the run began, or was parked during it. */
  ghost predicate Accountable(o: State, acts: seq<Action>, b: nat)
    requires |o.piles| > 1
  {
    (exists q :: 0 <= q < |o.piles| && b in o.piles[q]) || b in Parks(o, acts)
  }

  lemma {:induction false} ExecAccountable(o: State, acts: seq<Action>, i: nat, b: nat)
    requires InRange(o) && i < |o.calls| && o.calls[i] == Drain(0, []) && LeavesAlone(acts, i)
    ensures var s := Exec(o, acts);
            && i < |s.calls| && (s.calls[i].Drain? || s.calls[i].Drained?)
            && (b in Gathered(s.calls[i]) ==> Accountable(o, acts, b))
            && forall q | 0 <= q < |s.piles| :: b in s.piles[q] ==> Accountable(o, acts, b)
  {
    if acts == [] {
    } else {
      var n := |acts| - 1;
      var s, a := Exec(o, acts[..n]), acts[n];
      ExecAccountable(o, acts[..n], i, b);
      ExecInRange(o, acts[..n]);
      KeepsDraining(s, i, a);
      forall q | 0 <= q < |s.piles| && b in Apply(s, a).piles[q] ensures Accountable(o, acts, b) {
        WasThereOrPushed(s, a, q, b);
      }
      GathersOnlyPiles(s, i, a, b);
    }
  }

  lemma GathersOnlyPiles(s: State, i: nat, a: Action, b: nat)
    requires InRange(s) && i < |s.calls| && (s.calls[i].Drain? || s.calls[i].Drained?) && a != Collect(i)
    ensures var t := Apply(s, a);
            && i < |t.calls|
            && (b in Gathered(t.calls[i]) ==>
                b in Gathered(s.calls[i]) || exists q :: 0 <= q < |s.piles| && b in s.piles[q])
  {
    assert CallInRange(s.calls[i], |s.piles|);
    if a == Step(i) {
      if s.calls[i].Drain? { DrainEffect(s, s.calls[i]); }
    } else {
      OtherStep(s, i, a);
    }
  }

  /** A drain misses nothing and invents nothing: each buffer parked when it starts is in
      its result or was taken by another call meanwhile, each buffer of its result was
      parked at the start or meanwhile, and none is in the result twice. */
  lemma DrainComplete(o: State, acts: seq<Action>, i: nat, b: nat)
    requires Reachable(o) && i < |o.calls| && o.calls[i] == Drain(0, []) && LeavesAlone(acts, i)
    requires i < |Exec(o, acts).calls| && Exec(o, acts).calls[i].Drained?
    ensures var result := Exec(o, acts).calls[i].taken;
            && (forall q | 0 <= q < |o.piles| && b in o.piles[q] :: b in result || b in Takes(o, acts, i))
            && (b in result ==> Accountable(o, acts, b))
            && Occ(b, result) <= 1
  {
    hide Takes, Parks, Accountable, Reachable;
    ReachableInRange(o);
    var s := Exec(o, acts);
    forall q | 0 <= q < |o.piles| && b in o.piles[q] ensures b in s.calls[i].taken || b in Takes(o, acts, i) {
      assert Exec(o, []) == o;
      ExecNotMissed(o, acts, i, q, b);
      assert Exec(o, acts).piles == s.piles;
    }
    ExecAccountable(o, acts, i, b);
    ReachableOn(o, acts);
    NoneTwice(s, i, b);
  }

  lemma NoneTwice(s: State, i: nat, b: nat)
    requires Reachable(s) && i < |s.calls| && s.calls[i].Drained?
    ensures Occ(b, s.calls[i].taken) <= 1
  {
    Conservation(s);
    if Occ(b, s.calls[i].taken) >= 1 {
      WeighedIn(s, b, InFlight(i));
      Exclusivity(s, b, InFlight(i), InFlight(i));
    }
  }
}
