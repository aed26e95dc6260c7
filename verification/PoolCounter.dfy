/**
  The idle cap: the `parked` counter is adjusted in separate steps from the piles it
  counts, so what it means is stated with every call in flight on the books.
 */
module PoolCounter {
  import opened Wrappers
  import opened Sums
  import opened PoolSteps

  /** What a call in flight still has on the counter beyond the piles. */
  function Pending(c: Call): int
  {
    match c
    case Unpark(_, _) => 1
    case Rollback(_, _) => 1
    case Push(_, _) => 1
    case Drain(_, taken) => |taken|
    case _ => 0
  }

  /** Slots granted but not yet filled. */
  function Granted(c: Call): int
  {
    if c.Push? then 1 else 0
  }

  function PendingTotal(s: State): int
  {
    Sum(Pending, s.calls)
  }

  /** Parked buffers plus the slots promised to returns under way. */
  function Occupied(s: State): int
  {
    Idle(s.piles) + Sum(Granted, s.calls)
  }

  ghost predicate Accounted(s: State)
  {
    s.cap.Capped? ==> s.cap.parked == Idle(s.piles) + PendingTotal(s)
  }

  // ---- accounting under every interleaving ----

  /** Each step moves the counter by exactly what it moves between piles and calls. */
  lemma MovedBalance(s: State, a: Action)
    requires InRange(s) && Target(a).Some? && Enabled(s, a)
    ensures PileChange(Length<nat>, s, a) + Pending(EffectOf(s, a).call) - Pending(s.calls[Target(a).value])
            == EffectOf(s, a).parked
  {
    var c := s.calls[Target(a).value];
    assert CallInRange(c, |s.piles|);
  }

  lemma ApplyAccounted(s: State, a: Action)
    requires InRange(s) && Accounted(s)
    ensures Accounted(Apply(s, a))
  {
    if a.SetCap? && Enabled(s, a) {
      SumZero(Pending, s.calls);
    } else {
      hide Apply, EffectOf, PileChange;
      if !Enabled(s, a) {
        Disabled(s, a);
      } else if Target(a).Some? {
        MovedState(s, a);
        CallsMoved(Pending, s, a);
        PilesMoved(Length<nat>, s, a);
        MovedBalance(s, a);
      } else if Starts(a) {
        BegunState(s, a);
        CallsBegun(Pending, s, a);
        assert Pending(Begin(s, a)) == 0;
      } else {
        SettledState(s, a);
      }
    }
  }

  lemma {:induction false} ExecAccounted(s: State, acts: seq<Action>)
    requires InRange(s) && Accounted(s)
    ensures InRange(Exec(s, acts)) && Accounted(Exec(s, acts))
  {
    ExecInRange(s, acts);
    if acts == [] {
    } else {
      ExecAccounted(s, acts[..|acts| - 1]);
      ApplyAccounted(Exec(s, acts[..|acts| - 1]), acts[|acts| - 1]);
    }
  }

  /** Every reachable state of a capped pool: the counter is the piles plus exactly the
      claims granted but not pushed, the refused claims not rolled back, the pops not yet
      unparked and the buffers of unfinished drains. It is never negative, so no
      `fetch_sub` wraps, and each subtraction still pending is covered by it. */
  lemma CounterAccounting(s: State)
    requires Reachable(s) && s.cap.Capped?
    ensures s.cap.parked == Idle(s.piles) + PendingTotal(s)
    ensures s.cap.parked >= Idle(s.piles) >= 0
    ensures forall i | 0 <= i < |s.calls| :: s.cap.parked >= Pending(s.calls[i])
  {
    var n: nat, acts: seq<Action> :| n > 0 && s == Exec(New(n), acts);
    ExecAccounted(New(n), acts);
    SumCovers(Pending, s.calls);
    SumCovers(Length<nat>, s.piles);
  }

  /** Once the pool's own code is at rest the counter is the idle count, guards out or not. */
  lemma CounterExactAtRest(s: State)
    requires Reachable(s) && s.cap.Capped?
    requires AllAtRest(s)
    ensures s.cap.parked == Idle(s.piles)
  {
    CounterAccounting(s);
    forall c | c in s.calls ensures Pending(c) == 0 {
      var i :| 0 <= i < |s.calls| && s.calls[i] == c;
      assert AtRest(s.calls[i]);
    }
    SumZero(Pending, s.calls);
  }

  // ---- the cap is global and safe ----

  predicate KeepsCap(acts: seq<Action>)
  {
    forall a | a in acts :: !a.SetCap?
  }

  /** Only a granted claim makes the pool fuller, and only below the cap. */
  lemma MovedOccupied(s: State, a: Action)
    requires InRange(s) && Target(a).Some? && Enabled(s, a)
    ensures var d := PileChange(Length<nat>, s, a) + Granted(EffectOf(s, a).call) - Granted(s.calls[Target(a).value]);
            d <= 0 || (d == 1 && !Full(s.cap))
  {
    assert CallInRange(s.calls[Target(a).value], |s.piles|);
  }

  lemma ApplyOccupied(s: State, a: Action)
    requires InRange(s) && Accounted(s) && s.cap.Capped? && !a.SetCap?
    ensures var t := Apply(s, a);
            t.cap.Capped? && t.cap.max == s.cap.max && Occupied(t) <= Max(s.cap.max, Occupied(s))
  {
    hide Apply, EffectOf, PileChange;
    if !Enabled(s, a) {
      Disabled(s, a);
    } else if Target(a).Some? {
      MovedState(s, a);
      CallsMoved(Granted, s, a);
      PilesMoved(Length<nat>, s, a);
      MovedOccupied(s, a);
      SumMonotone(Granted, Pending, s.calls);
    } else if Starts(a) {
      BegunState(s, a);
      CallsBegun(Granted, s, a);
      assert Granted(Begin(s, a)) == 0;
    } else {
      SettledState(s, a);
    }
  }

  lemma {:induction false} ExecOccupied(s: State, acts: seq<Action>)
    requires InRange(s) && Accounted(s) && s.cap.Capped? && KeepsCap(acts)
    ensures var t := Exec(s, acts);
            t.cap.Capped? && t.cap.max == s.cap.max && Occupied(t) <= Max(s.cap.max, Occupied(s))
  {
    if acts == [] {
    } else {
      ExecOccupied(s, acts[..|acts| - 1]);
      ExecAccounted(s, acts[..|acts| - 1]);
      ApplyOccupied(Exec(s, acts[..|acts| - 1]), acts[|acts| - 1]);
    }
  }

  /** From the moment the cap is installed over `s`, and however parks, takes and drains
      interleave, parked buffers plus granted slots stay within the larger of the cap and
      what was parked when it was installed. */
  lemma CapSafety(s: State, max: nat, acts: seq<Action>)
    requires Reachable(s) && Quiet(s) && KeepsCap(acts)
    ensures var t := Exec(Apply(s, SetCap(Some(max))), acts);
            Idle(t.piles) <= Occupied(t) <= Max(max, Idle(s.piles))
  {
    var n: nat, before: seq<Action> :| n > 0 && s == Exec(New(n), before);
    ExecAccounted(New(n), before);
    var c := Apply(s, SetCap(Some(max)));
    ApplyInRange(s, SetCap(Some(max)));
    ApplyAccounted(s, SetCap(Some(max)));
    SeedsCap(s, max);
    hide Apply, Exec, InRange, Accounted, Quiet;
    ExecOccupied(c, acts);
    SumCovers(Granted, Exec(c, acts).calls);
  }

  lemma SeedsCap(s: State, max: nat)
    requires |s.piles| > 1 && Quiet(s)
    ensures var c := Apply(s, SetCap(Some(max))); c.cap.Capped? && c.cap.max == max && Occupied(c) == Idle(s.piles)
  {
    SumZero(Granted, s.calls);
  }

  /** A cap installed over a quiet pool is kept by every run if and only if what was parked
      at that moment fits under it. */
  lemma CapHoldsIff(s: State, max: nat)
    requires Reachable(s) && Quiet(s)
    ensures Idle(s.piles) <= max <==>
              forall acts | KeepsCap(acts) :: Idle(Exec(Apply(s, SetCap(Some(max))), acts).piles) <= max
  {
    forall acts | KeepsCap(acts) && Idle(s.piles) <= max
      ensures Idle(Exec(Apply(s, SetCap(Some(max))), acts).piles) <= max
    {
      CapSafety(s, max, acts);
    }
    assert KeepsCap([]) && Exec(Apply(s, SetCap(Some(max))), []) == Apply(s, SetCap(Some(max)));
  }

  /** Slots are only ever promised within the cap. */
  ghost predicate GrantsWithin(s: State)
  {
    s.cap.Capped? ==> Occupied(s) <= s.cap.max || Sum(Granted, s.calls) == 0
  }

  lemma MovedGrant(s: State, a: Action)
    requires InRange(s) && Target(a).Some? && Enabled(s, a)
    ensures Granted(EffectOf(s, a).call) == 1 ==> !Full(s.cap)
  {
    assert CallInRange(s.calls[Target(a).value], |s.piles|);
  }

  /** Above the cap nothing is granted. */
  lemma NoGrantAbove(s: State, a: Action)
    requires InRange(s) && Accounted(s) && s.cap.Capped? && Occupied(s) > s.cap.max && Sum(Granted, s.calls) == 0
    requires !a.SetCap?
    ensures Sum(Granted, Apply(s, a).calls) == 0
  {
    hide Apply, EffectOf;
    if !Enabled(s, a) {
      Disabled(s, a);
    } else if Target(a).Some? {
      SumCovers(Pending, s.calls);
      SumCovers(Granted, s.calls);
      MovedGrant(s, a);
      CallsMoved(Granted, s, a);
    } else if Starts(a) {
      CallsBegun(Granted, s, a);
      assert Granted(Begin(s, a)) == 0;
    } else {
      SettledState(s, a);
    }
  }

  lemma ApplyGrantsWithin(s: State, a: Action)
    requires InRange(s) && Accounted(s) && GrantsWithin(s)
    ensures GrantsWithin(Apply(s, a))
  {
    if a.SetCap? {
      if Enabled(s, a) { SumZero(Granted, s.calls); }
    } else {
      KeepsUncapped(s, a);
      hide Apply;
      if s.cap.Capped? {
        ApplyOccupied(s, a);
        if Occupied(s) > s.cap.max { NoGrantAbove(s, a); }
      }
    }
  }

  lemma KeepsUncapped(s: State, a: Action)
    requires |s.piles| > 1 && !a.SetCap?
    ensures Apply(s, a).cap.Capped? <==> s.cap.Capped?
  {
  }

  lemma {:induction false} ExecGrantsWithin(s: State, acts: seq<Action>)
    requires InRange(s) && Accounted(s) && GrantsWithin(s)
    ensures GrantsWithin(Exec(s, acts))
  {
    if acts == [] {
    } else {
      ExecGrantsWithin(s, acts[..|acts| - 1]);
      ExecAccounted(s, acts[..|acts| - 1]);
      ApplyGrantsWithin(Exec(s, acts[..|acts| - 1]), acts[|acts| - 1]);
    }
  }

  /** A pool whose parked buffers have come within its cap never leaves it again, slots under
      way included. */
  lemma CapSticks(s: State, acts: seq<Action>)
    requires Reachable(s) && s.cap.Capped? && KeepsCap(acts) && Idle(s.piles) <= s.cap.max
    ensures var t := Exec(s, acts); Idle(t.piles) <= Occupied(t) <= s.cap.max
  {
    var n: nat, before: seq<Action> :| n > 0 && s == Exec(New(n), before);
    ExecAccounted(New(n), before);
    ExecGrantsWithin(New(n), before);
    ExecOccupied(s, acts);
    SumCovers(Granted, Exec(s, acts).calls);
  }

  // ---- when exactly a return is refused ----

  /** A return is refused if and only if the parked buffers and the counter contributions
      of the calls in flight together reach the cap. */
  lemma RefusedIff(s: State, i: nat)
    requires Reachable(s) && s.cap.Capped? && i < |s.calls| && s.calls[i].Claim?
    ensures var t := Apply(s, Step(i));
            && (t.calls[i].Rollback? <==> Idle(s.piles) + PendingTotal(s) >= s.cap.max)
            && (t.calls[i].Push? <==> Idle(s.piles) + PendingTotal(s) < s.cap.max)
  {
    CounterAccounting(s);
    ReachableInRange(s);
    assert CallInRange(s.calls[i], |s.piles|);
  }

  // ---- without takes the cap is exact ----

  /** The call neither takes a buffer out of a pile nor is a lease being served. */
  predicate TakesNothing(c: Call)
  {
    !(c.PopShard? || c.PopReserve? || c.Unpark? || c.CountAlloc? || c.RunInit? || c.Drain?)
  }

  predicate OnlyReturns(acts: seq<Action>)
  {
    forall a | a in acts :: !a.StartGet? && !a.StartDrain? && !a.SetCap?
  }

  /** Handed back, but the cap not consulted yet. */
  function Unclaimed(c: Call): int
  {
    if c.Reset? || c.Claim? then 1 else 0
  }

  function Refusing(c: Call): int
  {
    if c.Rollback? then 1 else 0
  }

  /** What a run of returns that started in `o` has filled when it has reached `s`. */
  ghost predicate FillBooks(o: State, s: State)
  {
    && o.cap.Capped? && s.cap.Capped? && s.cap.max == o.cap.max
    && s.log.granted >= o.log.granted && s.log.refused >= o.log.refused
    && Sum(Refusing, s.calls) <= s.log.refused - o.log.refused
    && Occupied(s) == Idle(o.piles) + s.log.granted - o.log.granted
    && (s.log.granted > o.log.granted ==> Occupied(s) <= s.cap.max)
    && (s.log.refused > o.log.refused ==> Occupied(s) >= s.cap.max)
  }

  /** Where the buffers handed back since `o` have gone by `s`. */
  ghost predicate FateBooks(o: State, s: State)
  {
    && s.log.returned - o.log.returned
       == s.log.granted - o.log.granted + s.log.refused - o.log.refused
          + s.log.lost - o.log.lost + Sum(Unclaimed, s.calls)
    && |s.gone| - |o.gone| + Sum(Refusing, s.calls)
       == s.log.refused - o.log.refused + s.log.lost - o.log.lost + s.log.discarded - o.log.discarded
  }

  ghost predicate NoTakes(s: State)
  {
    forall i | 0 <= i < |s.calls| :: TakesNothing(s.calls[i])
  }

  /** The counter of a pool without takes is off by the refusals under way only. */
  lemma {:induction false} PendingWithoutTakes(calls: seq<Call>)
    requires forall i | 0 <= i < |calls| :: TakesNothing(calls[i])
    ensures Sum(Pending, calls) == Sum(Granted, calls) + Sum(Refusing, calls)
  {
    if calls == [] {
    } else {
      PendingWithoutTakes(calls[..|calls| - 1]);
      assert TakesNothing(calls[|calls| - 1]);
    }
  }

  lemma MovedFill(s: State, a: Action)
    requires InRange(s) && Target(a).Some? && Enabled(s, a) && TakesNothing(s.calls[Target(a).value])
    ensures var c, e := s.calls[Target(a).value], EffectOf(s, a);
            && TakesNothing(e.call)
            && (e.log.granted == s.log.granted || (e.log.granted == s.log.granted + 1 && !Full(s.cap)))
            && (e.log.refused == s.log.refused || (e.log.refused == s.log.refused + 1 && Full(s.cap)))
            && (e.log.granted == s.log.granted || e.log.refused == s.log.refused)
            && Refusing(e.call) - Refusing(c) <= e.log.refused - s.log.refused
            && PileChange(Length<nat>, s, a) + Granted(e.call) - Granted(c) == e.log.granted - s.log.granted
  {
    assert CallInRange(s.calls[Target(a).value], |s.piles|);
  }

  lemma MovedFate(s: State, a: Action)
    requires InRange(s) && Target(a).Some? && Enabled(s, a)
    ensures var c, e := s.calls[Target(a).value], EffectOf(s, a);
            && e.log.returned - s.log.returned
               == e.log.granted - s.log.granted + e.log.refused - s.log.refused
                  + e.log.lost - s.log.lost + Unclaimed(e.call) - Unclaimed(c)
            && |e.lost| + Refusing(e.call) - Refusing(c)
               == e.log.refused - s.log.refused + e.log.lost - s.log.lost
            && e.log.discarded == s.log.discarded
  {
    assert CallInRange(s.calls[Target(a).value], |s.piles|);
  }

  lemma ApplyNoTakes(s: State, a: Action)
    requires InRange(s) && NoTakes(s) && OnlyReturns([a])
    ensures NoTakes(Apply(s, a))
  {
    assert a in [a];
    hide Advance;
    if Enabled(s, a) && Target(a).Some? { MovedFill(s, a); }
  }

  /** Without takes the cap is reached once the buffers parked, promised and refused do. */
  lemma FullWithoutTakes(s: State)
    requires Accounted(s) && NoTakes(s) && s.cap.Capped?
    ensures Full(s.cap) <==> Occupied(s) + Sum(Refusing, s.calls) >= s.cap.max
    ensures Sum(Refusing, s.calls) >= 0
  {
    PendingWithoutTakes(s.calls);
    SumCovers(Refusing, s.calls);
  }

  lemma FillMoved(o: State, s: State, a: Action)
    requires InRange(s) && Accounted(s) && NoTakes(s) && FillBooks(o, s) && Target(a).Some? && Enabled(s, a)
    ensures FillBooks(o, Apply(s, a))
  {
    assert TakesNothing(s.calls[Target(a).value]);
    FullWithoutTakes(s);
    hide Apply, EffectOf, PileChange, NoTakes, Accounted, Full, Sum, TakesNothing, InRange, Enabled;
    MovedState(s, a);
    MovedFill(s, a);
    PilesMoved(Length<nat>, s, a);
    CallsMoved(Granted, s, a);
    CallsMoved(Refusing, s, a);
  }

  lemma ApplyFillBooks(o: State, s: State, a: Action)
    requires InRange(s) && Accounted(s) && NoTakes(s) && FillBooks(o, s) && OnlyReturns([a])
    ensures FillBooks(o, Apply(s, a))
  {
    assert a in [a];
    hide Apply, EffectOf, PileChange, OnlyReturns;
    if !Enabled(s, a) {
      Disabled(s, a);
    } else if Target(a).Some? {
      FillMoved(o, s, a);
    } else if Starts(a) {
      BegunState(s, a);
      CallsBegun(Granted, s, a);
      CallsBegun(Refusing, s, a);
      assert Granted(Begin(s, a)) == 0 && Refusing(Begin(s, a)) == 0;
    } else {
      SettledState(s, a);
    }
  }

  lemma ApplyFateBooks(o: State, s: State, a: Action)
    requires InRange(s) && FateBooks(o, s)
    ensures FateBooks(o, Apply(s, a))
  {
    hide Apply, EffectOf;
    if !Enabled(s, a) {
      Disabled(s, a);
    } else if Target(a).Some? {
      MovedState(s, a);
      MovedFate(s, a);
      CallsMoved(Unclaimed, s, a);
      CallsMoved(Refusing, s, a);
    } else if Starts(a) {
      BegunState(s, a);
      CallsBegun(Unclaimed, s, a);
      CallsBegun(Refusing, s, a);
    } else {
      SettledState(s, a);
    }
  }

  lemma {:induction false} ExecFateBooks(o: State, acts: seq<Action>)
    requires InRange(o) && FateBooks(o, o)
    ensures FateBooks(o, Exec(o, acts))
  {
    if acts == [] {
    } else {
      var n := |acts| - 1;
      ExecFateBooks(o, acts[..n]);
      ExecInRange(o, acts[..n]);
      ApplyFateBooks(o, Exec(o, acts[..n]), acts[n]);
    }
  }

  /** In every reachable state each buffer handed back has been granted a slot, refused, lost
      to its hook, or is still on the way to the cap; and what was destroyed is exactly what
      was refused, lost, or discarded by its owner. */
  lemma ReturnsAccounted(s: State)
    requires Reachable(s)
    ensures s.log.returned == s.log.granted + s.log.refused + s.log.lost + Sum(Unclaimed, s.calls)
    ensures |s.gone| + Sum(Refusing, s.calls) == s.log.refused + s.log.lost + s.log.discarded
  {
    var n: nat, acts: seq<Action> :| n > 0 && s == Exec(New(n), acts);
    ExecFateBooks(New(n), acts);
  }

  lemma {:induction false} ExecFillBooks(o: State, acts: seq<Action>)
    requires InRange(o) && Accounted(o) && NoTakes(o) && FillBooks(o, o)
    requires OnlyReturns(acts)
    ensures var s := Exec(o, acts); NoTakes(s) && FillBooks(o, s)
  {
    if acts == [] {
    } else {
      var n := |acts| - 1;
      ExecFillBooks(o, acts[..n]);
      ExecAccounted(o, acts[..n]);
      ApplyNoTakes(Exec(o, acts[..n]), acts[n]);
      ApplyFillBooks(o, Exec(o, acts[..n]), acts[n]);
    }
  }

  lemma NothingUnderWay(s: State)
    requires AllAtRest(s)
    ensures Sum(Granted, s.calls) == Sum(Unclaimed, s.calls) == Sum(Refusing, s.calls) == 0
  {
    forall c | c in s.calls ensures AtRest(c) { }
    SumZero(Granted, s.calls);
    SumZero(Unclaimed, s.calls);
    SumZero(Refusing, s.calls);
  }

  /** Of the returns between `o` and `s` that got past their reset hook, as many are parked
      as there was room for, and the others are destroyed, like those the hook lost and those
      their owners discarded. */
  predicate FilledExactly(o: State, s: State)
    requires o.cap.Capped?
  {
    var room := Max(0, o.cap.max - Idle(o.piles));
    var lost := s.log.lost - o.log.lost;
    var n := s.log.returned - o.log.returned - lost;
    var fit := if n < room then n else room;
    && n >= 0
    && Idle(s.piles) == Idle(o.piles) + fit
    && |s.gone| - |o.gone| == n - fit + lost + s.log.discarded - o.log.discarded
  }

  /** From a state at rest with `Idle` buffers parked, any interleaving of returns without a
      take or a drain ends with exactly as many parked as fit, and the rest destroyed. */
  lemma CapExactWithoutTakes(o: State, acts: seq<Action>)
    requires Reachable(o) && o.cap.Capped? && OnlyReturns(acts)
    requires AllAtRest(o) && AllAtRest(Exec(o, acts))
    ensures FilledExactly(o, Exec(o, acts))
  {
    var s := Exec(o, acts);
    var k: nat, before: seq<Action> :| k > 0 && o == Exec(New(k), before);
    ExecAccounted(New(k), before);
    NothingUnderWay(o);
    ExecFillBooks(o, acts);
    ExecFateBooks(o, acts);
    NothingUnderWay(s);
  }

  /** A hook that unwinds takes its buffer with it and touches nothing else: no pile, and not
      the counter, because no slot was claimed yet. */
  lemma HookPanicLosesBuffer(s: State, i: nat)
    requires Reachable(s) && i < |s.calls| && s.calls[i].Reset?
    ensures var t := Apply(s, Panic(i));
            && t.calls == s.calls[i := Done] && t.gone == s.gone + [s.calls[i].buf]
            && t.piles == s.piles && t.cap == s.cap && t.hands == s.hands
            && (s.cap.Capped? ==> t.cap.parked == Idle(t.piles) + PendingTotal(t))
  {
    var n: nat, before: seq<Action> :| n > 0 && s == Exec(New(n), before);
    ExecAccounted(New(n), before);
    ApplyAccounted(s, Panic(i));
  }
}
