/**
  Lease accounting: what the public `leases` and `allocations` counters say about the
  buffers in existence (src/buffer.rs, `PoolStats`).
 */
module PoolLeases {
  import opened Wrappers
  import opened Sums
  import opened PoolSteps

  /** A `get` that has not yet either popped a buffer or counted an allocation. */
  function Serving(c: Call): int
  {
    if c.PopShard? || c.PopReserve? || c.CountAlloc? then 1 else 0
  }

  /** Counted as an allocation; the initializer has not returned yet. */
  function Initializing(c: Call): int
  {
    if c.RunInit? || c.StockInit? then 1 else 0
  }

  /** A lease that has its buffer, or has been promised a fresh one. */
  function Outstanding(c: Call): int
  {
    if c.Unpark? || c.Held? || c.RunInit? then 1 else 0
  }

  /** A lease that has begun and has not ended. */
  function Open(c: Call): int
  {
    if Serving(c) == 1 || Outstanding(c) == 1 then 1 else 0
  }

  function OwnedCount(c: Call): int
  {
    |Owned(c)|
  }

  /** Every lease was served from a pile, or counted an allocation, or is still deciding. */
  ghost predicate LeaseBooks(s: State)
  {
    s.leases == s.log.served + s.allocations - s.log.stocked + Sum(Serving, s.calls)
  }

  /** Every buffer in existence was counted as an allocation or came from outside. */
  ghost predicate AllocationBooks(s: State)
  {
    s.allocations + s.log.foreign == s.made + s.log.initPanics + Sum(Initializing, s.calls)
  }

  /** Every lease is still open, or ended in one of three ways. */
  ghost predicate EndBooks(s: State)
  {
    s.leases == Sum(Open, s.calls) + s.log.dropped + s.log.detached + s.log.unwound
  }

  ghost predicate SizeBooks(s: State)
  {
    s.made == Idle(s.piles) + Sum(OwnedCount, s.calls) + |s.hands| + |s.gone|
  }

  ghost predicate Books(s: State)
  {
    LeaseBooks(s) && AllocationBooks(s) && SizeBooks(s) && EndBooks(s)
  }

  lemma MovedLease(s: State, a: Action)
    requires InRange(s) && Target(a).Some? && Enabled(s, a)
    ensures var c, e := s.calls[Target(a).value], EffectOf(s, a);
            e.log.served - s.log.served + e.counted - (e.log.stocked - s.log.stocked)
            + Serving(e.call) - Serving(c) == 0
  {
    assert CallInRange(s.calls[Target(a).value], |s.piles|);
  }

  lemma MovedAllocation(s: State, a: Action)
    requires InRange(s) && Target(a).Some? && Enabled(s, a)
    ensures var c, e := s.calls[Target(a).value], EffectOf(s, a);
            e.counted + e.log.foreign - s.log.foreign
            == e.born + e.log.initPanics - s.log.initPanics + Initializing(e.call) - Initializing(c)
  {
    assert CallInRange(s.calls[Target(a).value], |s.piles|);
  }

  lemma MovedSizes(s: State, a: Action)
    requires InRange(s) && Target(a).Some? && Enabled(s, a)
    ensures var c, e := s.calls[Target(a).value], EffectOf(s, a);
            e.born == PileChange(Length<nat>, s, a) + |Owned(e.call)| - |Owned(c)| + |e.kept| + |e.lost|
  {
    assert CallInRange(s.calls[Target(a).value], |s.piles|);
  }

  lemma MovedEnd(s: State, a: Action)
    requires InRange(s) && Target(a).Some? && Enabled(s, a)
    ensures var c, e := s.calls[Target(a).value], EffectOf(s, a);
            && Open(c) - Open(e.call)
               == e.log.dropped - s.log.dropped + e.log.detached - s.log.detached + e.log.unwound - s.log.unwound
            && Open(e.call) <= Open(c)
  {
    assert CallInRange(s.calls[Target(a).value], |s.piles|);
  }

  lemma ApplyEndBooks(s: State, a: Action)
    requires InRange(s) && EndBooks(s)
    ensures EndBooks(Apply(s, a))
  {
    hide Apply, EffectOf, Begin, Enabled;
    if !Enabled(s, a) {
      Disabled(s, a);
    } else if Target(a).Some? {
      MovedState(s, a);
      MovedEnd(s, a);
      CallsMoved(Open, s, a);
    } else if Starts(a) {
      BegunState(s, a);
      CallsBegun(Open, s, a);
      BegunCounts(s, a);
    } else {
      SettledState(s, a);
    }
  }

  /** What a call starts with. */
  lemma BegunCounts(s: State, a: Action)
    requires |s.piles| > 1 && Starts(a) && Enabled(s, a)
    ensures var c := Begin(s, a); Serving(c) == Open(c) == if a.StartGet? then 1 else 0
    ensures var c := Begin(s, a);
            Initializing(c) == 0 && OwnedCount(c) == if a.StartPut? || a.StartForeign? then 1 else 0
  {
  }

  lemma ApplyLeaseBooks(s: State, a: Action)
    requires InRange(s) && LeaseBooks(s)
    ensures LeaseBooks(Apply(s, a))
  {
    hide Apply, EffectOf, Begin, Enabled;
    if !Enabled(s, a) {
      Disabled(s, a);
    } else if Target(a).Some? {
      MovedState(s, a);
      MovedLease(s, a);
      CallsMoved(Serving, s, a);
    } else if Starts(a) {
      BegunState(s, a);
      CallsBegun(Serving, s, a);
      BegunCounts(s, a);
    } else {
      SettledState(s, a);
    }
  }

  lemma ApplyAllocationBooks(s: State, a: Action)
    requires InRange(s) && AllocationBooks(s)
    ensures AllocationBooks(Apply(s, a))
  {
    hide Apply, EffectOf, Begin, Enabled;
    if !Enabled(s, a) {
      Disabled(s, a);
    } else if Target(a).Some? {
      MovedState(s, a);
      MovedAllocation(s, a);
      CallsMoved(Initializing, s, a);
    } else if Starts(a) {
      BegunState(s, a);
      CallsBegun(Initializing, s, a);
      BegunCounts(s, a);
    } else {
      SettledState(s, a);
    }
  }

  lemma ApplySizeBooks(s: State, a: Action)
    requires InRange(s) && SizeBooks(s)
    ensures SizeBooks(Apply(s, a))
  {
    hide Apply, EffectOf, Begin, Enabled, PileChange;
    if !Enabled(s, a) {
      Disabled(s, a);
    } else if Target(a).Some? {
      MovedState(s, a);
      MovedSizes(s, a);
      CallsMoved(OwnedCount, s, a);
      PilesMoved(Length<nat>, s, a);
    } else if Starts(a) {
      BegunState(s, a);
      CallsBegun(OwnedCount, s, a);
      BegunCounts(s, a);
    } else {
      SettledState(s, a);
    }
  }

  lemma {:induction false} ExecBooks(s: State, acts: seq<Action>)
    requires InRange(s) && Books(s)
    ensures InRange(Exec(s, acts)) && Books(Exec(s, acts))
  {
    ExecInRange(s, acts);
    if acts == [] {
    } else {
      var n := |acts| - 1;
      ExecBooks(s, acts[..n]);
      ApplyLeaseBooks(Exec(s, acts[..n]), acts[n]);
      ApplyAllocationBooks(Exec(s, acts[..n]), acts[n]);
      ApplySizeBooks(Exec(s, acts[..n]), acts[n]);
      ApplyEndBooks(Exec(s, acts[..n]), acts[n]);
    }
  }

  lemma ReachableBooks(s: State)
    requires Reachable(s)
    ensures Books(s)
  {
    var n: nat, acts: seq<Action> :| n > 0 && s == Exec(New(n), acts);
    SumZero(Length<nat>, New(n).piles);
    ExecBooks(New(n), acts);
  }

  // ---- what the public counters say ----

  /** In every reachable state, drains, detaches, manual puts and panics included: a lease
      was served from a pile or is an allocation that no prefill made; and the leases out
      never outnumber the allocations plus the buffers put from outside. */
  lemma LeaseAccounting(s: State)
    requires Reachable(s)
    ensures s.leases == s.log.served + (s.allocations - s.log.stocked) + Sum(Serving, s.calls)
    ensures 0 <= Sum(Outstanding, s.calls) <= s.allocations + s.log.foreign
  {
    ReachableBooks(s);
    SumCovers(Length<nat>, s.piles);
    SumCovers(Outstanding, s.calls);
    OutstandingBound(s.calls);
  }

  lemma {:induction false} OutstandingBound(calls: seq<Call>)
    ensures Sum(Outstanding, calls) <= Sum(OwnedCount, calls) + Sum(Initializing, calls)
  {
    if calls == [] {
    } else {
      OutstandingBound(calls[..|calls| - 1]);
    }
  }

  /** With no `get` in flight and no initializer running, what was allocated or put from
      outside is what is in the piles, with a call or guard, with the user, or destroyed. */
  lemma AllocationsAreBuffers(s: State)
    requires Reachable(s) && AllAtRest(s)
    ensures s.leases == s.log.served + (s.allocations - s.log.stocked)
    ensures s.allocations + s.log.foreign - s.log.initPanics
            == Idle(s.piles) + Sum(OwnedCount, s.calls) + |s.hands| + |s.gone|
  {
    ReachableBooks(s);
    forall c | c in s.calls ensures AtRest(c) { }
    SumZero(Serving, s.calls);
    SumZero(Initializing, s.calls);
  }

  // ---- how leases end ----

  /** In every reachable state: a lease that has begun is still open, or its guard was
      dropped, or its guard was detached, or its initializer unwound, each counted once. */
  lemma LeaseEnds(s: State)
    requires Reachable(s)
    ensures s.leases == Sum(Open, s.calls) + s.log.dropped + s.log.detached + s.log.unwound
  {
    ReachableBooks(s);
  }

  /** And a lease that has ended never ends again: its entry is not opened a second time. */
  lemma {:induction false} EndedStaysEnded(s: State, acts: seq<Action>, i: nat)
    requires InRange(s) && i < |s.calls| && Open(s.calls[i]) == 0
    ensures var t := Exec(s, acts); i < |t.calls| && Open(t.calls[i]) == 0
  {
    if acts == [] {
    } else {
      var t, a := Exec(s, acts[..|acts| - 1]), acts[|acts| - 1];
      EndedStaysEnded(s, acts[..|acts| - 1], i);
      ExecInRange(s, acts[..|acts| - 1]);
      if Enabled(t, a) && Target(a) == Some(i) { MovedEnd(t, a); }
    }
  }

  // ---- what `stats` and `reuses` report ----

  /** What only ever grows. */
  predicate Later(s: State, t: State)
  {
    && t.allocations >= s.allocations && t.log.stocked >= s.log.stocked
    && t.log.initPanics >= s.log.initPanics && |t.gone| >= |s.gone|
  }

  predicate NoForeign(acts: seq<Action>)
  {
    forall a | a in acts :: !a.StartForeign?
  }

  lemma LogGrows(s: State, a: Action)
    requires InRange(s)
    ensures Later(s, Apply(s, a))
    ensures !a.StartForeign? ==> Apply(s, a).log.foreign == s.log.foreign
  {
    if Enabled(s, a) && Target(a).Some? {
      assert CallInRange(s.calls[Target(a).value], |s.piles|);
    }
  }

  lemma {:induction false} ExecGrows(s: State, acts: seq<Action>)
    requires InRange(s)
    ensures Later(s, Exec(s, acts))
    ensures NoForeign(acts) ==> Exec(s, acts).log.foreign == s.log.foreign
  {
    if acts == [] {
    } else {
      ExecGrows(s, acts[..|acts| - 1]);
      ExecInRange(s, acts[..|acts| - 1]);
      LogGrows(Exec(s, acts[..|acts| - 1]), acts[|acts| - 1]);
    }
  }

  /** `stats` loads the leases in `o` and, any run later, the allocations. What `reuses` then
      computes is the number of leases served from recycled buffers by the first load, plus
      the leases undecided at that moment, less the prefilled buffers and less everything
      allocated between the loads. So it is that number if and only if these cancel out, and
      it wraps if and only if they outweigh it. */
  lemma StatsIff(o: State, acts: seq<Action>)
    requires Reachable(o)
    ensures var s := Exec(o, acts);
            var undecided, between := Sum(Serving, o.calls), s.allocations - o.allocations;
            && undecided >= 0 && between >= 0
            && o.leases - s.allocations == o.log.served + undecided - o.log.stocked - between
            && (o.leases - s.allocations == o.log.served <==> undecided == o.log.stocked + between)
            && (o.leases < s.allocations <==> o.log.served + undecided < o.log.stocked + between)
  {
    ReachableBooks(o);
    ReachableInRange(o);
    SumCovers(Serving, o.calls);
    ExecGrows(o, acts);
  }

  /** With both loads at one moment at rest: `leases - allocations` counts the leases served
      from recycled buffers exactly when nothing was ever prefilled; it wraps exactly when
      fewer leases were served from the piles than buffers were prefilled. */
  lemma ReusesIff(s: State)
    requires Reachable(s) && AllAtRest(s)
    ensures s.leases - s.allocations == s.log.served <==> s.log.stocked == 0
    ensures s.leases < s.allocations <==> s.log.served < s.log.stocked
  {
    AllocationsAreBuffers(s);
  }

  /** The documented reading fails on the shortest run with a prefill: one buffer counted,
      no lease, so the difference is below zero. */
  lemma PrefillWrapsReuses(n: nat)
    requires n > 0
    ensures var s := Exec(New(n), [StartStock, Step(0)]); s.leases < s.allocations
  {
    ExecTwo(New(n), StartStock, Step(0));
  }

  /** And without any prefill, when a `get` starts and allocates between the two loads. */
  lemma LateLoadWrapsReuses(n: nat)
    requires n > 0
    ensures var o := New(n); var s := Exec(o, [StartGet(0), Step(0)] + [Step(0), Step(0)]);
            && s.log.stocked == 0 && o.leases < s.allocations
            && s.calls == [RunInit(0)] && s.allocations == 1 && s.made == 0 && |s.piles| > 1
  {
    var o, first := New(n), [StartGet(0), Step(0)];
    ExecTwo(o, StartGet(0), Step(0));
    var t := Exec(o, first);
    assert t.calls == [PopReserve(0)] && t.piles[n] == [];
    AllocatesLate(t, n);
    ExecConcat(o, first, [Step(0), Step(0)]);
  }

  lemma AllocatesLate(t: State, n: nat)
    requires n > 0 && |t.piles| == n + 1 && t.calls == [PopReserve(0)] && t.piles[n] == []
    ensures var s := Exec(t, [Step(0), Step(0)]);
            && s.log.stocked == t.log.stocked && s.allocations == t.allocations + 1
            && s.calls == [RunInit(0)] && s.made == t.made && |s.piles| == n + 1
  {
    hide Apply, Exec;
    ExecTwo(t, Step(0), Step(0));
    FindsNothing(t, n);
    CountsAllocation(Apply(t, Step(0)));
  }

  lemma FindsNothing(t: State, n: nat)
    requires n > 0 && |t.piles| == n + 1 && t.calls == [PopReserve(0)] && t.piles[n] == []
    ensures var s := Apply(t, Step(0));
            && s.calls == [CountAlloc(0)] && s.log == t.log && s.allocations == t.allocations
            && s.made == t.made && |s.piles| == n + 1
  {
  }

  lemma CountsAllocation(t: State)
    requires |t.piles| > 1 && t.calls == [CountAlloc(0)]
    ensures var s := Apply(t, Step(0));
            && s.log.stocked == t.log.stocked && s.allocations == t.allocations + 1
            && s.calls == [RunInit(0)] && s.made == t.made && |s.piles| == |t.piles|
  {
  }

  // ---- initializers that unwind ----

  /** At rest the allocations count the buffers made, apart from those put from outside, if
      and only if no initializer has unwound. */
  lemma AllocationsAreMadeIff(s: State)
    requires Reachable(s) && AllAtRest(s)
    ensures s.allocations + s.log.foreign == s.made <==> s.log.initPanics == 0
  {
    AllocationsAreBuffers(s);
    ReachableBooks(s);
  }

  /** The first lease of a new pool, its initializer unwinding: one allocation, no buffer. */
  lemma UnwoundInitializerCounts(n: nat)
    requires n > 0
    ensures var s := Exec(New(n), [StartGet(0), Step(0)] + [Step(0), Step(0)] + [Panic(0)]);
            AllAtRest(s) && s.allocations == 1 && s.made == 0
  {
    var acts := [StartGet(0), Step(0)] + [Step(0), Step(0)];
    LateLoadWrapsReuses(n);
    ExecThen(New(n), acts, Panic(0));
    Unwinds(Exec(New(n), acts));
  }

  lemma Unwinds(s: State)
    requires |s.piles| > 1 && s.calls == [RunInit(0)]
    ensures var t := Apply(s, Panic(0)); t.calls == [Done] && t.allocations == s.allocations && t.made == s.made
  {
  }

  // ---- allocations as a bound ----

  /** Vectors handed out by drains that their callers have not picked up. */
  function Uncollected(c: Call): int
  {
    if c.Drained? then |c.taken| else 0
  }

  lemma {:induction false} OwnedAtRest(calls: seq<Call>)
    requires forall i | 0 <= i < |calls| :: AtRest(calls[i])
    ensures Sum(OwnedCount, calls) == Sum(Outstanding, calls) + Sum(Uncollected, calls)
  {
    if calls == [] {
    } else {
      OwnedAtRest(calls[..|calls| - 1]);
      assert AtRest(calls[|calls| - 1]);
    }
  }

  /** At rest the allocations bound the leases out, as documented, if and only if the buffers
      put from outside are matched by buffers that are not leased: parked, drained, detached
      or destroyed, or never made because their initializer unwound. */
  lemma BoundedAtRestIff(s: State)
    requires Reachable(s) && AllAtRest(s)
    ensures Sum(Outstanding, s.calls) <= s.allocations <==>
            s.log.foreign <= Idle(s.piles) + Sum(Uncollected, s.calls) + |s.hands| + |s.gone| + s.log.initPanics
  {
    AllocationsAreBuffers(s);
    OwnedAtRest(s.calls);
  }
}
