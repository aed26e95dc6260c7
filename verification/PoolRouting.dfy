/**
  For which programs the documented size law holds (src/buffer.rs:332-338). A program drops the
  guards leased from each shard on the threads of some shard; that route is all that matters.
 */
module PoolRouting {
  import opened Sums
  import opened PoolSteps
  import opened PoolFlows
  import opened PoolPeaks
  import opened PoolSolo
  import opened PoolMigration

  /** Whenever no `get` is deciding, allocations are the larger of the prefill and the sum of the
      per-shard peaks of leases out. */
  ghost predicate AsDocumented(o: State, stock: nat, acts: seq<Action>)
    requires |o.piles| > 1
  {
    NoneDeciding(Exec(o, acts)) ==> Exec(o, acts).allocations == Max(stock, OutPeakSum(o, acts, Shards(o)))
  }

  // ---- one lease at a time ----

  /** No other call than `i` is under way. */
  predicate OnlyCall(s: State, i: nat)
  {
    forall j | 0 <= j < |s.calls| && j != i :: s.calls[j].Done?
  }

  /** The action belongs to a lease from shard `a` that is returned to shard `b`, and to the
      only one there is. */
  predicate Turn(s: State, act: Action, a: nat, b: nat)
    requires |s.piles| > 1
  {
    match act
    case StartGet(tid) => ShardOf(s, tid) == a && OnlyCall(s, |s.calls|)
    case Step(i) => OnlyCall(s, i)
    case Drop(i, tid) => OnlyCall(s, i) && ShardOf(s, tid) == b
    case _ => false
  }

  predicate Turns(s: State, acts: seq<Action>, a: nat, b: nat)
    requires |s.piles| > 1
  {
    acts == [] ||
    (Turns(s, acts[..|acts| - 1], a, b) && Turn(Exec(s, acts[..|acts| - 1]), acts[|acts| - 1], a, b))
  }

  lemma {:induction false} TurnsConcat(s: State, xs: seq<Action>, ys: seq<Action>, a: nat, b: nat)
    requires |s.piles| > 1 && Turns(s, xs, a, b) && Turns(Exec(s, xs), ys, a, b)
    ensures Turns(s, xs + ys, a, b)
  {
    if ys == [] {
      assert xs + ys == xs;
    } else {
      hide Turn, Exec;
      var n := |ys| - 1;
      assert (xs + ys)[..|xs + ys| - 1] == xs + ys[..n];
      TurnsConcat(s, xs, ys[..n], a, b);
      ExecConcat(s, xs, ys[..n]);
    }
  }

  lemma StepKeepsOnly(s: State, i: nat)
    requires |s.piles| > 1 && OnlyCall(s, i)
    ensures OnlyCall(Apply(s, Step(i)), i)
  {
  }

  lemma {:induction false} StepsAreTurns(s: State, i: nat, k: nat, a: nat, b: nat)
    requires |s.piles| > 1 && OnlyCall(s, i)
    ensures Turns(s, seq(k, _ => Step(i)), a, b) && OnlyCall(Exec(s, seq(k, _ => Step(i))), i)
  {
    if k == 0 {
    } else {
      hide Apply, OnlyCall;
      StepsAreTurns(s, i, k - 1, a, b);
      assert seq(k, _ => Step(i))[..k - 1] == seq(k - 1, _ => Step(i));
      StepKeepsOnly(Exec(s, seq(k - 1, _ => Step(i))), i);
    }
  }

  /** An action followed by steps of the call it starts or moves. */
  lemma FirstThenSteps(s: State, act: Action, i: nat, k: nat, a: nat, b: nat)
    requires |s.piles| > 1 && Turn(s, act, a, b) && OnlyCall(Apply(s, act), i)
    ensures Turns(s, [act] + seq(k, _ => Step(i)), a, b)
  {
    hide Turn, Apply, OnlyCall;
    ExecNothing(s);
    assert [act][..0] == [];
    assert Turns(s, [act], a, b);
    StartThenAlone(s, act, i, k);
    StepsAreTurns(Apply(s, act), i, k, a, b);
    TurnsConcat(s, [act], seq(k, _ => Step(i)), a, b);
  }

  lemma LeaseIsTurns(s: State, tid: nat, b: nat)
    requires |s.piles| > 1 && AllOver(s.calls)
    ensures Turns(s, OpActions(s, DoLease(tid)), ShardOf(s, tid), b)
  {
    FirstThenSteps(s, StartGet(tid), |s.calls|, 4, ShardOf(s, tid), b);
  }

  lemma ReturnIsTurns(s: State, i: nat, tid: nat, a: nat)
    requires |s.piles| > 1 && OnlyCall(s, i)
    ensures Turns(s, OpActions(s, DoReturn(i, tid)), a, ShardOf(s, tid))
  {
    if Possible(s.calls, s.hands, DoReturn(i, tid)) {
      FirstThenSteps(s, Drop(i, tid), i, 3, a, ShardOf(s, tid));
    }
  }

  lemma SessionTwo(s: State, ops: seq<Op>, x: Op, y: Op)
    requires |s.piles| > 1
    ensures var t := Session(s, ops);
            && Session(s, ops + [x]) == Solo(t, x)
            && SessionActions(s, ops + [x] + [y])
               == SessionActions(s, ops) + OpActions(t, x) + OpActions(Solo(t, x), y)
  {
    hide Solo, OpActions;
    assert (ops + [x])[..|ops|] == ops;
    assert (ops + [x] + [y])[..|ops| + 1] == ops + [x];
  }

  lemma {:induction false} MigrateIsTurns(o: State, k: nat, a: nat, b: nat)
    requires |o.piles| > 1 && Resting(o) && AllOver(o.calls)
    ensures Turns(o, SessionActions(o, Migrate(|o.calls|, k, a, b)), ShardOf(o, a), ShardOf(o, b))
  {
    if k == 0 {
    } else {
      MigrateIsTurns(o, k - 1, a, b);
      RoundIsTurns(o, k - 1, a, b);
    }
  }

  lemma RoundIsTurns(o: State, k: nat, a: nat, b: nat)
    requires |o.piles| > 1 && Resting(o) && AllOver(o.calls)
    requires Turns(o, SessionActions(o, Migrate(|o.calls|, k, a, b)), ShardOf(o, a), ShardOf(o, b))
    ensures Turns(o, SessionActions(o, Migrate(|o.calls|, k + 1, a, b)), ShardOf(o, a), ShardOf(o, b))
  {
    hide Session, SessionActions, OpActions, Solo, Turns, Exec, ModelSession, Resting;
    var ops, i := Migrate(|o.calls|, k, a, b), |o.calls| + k;
    var t := Session(o, ops);
    SequentialRefinement(o, ops);
    MigrateModel(View(o), k, a, b);
    assert View(t).calls == t.calls;
    SessionTwo(o, ops, DoLease(a), DoReturn(i, b));
    SessionIsRun(o, ops);
    SoloIsRun(t, DoLease(a));
    LeaseIsTurns(t, a, ShardOf(t, b));
    TurnsConcat(o, SessionActions(o, ops), OpActions(t, DoLease(a)), ShardOf(o, a), ShardOf(o, b));
    ExecConcat(o, SessionActions(o, ops), OpActions(t, DoLease(a)));
    var u := Solo(t, DoLease(a));
    LeasedOnly(t, a);
    ReturnIsTurns(u, i, b, ShardOf(u, a));
    TurnsConcat(o, SessionActions(o, ops) + OpActions(t, DoLease(a)), OpActions(u, DoReturn(i, b)),
                ShardOf(o, a), ShardOf(o, b));
  }

  lemma LeasedOnly(t: State, a: nat)
    requires Resting(t) && AllOver(t.calls)
    ensures OnlyCall(Solo(t, DoLease(a)), |t.calls|)
  {
    hide Apply, Alone;
    GetAlone(t, a);
    assert View(Solo(t, DoLease(a))).calls == Solo(t, DoLease(a)).calls;
  }

  // ---- what is out in such a run ----

  predicate NarrowCall(c: Call, a: nat, b: nat)
  {
    match c
    case PopShard(sh) => sh == a
    case PopReserve(sh) => sh == a
    case Unpark(sh, _) => sh == a
    case CountAlloc(sh) => sh == a
    case RunInit(sh) => sh == a
    case Held(sh, _) => sh == a
    case Reset(p, _) => p == b
    case Claim(p, _) => p == b
    case Rollback(p, _) => p == b
    case Push(p, _) => p == b
    case Done => true
    case _ => false
  }

  ghost predicate Narrow(s: State, a: nat, b: nat)
  {
    && (exists i :: 0 <= i <= |s.calls| && OnlyCall(s, i))
    && forall i | 0 <= i < |s.calls| :: NarrowCall(s.calls[i], a, b)
  }

  lemma MovedNarrow(s: State, act: Action, a: nat, b: nat)
    requires InRange(s) && Narrow(s, a, b) && Turn(s, act, a, b) && Target(act).Some? && Enabled(s, act)
    ensures NarrowCall(EffectOf(s, act).call, a, b)
  {
    var c := s.calls[Target(act).value];
    assert CallInRange(c, |s.piles|) && NarrowCall(c, a, b);
  }

  lemma TurnKeepsNarrow(s: State, act: Action, a: nat, b: nat)
    requires InRange(s) && Narrow(s, a, b) && Turn(s, act, a, b)
    ensures Narrow(Apply(s, act), a, b)
  {
    hide Advance;
    var t := Apply(s, act);
    if !Enabled(s, act) {
    } else if act.StartGet? {
      assert OnlyCall(t, |s.calls|);
    } else {
      MovedNarrow(s, act, a, b);
      assert OnlyCall(t, act.call);
    }
  }

  /** At most one lease is out of shard `a`, at most one on its way into `b`, none elsewhere. */
  function Share(sh: nat, a: nat, b: nat): int
  {
    if sh == a || sh == b then 1 else 0
  }

  lemma NarrowOut(s: State, a: nat, b: nat, sh: nat)
    requires Narrow(s, a, b)
    ensures Out(s, sh) <= Share(sh, a, b)
  {
    var i :| 0 <= i <= |s.calls| && OnlyCall(s, i);
    if i == |s.calls| {
      SumZero(OutOf(sh), s.calls);
    } else {
      assert NarrowCall(s.calls[i], a, b);
      SumUpdate(OutOf(sh), s.calls, i, Done);
      SumZero(OutOf(sh), s.calls[i := Done]);
    }
  }

  lemma {:induction false} NarrowPeak(o: State, stock: nat, acts: seq<Action>, a: nat, b: nat, sh: nat)
    requires Prefilled(o, stock) && AllOver(o.calls) && Turns(o, acts, a, b)
    ensures Narrow(Exec(o, acts), a, b) && InRange(Exec(o, acts)) && Peak(o, acts, sh) <= Share(sh, a, b)
  {
    if acts == [] {
      assert OnlyCall(o, |o.calls|);
      NarrowOut(o, a, b, sh);
    } else {
      hide Prefilled, Narrow, Apply, Turn;
      var n := |acts| - 1;
      NarrowPeak(o, stock, acts[..n], a, b, sh);
      ApplyInRange(Exec(o, acts[..n]), acts[n]);
      TurnKeepsNarrow(Exec(o, acts[..n]), acts[n], a, b);
      NarrowOut(Exec(o, acts), a, b, sh);
    }
  }

  lemma {:induction false} NarrowSum(o: State, stock: nat, acts: seq<Action>, a: nat, b: nat, n: nat)
    requires Prefilled(o, stock) && AllOver(o.calls) && Turns(o, acts, a, b)
    ensures OutPeakSum(o, acts, n) <= (if a < n then 1 else 0) + (if b < n then 1 else 0)
  {
    if n == 0 {
    } else {
      hide Peak;
      NarrowSum(o, stock, acts, a, b, n - 1);
      NarrowPeak(o, stock, acts, a, b, n - 1);
    }
  }

  lemma {:induction false} TurnsAreRouted(o: State, stock: nat, acts: seq<Action>, a: nat, b: nat, route: seq<nat>)
    requires Prefilled(o, stock) && AllOver(o.calls) && Turns(o, acts, a, b)
    requires a < |route| && route[a] == b
    ensures Routed(o, acts, route)
  {
    if acts == [] {
    } else {
      var n := |acts| - 1;
      TurnsAreRouted(o, stock, acts[..n], a, b, route);
      NarrowPeak(o, stock, acts[..n], a, b, 0);
      var s := Exec(o, acts[..n]);
      if acts[n].Drop? && acts[n].call < |s.calls| { assert NarrowCall(s.calls[acts[n].call], a, b); }
    }
  }

  // ---- the iff ----

  /** A route that sends shard `a` elsewhere breaks the law: enough leases, one at a time,
      outgrow the prefill and the two leases that are ever out. */
  lemma StrayRouteBreaks(shards: nat, stock: nat, route: seq<nat>, a: nat) returns (acts: seq<Action>)
    requires shards > 0 && IsRoute(route, shards) && a < shards && route[a] != a
    ensures Routed(Stocked(shards, stock), acts, route)
    ensures !AsDocumented(Stocked(shards, stock), stock, acts)
  {
    hide Stocked, Session, SessionActions, Prefilled, Resting, Migrate, Exec, Turns;
    var o, b, k := Stocked(shards, stock), route[a], stock + 3;
    var ops := Migrate(|o.calls|, k, a, b);
    StockedIsPrefilled(shards, stock);
    assert a % shards == a && b % shards == b;
    MigrationAllocatesEveryTime(shards, stock, k, a, b);
    SessionIsRun(o, ops);
    acts := SessionActions(o, ops);
    MigrateIsTurns(o, k, a, b);
    TurnsAreRouted(o, stock, acts, a, b, route);
    NarrowSum(o, stock, acts, a, b, shards);
    OverIsDecided(Exec(o, acts));
  }

  lemma OverIsDecided(s: State)
    requires AllDone(s)
    ensures NoneDeciding(s)
  {
  }

  /** The documented law holds in every run of a program that leases and drops along a route,
      from a new pool after any prefill, if and only if the route brings every guard home. */
  lemma RoutingIff(shards: nat, stock: nat, route: seq<nat>)
    requires shards > 0 && IsRoute(route, shards)
    ensures (forall acts | Routed(Stocked(shards, stock), acts, route) :: AsDocumented(Stocked(shards, stock), stock, acts))
            <==> route == HomeRoute(shards)
  {
    var o := Stocked(shards, stock);
    if route == HomeRoute(shards) {
      forall acts | Routed(o, acts, route) ensures AsDocumented(o, stock, acts) {
        StockedIsPrefilled(shards, stock);
        if NoneDeciding(Exec(o, acts)) { HomeAllocations(o, stock, acts); }
      }
    } else {
      var a :| 0 <= a < shards && route[a] != a;
      var acts := StrayRouteBreaks(shards, stock, route, a);
    }
  }
}
