/**
  What the law of PoolFlows says of pipelines, which lease on some threads and drop on
  others: nothing ever flows back into the shards that are leased from, so every lease
  beyond the prefill allocates, however few are out at once (src/buffer.rs:335-337).
 */
module PoolMigration {
  import opened Wrappers
  import opened Sums
  import opened PoolSteps
  import opened PoolFlows
  import opened PoolSolo
  import PoolLeases
  import PoolPeaks
  import M = PoolModel

  // ---- leases from some shards, returns to others ----

  /** The shards in `from` are leased from and never returned to, the others the reverse. */
  predicate OneWay(acts: seq<Action>, shards: nat, from: set<nat>)
    requires shards > 0
  {
    forall a | a in acts :: OneWayAction(a, shards, from)
  }

  predicate OneWayAction(a: Action, shards: nat, from: set<nat>)
    requires shards > 0
  {
    && FlowAction(a)
    && (a.StartGet? ==> a.tid % shards in from)
    && (a.Drop? || a.StartPut? || a.StartForeign? ==> a.tid % shards !in from)
  }

  predicate OneWayCall(c: Call, from: set<nat>)
  {
    match c
    case PopShard(sh) => sh in from
    case Reset(p, _) => p !in from
    case Claim(p, _) => p !in from
    case Push(p, _) => p !in from
    case _ => true
  }

  ghost predicate OneWayState(s: State, from: set<nat>)
  {
    forall i | 0 <= i < |s.calls| :: OneWayCall(s.calls[i], from)
  }

  lemma ApplyOneWay(s: State, a: Action, from: set<nat>)
    requires InRange(s) && AllShardBound(s) && OneWayState(s, from) && OneWayAction(a, Shards(s), from)
    ensures OneWayState(Apply(s, a), from)
  {
    hide Advance;
    if Enabled(s, a) && Target(a).Some? {
      MovedOneWay(s, a, from);
    }
  }

  lemma MovedOneWay(s: State, a: Action, from: set<nat>)
    requires InRange(s) && AllShardBound(s) && OneWayState(s, from) && OneWayAction(a, Shards(s), from)
    requires Target(a).Some? && Enabled(s, a)
    ensures OneWayCall(EffectOf(s, a).call, from)
  {
    var c := s.calls[Target(a).value];
    assert CallInRange(c, |s.piles|) && ShardBound(c, |s.piles|) && OneWayCall(c, from);
  }

  /** One for an action in which a lease tries a shard below `n`. */
  function Attempt(s: State, a: Action, n: nat): int
  {
    if Touched(s, a).Some? && Touched(s, a).value < n && s.calls[a.call].PopShard? then 1 else 0
  }

  /** What is leased from has no returns, so its peak is its flow; the rest has no peak. */
  lemma {:induction false} OneWayPeak(o: State, stock: nat, acts: seq<Action>, from: set<nat>, sh: nat)
    requires Prefilled(o, stock) && OneWay(acts, Shards(o), from)
    ensures OneWayState(Exec(o, acts), from)
    ensures PeakNet(o, acts, sh) == if sh in from then Net(o, acts, sh) else 0
    ensures sh !in from ==> Net(o, acts, sh) <= 0
  {
    if acts == [] {
    } else {
      var s, a := Exec(o, acts[..|acts| - 1]), acts[|acts| - 1];
      OneWayPeak(o, stock, acts[..|acts| - 1], from, sh);
      FlowRunKeeps(o, stock, acts[..|acts| - 1]);
      ApplyOneWay(s, a, from);
      if Touched(s, a) == Some(sh) { assert OneWayCall(s.calls[a.call], from); }
    }
  }

  lemma {:induction false} OneWaySumStep(o: State, stock: nat, acts: seq<Action>, from: set<nat>, n: nat)
    requires Prefilled(o, stock) && OneWay(acts, Shards(o), from) && acts != []
    ensures var k := |acts| - 1;
            PeakSum(o, acts, n) == PeakSum(o, acts[..k], n) + Attempt(Exec(o, acts[..k]), acts[k], n)
  {
    if n == 0 {
    } else {
      OneWaySumStep(o, stock, acts, from, n - 1);
      OneWayPeakStep(o, stock, acts, from, n - 1);
    }
  }

  /** A peak rises exactly when a lease tries that shard. */
  lemma OneWayPeakStep(o: State, stock: nat, acts: seq<Action>, from: set<nat>, sh: nat)
    requires Prefilled(o, stock) && OneWay(acts, Shards(o), from) && acts != []
    ensures var k := |acts| - 1;
            PeakNet(o, acts, sh)
            == PeakNet(o, acts[..k], sh) + if NetShift(Exec(o, acts[..k]), acts[k], sh) == 1 then 1 else 0
  {
    var k := |acts| - 1;
    OneWayPeak(o, stock, acts, from, sh);
    OneWayPeak(o, stock, acts[..k], from, sh);
    var s := Exec(o, acts[..k]);
    if Touched(s, acts[k]) == Some(sh) { assert OneWayCall(s.calls[acts[k].call], from); }
  }

  /** A lease that has not tried its shard yet. */
  function Untried(c: Call): int
  {
    if c.PopShard? then 1 else 0
  }

  lemma MovedUntried(s: State, a: Action)
    requires InRange(s) && Target(a).Some? && Enabled(s, a)
    ensures Untried(s.calls[Target(a).value]) - Untried(EffectOf(s, a).call) == Attempt(s, a, Shards(s))
  {
    assert CallInRange(s.calls[Target(a).value], |s.piles|);
  }

  lemma UntriedMoves(s: State, a: Action)
    requires InRange(s) && FlowAction(a)
    ensures var t := Apply(s, a);
            t.leases - Sum(Untried, t.calls) == s.leases - Sum(Untried, s.calls) + Attempt(s, a, Shards(s))
  {
    hide Advance;
    if !Enabled(s, a) {
    } else if Target(a).Some? {
      CallsMoved(Untried, s, a);
      MovedUntried(s, a);
    } else if Starts(a) {
      CallsBegun(Untried, s, a);
    }
  }

  /** The peaks then add up to the leases that have tried their shard. */
  lemma {:induction false} PeaksAreLeases(o: State, stock: nat, acts: seq<Action>, from: set<nat>)
    requires Prefilled(o, stock) && OneWay(acts, Shards(o), from)
    ensures var s := Exec(o, acts);
            PeakSum(o, acts, Shards(o)) == s.leases - o.leases - Sum(Untried, s.calls)
  {
    if acts == [] {
      SumZero(Untried, o.calls);
      NoPeaks(o, Shards(o));
    } else {
      var k := |acts| - 1;
      PeaksAreLeases(o, stock, acts[..k], from);
      FlowRunKeeps(o, stock, acts[..k]);
      OneWaySumStep(o, stock, acts, from, Shards(o));
      assert OneWayAction(acts[k], Shards(o), from);
      UntriedMoves(Exec(o, acts[..k]), acts[k]);
    }
  }

  /** In a pipeline, capped or not, with no `get` in flight, the pool has allocated for every lease there
      ever was, or just the prefill if that was larger. */
  lemma PipelinesAllocateEveryLease(o: State, stock: nat, acts: seq<Action>, from: set<nat>)
    requires Prefilled(o, stock) && OneWay(acts, Shards(o), from)
    requires forall i | 0 <= i < |Exec(o, acts).calls| :: PoolLeases.Serving(Exec(o, acts).calls[i]) == 0
    ensures Exec(o, acts).allocations == Max(stock, Exec(o, acts).leases - o.leases)
  {
    var s := Exec(o, acts);
    PeaksAreLeases(o, stock, acts, from);
    forall c | c in s.calls ensures Untried(c) == 0 {
      var i :| 0 <= i < |s.calls| && s.calls[i] == c;
      assert PoolLeases.Serving(s.calls[i]) == 0;
    }
    SumZero(Untried, s.calls);
    assert NoneDeciding(s) by {
      forall i | 0 <= i < |s.calls| ensures Deciding(s.calls[i]) == 0 {
        assert PoolLeases.Serving(s.calls[i]) == 0;
      }
    }
    ExactAllocations(o, stock, acts);
  }

  // ---- the shortest pipeline: one lease out at a time ----

  /** `k` times: lease on thread `a`, drop the guard on thread `b`. Calls before `base` are
      over. */
  function Migrate(base: nat, k: nat, a: nat, b: nat): seq<Op>
  {
    if k == 0 then [] else Migrate(base, k - 1, a, b) + [DoLease(a)] + [DoReturn(base + k - 1, b)]
  }

  predicate OneWayOp(op: Op, shards: nat, from: set<nat>)
    requires shards > 0
  {
    match op
    case DoLease(tid) => tid % shards in from
    case DoReturn(_, tid) => tid % shards !in from
    case DoCount => true
    case DoHook => true
    case _ => false
  }

  lemma {:induction false} SessionIsOneWay(s: State, ops: seq<Op>, from: set<nat>)
    requires |s.piles| > 1 && forall op | op in ops :: OneWayOp(op, Shards(s), from)
    ensures OneWay(SessionActions(s, ops), Shards(s), from)
  {
    if ops == [] {
    } else {
      hide OneWayOp;
      var n := |ops| - 1;
      SessionIsOneWay(s, ops[..n], from);
      OpIsOneWay(Session(s, ops[..n]), ops[n], from);
    }
  }

  lemma OpIsOneWay(s: State, op: Op, from: set<nat>)
    requires |s.piles| > 1 && OneWayOp(op, Shards(s), from)
    ensures OneWay(OpActions(s, op), Shards(s), from)
  {
  }

  lemma {:induction false} MigrateIsOneWay(base: nat, k: nat, a: nat, b: nat, shards: nat)
    requires shards > 0 && a % shards != b % shards
    ensures forall op | op in Migrate(base, k, a, b) :: OneWayOp(op, shards, {a % shards})
  {
    if k == 0 {
    } else {
      MigrateIsOneWay(base, k - 1, a, b, shards);
    }
  }

  predicate AllOver(calls: seq<Call>)
  {
    forall i | 0 <= i < |calls| :: calls[i].Done?
  }

  lemma RoundModel(d: Desk, a: nat, b: nat)
    requires |d.pool.stacks| > 0 && AllOver(d.calls)
    ensures var e := Expected(Expected(d, DoLease(a)), DoReturn(|d.calls|, b));
            |e.calls| == |d.calls| + 1 && AllOver(e.calls) && e.pool.leases == d.pool.leases + 1
  {
    hide M.AtCap;
  }

  /** After `k` rounds in the model every lease is over. */
  predicate RoundsOver(d: Desk, k: nat, a: nat, b: nat)
    requires |d.pool.stacks| > 0
  {
    var e := ModelSession(d, Migrate(|d.calls|, k, a, b));
    |e.calls| == |d.calls| + k && AllOver(e.calls) && e.pool.leases == d.pool.leases + k
  }

  lemma {:induction false} MigrateModel(d: Desk, k: nat, a: nat, b: nat)
    requires |d.pool.stacks| > 0 && AllOver(d.calls)
    ensures RoundsOver(d, k, a, b)
  {
    if k == 0 {
    } else {
      hide RoundsOver;
      MigrateModel(d, k - 1, a, b);
      NextRound(d, k - 1, a, b);
    }
  }

  lemma NextRound(d: Desk, k: nat, a: nat, b: nat)
    requires |d.pool.stacks| > 0 && RoundsOver(d, k, a, b)
    ensures RoundsOver(d, k + 1, a, b)
  {
    hide ModelSession, Expected, AllOver;
    ModelTwo(d, Migrate(|d.calls|, k, a, b), DoLease(a), DoReturn(|d.calls| + k, b));
    RoundModel(ModelSession(d, Migrate(|d.calls|, k, a, b)), a, b);
  }

  /** `k` leases, one out at a time, each dropped on a thread of another shard: at the end no
      lease is out, and the pool has allocated `k` buffers, or the prefill if that was larger. */
  lemma MigrationAllocatesEveryTime(shards: nat, stock: nat, k: nat, a: nat, b: nat)
    requires shards > 0 && a % shards != b % shards
    ensures var o := PoolPeaks.Stocked(shards, stock);
            var t := Session(o, Migrate(|o.calls|, k, a, b));
            PoolPeaks.AllDone(t) && t.leases == o.leases + k && t.allocations == Max(stock, k)
  {
    hide Session, Exec, Prefilled, Resting, Migrate, ModelSession, OneWay, PoolPeaks.Stocked;
    var o := PoolPeaks.Stocked(shards, stock);
    var ops := Migrate(|o.calls|, k, a, b);
    PoolPeaks.StockedIsPrefilled(shards, stock);
    SequentialRefinement(o, ops);
    MigrateModel(View(o), k, a, b);
    var t := Session(o, ops);
    assert View(t).calls == t.calls && View(t).pool.leases == t.leases;
    SessionIsRun(o, ops);
    MigrateIsOneWay(|o.calls|, k, a, b, shards);
    SessionIsOneWay(o, ops, {a % shards});
    PipelinesAllocateEveryLease(o, stock, SessionActions(o, ops), {a % shards});
  }
}
