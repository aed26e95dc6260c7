/**
  The documented law of the pool's size (src/buffer.rs:332-338): the sum over the shards of
  the most leases that were out of that shard at once. It is the law of PoolFlows for runs
  in which every guard is dropped on a thread of the shard it was leased from.
 */
module PoolPeaks {
  import opened Wrappers
  import opened Sums
  import opened PoolSteps
  import opened PoolFlows
  import PoolCounter
  import PoolSolo

  // ---- where guards are dropped ----

  /** For each shard the shard on whose threads the guards leased from it are dropped. */
  predicate IsRoute(route: seq<nat>, shards: nat)
  {
    |route| == shards && forall sh | 0 <= sh < shards :: route[sh] < shards
  }

  /** Every guard comes home. */
  function HomeRoute(shards: nat): seq<nat>
  {
    seq(shards, sh => sh)
  }

  /** Leases and their ends along the route, in an uncapped pool. */
  predicate RoutedAction(s: State, a: Action, route: seq<nat>)
    requires |s.piles| > 1
  {
    && (a.StartGet? || a.StartCount? || a.Step? || a.Drop? || a.Collect? || a.Discard? || a.SetReset?)
    && (a.Drop? && a.call < |s.calls| && s.calls[a.call].Held? ==>
        s.calls[a.call].shard < |route| && ShardOf(s, a.tid) == route[s.calls[a.call].shard])
  }

  predicate Routed(o: State, acts: seq<Action>, route: seq<nat>)
    requires |o.piles| > 1
  {
    acts == [] ||
    (Routed(o, acts[..|acts| - 1], route) && RoutedAction(Exec(o, acts[..|acts| - 1]), acts[|acts| - 1], route))
  }

  predicate HomeRun(o: State, acts: seq<Action>)
    requires |o.piles| > 1
  {
    Routed(o, acts, HomeRoute(Shards(o)))
  }

  lemma {:induction false} RoutedFlows(o: State, acts: seq<Action>, route: seq<nat>)
    requires |o.piles| > 1 && Routed(o, acts, route)
    ensures FlowRun(acts)
  {
    if acts == [] {
    } else {
      RoutedFlows(o, acts[..|acts| - 1], route);
      assert acts == acts[..|acts| - 1] + [acts[|acts| - 1]];
    }
  }

  /** Nothing is refused, so every return reaches its shard. */
  ghost predicate LeasesOnly(s: State)
  {
    && s.cap == Uncapped && AllShardBound(s)
    && forall i | 0 <= i < |s.calls| :: !s.calls[i].Rollback?
  }

  lemma ApplyLeasesOnly(s: State, a: Action, route: seq<nat>)
    requires InRange(s) && LeasesOnly(s) && RoutedAction(s, a, route)
    ensures LeasesOnly(Apply(s, a))
  {
    hide Advance;
    ApplyShardBound(s, a);
    if Enabled(s, a) && Target(a).Some? { NeverRefused(s, a); }
  }

  lemma NeverRefused(s: State, a: Action)
    requires InRange(s) && s.cap == Uncapped && Target(a).Some? && Enabled(s, a)
    ensures !EffectOf(s, a).call.Rollback?
  {
    assert CallInRange(s.calls[Target(a).value], |s.piles|);
  }

  lemma {:induction false} RoutedKeeps(o: State, stock: nat, acts: seq<Action>, route: seq<nat>)
    requires Prefilled(o, stock) && o.cap == Uncapped && Routed(o, acts, route)
    ensures InRange(Exec(o, acts)) && LeasesOnly(Exec(o, acts))
  {
    if acts == [] {
    } else {
      var s, a := Exec(o, acts[..|acts| - 1]), acts[|acts| - 1];
      RoutedKeeps(o, stock, acts[..|acts| - 1], route);
      ApplyInRange(s, a);
      ApplyLeasesOnly(s, a, route);
    }
  }

  // ---- leases out of a shard ----

  /** The shard a lease is out of, from its shard-pop attempt until it is pushed back. */
  function OutShard(c: Call): Option<nat>
  {
    match c
    case PopReserve(sh) => Some(sh)
    case Unpark(sh, _) => Some(sh)
    case CountAlloc(sh) => Some(sh)
    case RunInit(sh) => Some(sh)
    case Held(sh, _) => Some(sh)
    case Reset(p, _) => Some(p)
    case Claim(p, _) => Some(p)
    case Push(p, _) => Some(p)
    case _ => None
  }

  function OutOf(sh: nat): Call -> int
  {
    (c: Call) => if OutShard(c) == Some(sh) then 1 else 0
  }

  function Out(s: State, sh: nat): int
  {
    Sum(OutOf(sh), s.calls)
  }

  /** The most leases ever out of shard `sh` at once during the run. */
  function Peak(o: State, acts: seq<Action>, sh: nat): int
    requires |o.piles| > 1
  {
    if acts == [] then Out(o, sh) else Max(Peak(o, acts[..|acts| - 1], sh), Out(Exec(o, acts), sh))
  }

  function OutPeakSum(o: State, acts: seq<Action>, n: nat): int
    requires |o.piles| > 1
  {
    if n == 0 then 0 else OutPeakSum(o, acts, n - 1) + Peak(o, acts, n - 1)
  }

  lemma MovedOut(s: State, a: Action, sh: nat)
    requires InRange(s) && LeasesOnly(s) && RoutedAction(s, a, HomeRoute(Shards(s))) && Target(a).Some? && Enabled(s, a)
    ensures OutOf(sh)(EffectOf(s, a).call) - OutOf(sh)(s.calls[Target(a).value]) == NetShift(s, a, sh)
  {
    var c := s.calls[Target(a).value];
    assert CallInRange(c, |s.piles|) && ShardBound(c, |s.piles|);
  }

  lemma OutMoves(s: State, a: Action, sh: nat)
    requires InRange(s) && LeasesOnly(s) && RoutedAction(s, a, HomeRoute(Shards(s)))
    ensures Out(Apply(s, a), sh) == Out(s, sh) + NetShift(s, a, sh)
  {
    hide Advance;
    if !Enabled(s, a) {
    } else if Target(a).Some? {
      CallsMoved(OutOf(sh), s, a);
      MovedOut(s, a, sh);
    } else if Starts(a) {
      CallsBegun(OutOf(sh), s, a);
    }
  }

  /** When guards come home, a shard's net flow is the number of leases out of it. */
  lemma {:induction false} NetIsOut(o: State, stock: nat, acts: seq<Action>, sh: nat)
    requires Prefilled(o, stock) && o.cap == Uncapped && HomeRun(o, acts)
    ensures Net(o, acts, sh) == Out(Exec(o, acts), sh) && PeakNet(o, acts, sh) == Peak(o, acts, sh)
  {
    if acts == [] {
      SumZero(OutOf(sh), o.calls);
    } else {
      var n := |acts| - 1;
      NetIsOut(o, stock, acts[..n], sh);
      RoutedKeeps(o, stock, acts[..n], HomeRoute(Shards(o)));
      OutMoves(Exec(o, acts[..n]), acts[n], sh);
    }
  }

  /** In every state of such a run, a shard's pile and the leases out of it add up to the
      most that were ever out at once. */
  lemma PilePlusOutIsPeak(o: State, stock: nat, acts: seq<Action>, sh: nat)
    requires Prefilled(o, stock) && o.cap == Uncapped && HomeRun(o, acts) && sh < Shards(o)
    ensures |Exec(o, acts).piles[sh]| + Out(Exec(o, acts), sh) == Peak(o, acts, sh)
  {
    RoutedFlows(o, acts, HomeRoute(Shards(o)));
    NetIsOut(o, stock, acts, sh);
    PilePlusNetIsPeak(o, stock, acts, sh);
  }

  lemma {:induction false} SamePeaks(o: State, stock: nat, acts: seq<Action>, n: nat)
    requires Prefilled(o, stock) && o.cap == Uncapped && HomeRun(o, acts)
    ensures PeakSum(o, acts, n) == OutPeakSum(o, acts, n)
  {
    if n == 0 {
    } else {
      hide Peak, PeakNet, HomeRun;
      SamePeaks(o, stock, acts, n - 1);
      NetIsOut(o, stock, acts, n - 1);
    }
  }

  /** With guards coming home, allocations are the larger of the prefill and the sum of the
      per-shard peaks, as documented. */
  lemma HomeAllocations(o: State, stock: nat, acts: seq<Action>)
    requires Prefilled(o, stock) && o.cap == Uncapped && HomeRun(o, acts) && NoneDeciding(Exec(o, acts))
    ensures Exec(o, acts).allocations == Max(stock, OutPeakSum(o, acts, Shards(o)))
  {
    RoutedFlows(o, acts, HomeRoute(Shards(o)));
    SamePeaks(o, stock, acts, Shards(o));
    ExactAllocations(o, stock, acts);
  }

  // ---- from a new pool on ----

  /** A new pool after `prefill(stock)`. */
  function Stocked(shards: nat, stock: nat): (o: State)
    requires shards > 0
    ensures |o.piles| == shards + 1
  {
    if stock == 0 then New(shards) else PoolSolo.Solo(Stocked(shards, stock - 1), PoolSolo.DoStock)
  }

  ghost predicate AllDone(s: State)
  {
    forall i | 0 <= i < |s.calls| :: s.calls[i].Done?
  }

  lemma StockOnce(s: State, stock: nat)
    requires Prefilled(s, stock) && s.cap == Uncapped && PoolSolo.Resting(s) && AllDone(s)
    ensures var t := PoolSolo.Solo(s, PoolSolo.DoStock);
            Prefilled(t, stock + 1) && t.cap == Uncapped && PoolSolo.Resting(t) && AllDone(t)
  {
    hide Apply, PoolSolo.Alone, PoolCounter.Accounted, CallInRange;
    var t := PoolSolo.Solo(s, PoolSolo.DoStock);
    PoolSolo.StockAlone(s);
    var m := PoolSolo.Abs(s);
    assert PoolSolo.Abs(t) == PoolSolo.View(t).pool;
    assert PoolSolo.Abs(t) == m.(allocations := stock + 1, reserve := m.reserve + [s.made]);
    assert PoolSolo.View(t).calls == t.calls;
    forall sh | 0 <= sh < Shards(t) ensures t.piles[sh] == [] {
      assert t.piles[sh] == PoolSolo.Abs(t).stacks[sh];
      assert s.piles[sh] == m.stacks[sh];
    }
  }

  lemma {:induction false} StockedIsPrefilled(shards: nat, stock: nat)
    requires shards > 0
    ensures var o := Stocked(shards, stock);
            Prefilled(o, stock) && o.cap == Uncapped && PoolSolo.Resting(o) && AllDone(o)
  {
    if stock == 0 {
      SumZero(Length<nat>, New(shards).piles);
    } else {
      hide PoolSolo.Solo, Prefilled, PoolSolo.Resting, AllDone;
      StockedIsPrefilled(shards, stock - 1);
      StockOnce(Stocked(shards, stock - 1), stock - 1);
    }
  }

  /** A new pool after a prefill: the law of net flows in every run without drains and further
      prefills, and the documented one if moreover every guard comes home. */
  lemma AllocationsFromNew(shards: nat, stock: nat, acts: seq<Action>)
    requires shards > 0
    ensures var o := Stocked(shards, stock);
            FlowRun(acts) && NoneDeciding(Exec(o, acts)) ==>
              && Exec(o, acts).allocations == Max(stock, PeakSum(o, acts, shards))
              && (HomeRun(o, acts) ==> Exec(o, acts).allocations == Max(stock, OutPeakSum(o, acts, shards)))
  {
    var o := Stocked(shards, stock);
    StockedIsPrefilled(shards, stock);
    if FlowRun(acts) && NoneDeciding(Exec(o, acts)) {
      ExactAllocations(o, stock, acts);
      if HomeRun(o, acts) { HomeAllocations(o, stock, acts); }
    }
  }
}
