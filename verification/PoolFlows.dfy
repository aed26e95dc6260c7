/**
  How many buffers a pool ever allocates (src/buffer.rs:332-338), whoever caps it, detaches
  from it, puts into it or panics, and wherever guards are dropped. What counts for a shard is
  its net flow: leases that have tried to pop it, less buffers pushed into it. Nothing else
  decides, neither threads nor timing.
 */
module PoolFlows {
  import opened Wrappers
  import opened Sums
  import opened PoolSteps

  // ---- the runs the count is about ----

  /** Nothing sweeps the shards, and nothing returns to the reserve. */
  predicate ShardBound(c: Call, piles: nat)
  {
    match c
    case StockCount => false
    case StockInit => false
    case Drain(_, _) => false
    case Reset(p, _) => p + 1 < piles
    case Claim(p, _) => p + 1 < piles
    case Push(p, _) => p + 1 < piles
    case _ => true
  }

  /** Anything but a drain or a prefill. */
  predicate FlowAction(a: Action)
  {
    !a.StartDrain? && !a.StartStock?
  }

  predicate FlowRun(acts: seq<Action>)
  {
    forall a | a in acts :: FlowAction(a)
  }

  /** Freshly built and prefilled with `stock` buffers: the shards are empty. */
  ghost predicate Prefilled(o: State, stock: nat)
  {
    && InRange(o) && o.allocations == stock
    && |o.piles[Shards(o)]| == stock
    && (forall sh | 0 <= sh < Shards(o) :: o.piles[sh] == [])
    && (forall i | 0 <= i < |o.calls| :: o.calls[i].Done? || o.calls[i].Counted?)
  }

  ghost predicate AllShardBound(s: State)
  {
    forall i | 0 <= i < |s.calls| :: ShardBound(s.calls[i], |s.piles|)
  }

  lemma MovedShardBound(s: State, a: Action)
    requires InRange(s) && AllShardBound(s) && FlowAction(a) && Target(a).Some? && Enabled(s, a)
    ensures ShardBound(EffectOf(s, a).call, |s.piles|)
  {
    var c := s.calls[Target(a).value];
    assert CallInRange(c, |s.piles|) && ShardBound(c, |s.piles|);
  }

  lemma ApplyShardBound(s: State, a: Action)
    requires InRange(s) && AllShardBound(s) && FlowAction(a)
    ensures AllShardBound(Apply(s, a))
  {
    hide Advance;
    if Enabled(s, a) && Target(a).Some? {
      MovedShardBound(s, a);
    }
  }

  lemma {:induction false} FlowRunKeeps(o: State, stock: nat, acts: seq<Action>)
    requires Prefilled(o, stock) && FlowRun(acts)
    ensures InRange(Exec(o, acts)) && AllShardBound(Exec(o, acts))
  {
    if acts == [] {
    } else {
      var s, a := Exec(o, acts[..|acts| - 1]), acts[|acts| - 1];
      FlowRunKeeps(o, stock, acts[..|acts| - 1]);
      ApplyInRange(s, a);
      ApplyShardBound(s, a);
    }
  }

  // ---- the flow of a shard ----

  /** The pile the action tries to pop as a shard, or pushes into. */
  function Touched(s: State, a: Action): Option<nat>
  {
    if !a.Step? || !Enabled(s, a) then None else
    match s.calls[a.call]
    case PopShard(sh) => Some(sh)
    case Push(p, _) => Some(p)
    case _ => None
  }

  /** One out for a lease that tries the shard, hit or miss; one in for a push. */
  function NetShift(s: State, a: Action, sh: nat): int
  {
    if Touched(s, a) != Some(sh) then 0 else if s.calls[a.call].Push? then -1 else 1
  }

  /** Attempts to pop shard `sh` less pushes into it, over the run. */
  function Net(o: State, acts: seq<Action>, sh: nat): int
    requires |o.piles| > 1
  {
    if acts == [] then 0 else
    Net(o, acts[..|acts| - 1], sh) + NetShift(Exec(o, acts[..|acts| - 1]), acts[|acts| - 1], sh)
  }

  /** The most that net flow has ever been. */
  function PeakNet(o: State, acts: seq<Action>, sh: nat): int
    requires |o.piles| > 1
  {
    if acts == [] then 0 else Max(PeakNet(o, acts[..|acts| - 1], sh), Net(o, acts, sh))
  }

  /** Summed over the first `n` shards. */
  function PeakSum(o: State, acts: seq<Action>, n: nat): int
    requires |o.piles| > 1
  {
    if n == 0 then 0 else PeakSum(o, acts, n - 1) + PeakNet(o, acts, n - 1)
  }

  lemma {:induction false} NoPeaks(o: State, n: nat)
    requires |o.piles| > 1
    ensures PeakSum(o, [], n) == 0
  {
    if n == 0 {
    } else {
      NoPeaks(o, n - 1);
    }
  }

  // ---- pile plus net flow is the peak, at every moment ----

  /** A push adds one, an attempt takes one if there is one. */
  lemma MovedPile(s: State, a: Action, sh: nat)
    requires InRange(s) && AllShardBound(s) && FlowAction(a) && sh < Shards(s)
    ensures |Apply(s, a).piles| == |s.piles|
    ensures var n := |s.piles[sh]|;
            |Apply(s, a).piles[sh]| == if NetShift(s, a, sh) == 1 && n == 0 then 0 else n - NetShift(s, a, sh)
  {
    if a.Step? && Enabled(s, a) {
      var c := s.calls[a.call];
      assert CallInRange(c, |s.piles|) && ShardBound(c, |s.piles|);
    }
  }

  /** In every state of every run without drains and prefills: what a shard has parked and its
      net flow add up to the most that flow has ever been. */
  lemma {:induction false} PilePlusNetIsPeak(o: State, stock: nat, acts: seq<Action>, sh: nat)
    requires Prefilled(o, stock) && FlowRun(acts) && sh < Shards(o)
    ensures |Exec(o, acts).piles[sh]| + Net(o, acts, sh) == PeakNet(o, acts, sh)
  {
    if acts == [] {
    } else {
      var n := |acts| - 1;
      PilePlusNetIsPeak(o, stock, acts[..n], sh);
      FlowRunKeeps(o, stock, acts[..n]);
      MovedPile(Exec(o, acts[..n]), acts[n], sh);
    }
  }

  // ---- peaks rise by misses ----

  /** A lease finds one of the first `n` shards empty. */
  predicate Misses(s: State, a: Action, n: nat)
  {
    && Touched(s, a).Some? && Touched(s, a).value < n && Touched(s, a).value < |s.piles|
    && s.calls[a.call].PopShard? && s.piles[Touched(s, a).value] == []
  }

  lemma PeakStep(o: State, stock: nat, acts: seq<Action>, sh: nat)
    requires Prefilled(o, stock) && FlowRun(acts) && acts != [] && sh < Shards(o)
    ensures var k := |acts| - 1;
            var s, a := Exec(o, acts[..k]), acts[k];
            PeakNet(o, acts, sh) == PeakNet(o, acts[..k], sh)
                                    + if Misses(s, a, Shards(s)) && Touched(s, a) == Some(sh) then 1 else 0
  {
    PilePlusNetIsPeak(o, stock, acts[..|acts| - 1], sh);
  }

  lemma {:induction false} PeakSumStep(o: State, stock: nat, acts: seq<Action>, n: nat)
    requires Prefilled(o, stock) && FlowRun(acts) && acts != [] && n <= Shards(o)
    ensures var k := |acts| - 1;
            PeakSum(o, acts, n)
            == PeakSum(o, acts[..k], n) + if Misses(Exec(o, acts[..k]), acts[k], n) then 1 else 0
  {
    if n == 0 {
    } else {
      hide Exec, PeakNet, FlowRun;
      PeakSumStep(o, stock, acts, n - 1);
      PeakStep(o, stock, acts, n - 1);
    }
  }

  // ---- the allocation counter ----

  /** A lease that has missed its shard and neither popped the reserve nor allocated yet. */
  function Deciding(c: Call): int
  {
    if c.PopReserve? || c.CountAlloc? then 1 else 0
  }

  lemma MovedDeciding(s: State, a: Action)
    requires InRange(s) && AllShardBound(s) && FlowAction(a) && Target(a).Some? && Enabled(s, a)
    ensures var c, e, r := s.calls[Target(a).value], EffectOf(s, a), Shards(s);
            Deciding(e.call) - Deciding(c) + e.counted - (|Apply(s, a).piles[r]| - |s.piles[r]|)
            == if Misses(s, a, r) then 1 else 0
  {
    var c := s.calls[Target(a).value];
    assert CallInRange(c, |s.piles|) && ShardBound(c, |s.piles|);
  }

  /** Allocated, decided to allocate, or taken from the reserve. */
  function Supplied(s: State): int
    requires |s.piles| > 1
  {
    s.allocations - |s.piles[Shards(s)]| + Sum(Deciding, s.calls)
  }

  lemma SuppliedMoves(s: State, a: Action)
    requires InRange(s) && AllShardBound(s) && FlowAction(a)
    ensures Supplied(Apply(s, a)) == Supplied(s) + if Misses(s, a, Shards(s)) then 1 else 0
  {
    hide Apply, EffectOf;
    if !Enabled(s, a) {
      Disabled(s, a);
    } else if Target(a).Some? {
      MovedState(s, a);
      MovedDeciding(s, a);
      CallsMoved(Deciding, s, a);
    } else if Starts(a) {
      BegunState(s, a);
      CallsBegun(Deciding, s, a);
    } else {
      SettledState(s, a);
    }
  }

  /** The exact count, at every moment of every run without drains and prefills: allocations
      are the sum of the peak net flows, plus what is left of the prefill, less the leases
      that have missed their shard and not decided yet. */
  lemma {:induction false} AllocationsAreFlows(o: State, stock: nat, acts: seq<Action>)
    requires Prefilled(o, stock) && FlowRun(acts)
    ensures var s, n := Exec(o, acts), Shards(o);
            s.allocations == PeakSum(o, acts, n) + |s.piles[n]| - Sum(Deciding, s.calls)
  {
    if acts == [] {
      NoPeaks(o, Shards(o));
      SumZero(Deciding, o.calls);
    } else {
      hide PeakSum, Apply, Misses, FlowRun, PileOf;
      var n := |acts| - 1;
      AllocationsAreFlows(o, stock, acts[..n]);
      FlowRunKeeps(o, stock, acts[..n]);
      SuppliedMoves(Exec(o, acts[..n]), acts[n]);
      PeakSumStep(o, stock, acts, Shards(o));
    }
  }

  // ---- the larger of prefill and peaks ----

  /** As long as the prefill lasts, nothing is allocated. */
  ghost predicate ReserveFirst(s: State, stock: nat)
    requires |s.piles| > 1
  {
    && s.allocations >= stock
    && (s.piles[Shards(s)] != [] ==>
        s.allocations == stock && forall i | 0 <= i < |s.calls| :: !s.calls[i].CountAlloc?)
  }

  /** The reserve is never stocked again, and an allocation is only counted after a lease
      has found it empty. */
  lemma MovedReserve(s: State, a: Action)
    requires InRange(s) && AllShardBound(s) && FlowAction(a) && Target(a).Some? && Enabled(s, a)
    ensures var c, e, r := s.calls[Target(a).value], EffectOf(s, a), s.piles[Shards(s)];
            && (r == [] ==> Apply(s, a).piles[Shards(s)] == [])
            && (e.counted > 0 ==> c.CountAlloc?)
            && (e.call.CountAlloc? ==> r == [] && Apply(s, a).piles[Shards(s)] == [])
  {
    var c := s.calls[Target(a).value];
    assert CallInRange(c, |s.piles|) && ShardBound(c, |s.piles|);
  }

  lemma ApplyReserveFirst(s: State, stock: nat, a: Action)
    requires InRange(s) && AllShardBound(s) && FlowAction(a) && ReserveFirst(s, stock)
    ensures ReserveFirst(Apply(s, a), stock)
  {
    hide Advance;
    if Enabled(s, a) && Target(a).Some? {
      hide EffectOf;
      MovedState(s, a);
      MovedReserve(s, a);
    }
  }

  lemma {:induction false} ExecReserveFirst(o: State, stock: nat, acts: seq<Action>)
    requires Prefilled(o, stock) && FlowRun(acts)
    ensures ReserveFirst(Exec(o, acts), stock)
  {
    if acts == [] {
    } else {
      var n := |acts| - 1;
      ExecReserveFirst(o, stock, acts[..n]);
      FlowRunKeeps(o, stock, acts[..n]);
      ApplyReserveFirst(Exec(o, acts[..n]), stock, acts[n]);
    }
  }

  /** No lease has found its shard empty without having either a buffer or an allocation. */
  predicate NoneDeciding(s: State)
  {
    forall i | 0 <= i < |s.calls| :: Deciding(s.calls[i]) == 0
  }

  /** So whenever no `get` is between its shard pop and its decision, the allocation counter is
      exactly the larger of the prefill and the sum over the shards of their peak net flow. */
  lemma ExactAllocations(o: State, stock: nat, acts: seq<Action>)
    requires Prefilled(o, stock) && FlowRun(acts) && NoneDeciding(Exec(o, acts))
    ensures Exec(o, acts).allocations == Max(stock, PeakSum(o, acts, Shards(o)))
  {
    hide Exec, FlowRun, PeakSum, Prefilled;
    assert |o.piles| > 1 by { PrefilledHasShards(o, stock); }
    AllocationsAreFlows(o, stock, acts);
    ExecReserveFirst(o, stock, acts);
    var s := Exec(o, acts);
    forall c | c in s.calls ensures Deciding(c) == 0 {
      var i :| 0 <= i < |s.calls| && s.calls[i] == c;
    }
    SumZero(Deciding, s.calls);
  }

  lemma PrefilledHasShards(o: State, stock: nat)
    requires Prefilled(o, stock)
    ensures |o.piles| > 1
  {
  }
}
