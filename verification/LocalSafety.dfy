/**
  What holds in every reachable state of the thread-local pools, mid-sweep states included.
 */
module LocalSafety {
  import opened Wrappers
  import opened Registries
  import opened LocalSteps

  // ---- one thread ----

  /** The pool an operation is for is alive, and what it parks has that pool's type. */
  predicate OpFits(op: Op, pools: seq<Pool>)
  {
    && op.pool < |pools| && pools[op.pool].live
    && (op.ParkBuf? ==> op.buf.ty == pools[op.pool].ty)
  }

  /** An occupied slot carries its own pool's flag and element type. */
  predicate SlotFits(i: nat, slot: Slot, pools: seq<Pool>)
  {
    slot.buf.Some? ==> slot.live == i && i < |pools| && slot.buf.value.ty == pools[i].ty
  }

  /** Slots below this index have been looked at since the thread loaded its epoch. */
  function SweptUpTo(th: Thread): nat
  {
    if th.pc.Sweep? then th.pc.next else |th.slots|
  }

  /** The pool's death is covered by the epoch the thread has loaded. */
  predicate KnownDead(pool: Pool, seen: nat)
  {
    pool.bump.Some? && pool.bump.value <= seen
  }

  ghost predicate ThreadOk(th: Thread, pools: seq<Pool>, epoch: nat)
  {
    && th.seen <= epoch && |th.slots| <= |pools|
    && (OpOf(th.pc).Some? ==> OpFits(OpOf(th.pc).value, pools))
    && (forall i | 0 <= i < |th.slots| :: SlotFits(i, th.slots[i], pools) && th.slots[i].live < |pools|)
    && (forall i | 0 <= i < |th.slots| && i < SweptUpTo(th) && KnownDead(pools[i], th.seen) ::
          th.slots[i].buf == None)
  }

  predicate PoolOk(p: Pool, epoch: nat)
  {
    p.bump.Some? ==> !p.live && p.bump.value <= epoch
  }

  predicate LeaseOk(l: Lease, pools: seq<Pool>)
  {
    !l.Over? ==> l.pool < |pools| && pools[l.pool].live && (l.Out? ==> l.buf.ty == pools[l.pool].ty)
  }

  ghost predicate Inv(s: State)
  {
    && (forall t | 0 <= t < |s.threads| :: ThreadOk(s.threads[t], s.pools, s.epoch))
    && (forall p | 0 <= p < |s.pools| :: PoolOk(s.pools[p], s.epoch))
    && (forall l | 0 <= l < |s.leases| :: LeaseOk(s.leases[l], s.pools))
    && !s.fault
  }

  lemma BeginOk(th: Thread, op: Op, e: nat, pools: seq<Pool>, epoch: nat)
    requires ThreadOk(th, pools, epoch) && th.pc.Rest? && th.seen <= e <= epoch && OpFits(op, pools)
    ensures ThreadOk(BeginOp(th, op, e), pools, epoch)
  {
  }

  lemma SweepOk(th: Thread, sees: bool, pools: seq<Pool>, epoch: nat)
    requires ThreadOk(th, pools, epoch) && th.pc.Sweep? && MayRead(pools, th, sees)
    requires forall p | 0 <= p < |pools| :: PoolOk(pools[p], epoch)
    ensures ThreadOk(SweepNext(th, sees), pools, epoch)
  {
    var k := th.pc.next;
    if k < |th.slots| {
      assert SlotFits(k, th.slots[k], pools);
      assert PoolOk(pools[k], epoch);
    }
  }

  lemma ThreadTagged(th: Thread, pools: seq<Pool>, epoch: nat)
    requires ThreadOk(th, pools, epoch)
    ensures Tagged(th.slots)
  {
    forall i | 0 <= i < |th.slots| && th.slots[i].buf.Some? ensures th.slots[i].live == i {
      assert SlotFits(i, th.slots[i], pools);
    }
  }

  lemma SlotForOk(th: Thread, id: nat, pools: seq<Pool>, epoch: nat)
    requires ThreadOk(th, pools, epoch) && th.pc.Access? && id < |pools|
    ensures ThreadOk(th.(slots := SlotFor(th.slots, id)), pools, epoch)
  {
    var r := SlotFor(th.slots, id);
    ThreadTagged(th, pools, epoch);
    SlotForKeepsMap(th.slots, id);
    forall i | 0 <= i < |r| ensures SlotFits(i, r[i], pools) && r[i].live < |pools| {
      assert Lookup(r, i) == Lookup(th.slots, i);
      if i < |th.slots| { assert SlotFits(i, th.slots[i], pools) && th.slots[i].live < |pools|; }
    }
    forall i | 0 <= i < |r| && KnownDead(pools[i], th.seen) ensures r[i].buf == None {
      assert Lookup(r, i) == Lookup(th.slots, i);
    }
  }

  lemma FinishOk(th: Thread, pools: seq<Pool>, epoch: nat)
    requires ThreadOk(th, pools, epoch) && th.pc.Access?
    requires forall p | 0 <= p < |pools| :: PoolOk(pools[p], epoch)
    ensures ThreadOk(FinishOp(th, th.pc.op), pools, epoch)
    ensures RepairIsSafe(th.slots, th.pc.op.pool)
    ensures Found(th, th.pc.op).Some? ==> Found(th, th.pc.op).value.ty == pools[th.pc.op.pool].ty
  {
    var p := th.pc.op.pool;
    ThreadTagged(th, pools, epoch);
    SlotForKeepsMap(th.slots, p);
    SlotForOk(th, p, pools, epoch);
    assert PoolOk(pools[p], epoch);
    if p < |th.slots| { assert SlotFits(p, th.slots[p], pools); }
  }

  // ---- the pools change around a thread ----

  /** Pools are only added, die, or are bumped past every epoch loaded so far. */
  predicate Later(pools: seq<Pool>, epoch: nat, pools': seq<Pool>, epoch': nat)
  {
    && |pools| <= |pools'| && epoch <= epoch'
    && forall p | 0 <= p < |pools| ::
         && pools'[p].ty == pools[p].ty
         && (pools'[p].bump == pools[p].bump || (pools'[p].bump.Some? && pools'[p].bump.value > epoch))
  }

  lemma ThreadStable(th: Thread, pools: seq<Pool>, epoch: nat, pools': seq<Pool>, epoch': nat)
    requires ThreadOk(th, pools, epoch) && Later(pools, epoch, pools', epoch')
    requires OpOf(th.pc).Some? ==> pools'[OpOf(th.pc).value.pool].live
    ensures ThreadOk(th, pools', epoch')
  {
    forall i | 0 <= i < |th.slots| ensures SlotFits(i, th.slots[i], pools') && th.slots[i].live < |pools'| {
      assert SlotFits(i, th.slots[i], pools);
    }
  }

  lemma PoolsChange(s: State, a: Action)
    requires Inv(s) && Enabled(s, a) && (a.Create? || a.ClearFlag? || a.BumpEpoch?)
    ensures Inv(Apply(s, a))
  {
    var t := Apply(s, a);
    assert Later(s.pools, s.epoch, t.pools, t.epoch);
    forall i | 0 <= i < |s.threads| ensures ThreadOk(s.threads[i], t.pools, t.epoch) {
      var th := s.threads[i];
      assert ThreadOk(th, s.pools, s.epoch);
      if a.ClearFlag? { assert !Uses(th, a.pool); }
      ThreadStable(th, s.pools, s.epoch, t.pools, t.epoch);
    }
    forall l | 0 <= l < |s.leases| ensures LeaseOk(s.leases[l], t.pools) {
      assert LeaseOk(s.leases[l], s.pools);
      if a.ClearFlag? { assert !OpenOn(s.leases[l], a.pool); }
    }
    forall p | 0 <= p < |t.pools| ensures PoolOk(t.pools[p], t.epoch) {
      if p < |s.pools| { assert PoolOk(s.pools[p], s.epoch); }
    }
  }

  // ---- threads and leases move ----

  lemma OpBegins(s: State, a: Action)
    requires Inv(s) && Enabled(s, a) && (a.Get? || a.Drop? || a.Put? || a.PutForeign? || a.Ask?)
    ensures Inv(Apply(s, a))
  {
    var t := a.thread;
    var th := s.threads[t];
    assert ThreadOk(th, s.pools, s.epoch);
    match a
    case Get(_, p, e) => BeginOk(th, TakeBuf(p, |s.leases|), e, s.pools, s.epoch);
    case Drop(l, _, e) =>
      assert LeaseOk(s.leases[l], s.pools);
      BeginOk(th, ParkBuf(s.leases[l].pool, s.leases[l].buf), e, s.pools, s.epoch);
    case Put(_, p, at, e) => BeginOk(th, ParkBuf(p, s.hands[at]), e, s.pools, s.epoch);
    case PutForeign(_, p, e) => BeginOk(th, ParkBuf(p, Erased(s.pools[p].ty, s.made)), e, s.pools, s.epoch);
    case Ask(_, p, e) => BeginOk(th, Probe(p), e, s.pools, s.epoch);
  }

  /** Replacing one thread by a good one keeps the invariant. */
  lemma ThreadReplaced(s: State, r: State, t: nat, th: Thread)
    requires Inv(s) && t < |s.threads| && r.threads == s.threads[t := th] && ThreadOk(th, s.pools, s.epoch)
    requires r.pools == s.pools && r.epoch == s.epoch && !r.fault
    requires forall l | 0 <= l < |r.leases| :: LeaseOk(r.leases[l], s.pools)
    ensures Inv(r)
  {
  }

  lemma FinishMoves(s: State, t: nat)
    requires Inv(s) && Enabled(s, Finish(t))
    ensures Inv(Apply(s, Finish(t)))
  {
    var th := s.threads[t];
    assert ThreadOk(th, s.pools, s.epoch);
    FinishOk(th, s.pools, s.epoch);
    hide ThreadOk, FinishOp;
    ThreadReplaced(s, Apply(s, Finish(t)), t, FinishOp(th, th.pc.op));
  }

  lemma ThreadMoves(s: State, a: Action)
    requires Inv(s) && Enabled(s, a) && (a.SweepOne? || a.Finish? || a.Exit? || a.Spawn?)
    ensures Inv(Apply(s, a))
  {
    match a
    case SweepOne(t, sees) =>
      assert ThreadOk(s.threads[t], s.pools, s.epoch);
      SweepOk(s.threads[t], sees, s.pools, s.epoch);
      hide ThreadOk, SweepNext;
      ThreadReplaced(s, Apply(s, a), t, SweepNext(s.threads[t], sees));
    case Finish(t) => FinishMoves(s, t);
    case Exit(t) =>
      assert ThreadOk(s.threads[t], s.pools, s.epoch);
      ThreadReplaced(s, Apply(s, a), t, Thread(s.threads[t].seen, [], Exited));
    case Spawn =>
  }

  lemma LeaseMoves(s: State, a: Action)
    requires Inv(s) && Enabled(s, a) && (a.InitDone? || a.InitPanic? || a.Detach? || a.ResetPanic?)
    ensures Inv(Apply(s, a))
  {
    assert LeaseOk(s.leases[a.lease], s.pools);
  }

  lemma ApplyInv(s: State, a: Action)
    requires Inv(s)
    ensures Inv(Apply(s, a))
  {
    hide Apply;
    if !Enabled(s, a) {
      Disabled(s, a);
    } else if a.Create? || a.ClearFlag? || a.BumpEpoch? {
      PoolsChange(s, a);
    } else if a.Get? || a.Drop? || a.Put? || a.PutForeign? || a.Ask? {
      OpBegins(s, a);
    } else if a.SweepOne? || a.Finish? || a.Exit? || a.Spawn? {
      ThreadMoves(s, a);
    } else if a.PutPanic? || a.PutForeignPanic? || a.Discard? {
      PutLost(s, a);
    } else {
      LeaseMoves(s, a);
    }
  }

  /** A buffer lost to its hook on the way in, or destroyed by its owner: no registry was
      touched. */
  lemma PutLost(s: State, a: Action)
    requires Inv(s) && Enabled(s, a) && (a.PutPanic? || a.PutForeignPanic? || a.Discard?)
    ensures Inv(Apply(s, a))
  {
  }

  lemma Disabled(s: State, a: Action)
    requires !Enabled(s, a)
    ensures Apply(s, a) == s
  {
  }

  lemma {:induction false} ExecInv(s: State, acts: seq<Action>)
    requires Inv(s)
    ensures Inv(Exec(s, acts))
  {
    if acts == [] {
    } else {
      ExecInv(s, acts[..|acts| - 1]);
      ApplyInv(Exec(s, acts[..|acts| - 1]), acts[|acts| - 1]);
    }
  }

  // ---- an access belongs to one lease ----

  /** A thread taking a buffer takes it for a lease that is waiting for that thread. */
  ghost predicate Linked(s: State)
  {
    forall t | 0 <= t < |s.threads| && OpOf(s.threads[t].pc).Some? && OpOf(s.threads[t].pc).value.TakeBuf? ::
      var op := OpOf(s.threads[t].pc).value;
      op.lease < |s.leases| && s.leases[op.lease] == Asking(op.pool, t)
  }

  lemma ApplyLinked(s: State, a: Action)
    requires Linked(s)
    ensures Linked(Apply(s, a))
  {
    hide SlotFor, Take, Park, BufsOf, SweptSlot;
    if Enabled(s, a) {
      match a
      case Finish(t) => FinishLinked(s, t);
      case SweepOne(t, sees) => assert OpOf(SweepNext(s.threads[t], sees).pc) == OpOf(s.threads[t].pc);
      case Get(_, _, _) => BeginLinked(s, a);
      case Drop(_, _, _) => BeginLinked(s, a);
      case Put(_, _, _, _) => BeginLinked(s, a);
      case PutForeign(_, _, _) => BeginLinked(s, a);
      case Ask(_, _, _) => BeginLinked(s, a);
      case _ =>
    }
  }

  lemma BeginLinked(s: State, a: Action)
    requires Linked(s) && Enabled(s, a) && (a.Get? || a.Drop? || a.Put? || a.PutForeign? || a.Ask?)
    ensures Linked(Apply(s, a))
  {
    var r := Apply(s, a);
    assert OpOf(r.threads[a.thread].pc).Some?;
    assert forall u | 0 <= u < |s.threads| && u != a.thread :: r.threads[u] == s.threads[u];
  }

  lemma FinishLinked(s: State, t: nat)
    requires Linked(s) && Enabled(s, Finish(t))
    ensures Linked(Apply(s, Finish(t)))
  {
    hide SlotFor, Take, Park, BufsOf;
    var r := Apply(s, Finish(t));
    assert FinishOp(s.threads[t], s.threads[t].pc.op).pc == Rest;
    assert forall u | 0 <= u < |s.threads| && u != t :: r.threads[u] == s.threads[u];
  }

  lemma {:induction false} ExecLinked(acts: seq<Action>)
    ensures Linked(Exec(START, acts))
  {
    if acts == [] {
    } else {
      ExecLinked(acts[..|acts| - 1]);
      ApplyLinked(Exec(START, acts[..|acts| - 1]), acts[|acts| - 1]);
    }
  }

  // ---- what callers can rely on ----

  /** Over every run: no downcast of a slot's buffer ever fails, and the assertion that a
      repaired slot is empty never fires. */
  lemma NoFaults(acts: seq<Action>)
    ensures !Exec(START, acts).fault
  {
    ExecInv(START, acts);
  }

  /** What a sweep drops has the element type of the slot's own pool, and that pool is dead. */
  lemma SweptIsDead(acts: seq<Action>, t: nat, sees: bool)
    requires var s := Exec(START, acts); Enabled(s, SweepOne(t, sees)) && SweepDrops(s.threads[t], sees) != []
    ensures var s := Exec(START, acts);
            var k := s.threads[t].pc.next;
            && k < |s.pools| && !s.pools[k].live
            && SweepDrops(s.threads[t], sees)[0].ty == s.pools[k].ty
  {
    var s := Exec(START, acts);
    ExecInv(START, acts);
    var th := s.threads[t];
    assert ThreadOk(th, s.pools, s.epoch);
    assert SlotFits(th.pc.next, th.slots[th.pc.next], s.pools);
  }

  /** A thread that is not mid-sweep holds no buffer of a pool whose bump its epoch covers;
      mid-sweep this already holds for the slots behind it. */
  lemma CoveredIsGone(acts: seq<Action>, t: nat, p: nat)
    requires var s := Exec(START, acts);
             t < |s.threads| && p < |s.pools| && KnownDead(s.pools[p], s.threads[t].seen)
    ensures var th := Exec(START, acts).threads[t];
            (th.pc.Sweep? ==> p < th.pc.next) ==> Lookup(th.slots, p) == None
  {
    ExecInv(START, acts);
    assert ThreadOk(Exec(START, acts).threads[t], Exec(START, acts).pools, Exec(START, acts).epoch);
  }

  // ---- what never goes back ----

  predicate Progressed(s: State, s': State)
  {
    && |s.threads| <= |s'.threads| && |s.pools| <= |s'.pools|
    && (forall t | 0 <= t < |s.threads| :: s.threads[t].seen <= s'.threads[t].seen)
    && (forall p | 0 <= p < |s.pools| :: s.pools[p].bump.Some? ==> s'.pools[p].bump == s.pools[p].bump)
  }

  lemma SeenGrows(s: State, a: Action)
    ensures var r := Apply(s, a);
            |s.threads| <= |r.threads| && forall t | 0 <= t < |s.threads| :: s.threads[t].seen <= r.threads[t].seen
  {
    hide SlotFor, Take, Park, BufsOf, SweptSlot;
    if a.Finish? && Enabled(s, a) {
      FinishKeepsSeen(s.threads[a.thread]);
      hide FinishOp;
    }
  }

  lemma FinishKeepsSeen(th: Thread)
    requires th.pc.Access?
    ensures FinishOp(th, th.pc.op).seen == th.seen
  {
  }

  lemma BumpsStay(s: State, a: Action)
    ensures var r := Apply(s, a);
            && |s.pools| <= |r.pools|
            && forall p | 0 <= p < |s.pools| :: s.pools[p].bump.Some? ==> r.pools[p].bump == s.pools[p].bump
  {
    hide SlotFor, Take, Park, BufsOf, FinishOp, SweepNext, BeginOp;
  }

  lemma ApplyProgresses(s: State, a: Action)
    ensures Progressed(s, Apply(s, a))
  {
    hide Apply;
    SeenGrows(s, a);
    BumpsStay(s, a);
  }

  lemma {:induction false} ExecProgresses(s: State, acts: seq<Action>)
    ensures Progressed(s, Exec(s, acts))
  {
    if acts == [] {
    } else {
      ExecProgresses(s, acts[..|acts| - 1]);
      ApplyProgresses(Exec(s, acts[..|acts| - 1]), acts[|acts| - 1]);
    }
  }

  lemma {:induction false} ExecConcat(s: State, xs: seq<Action>, ys: seq<Action>)
    ensures Exec(s, xs + ys) == Exec(Exec(s, xs), ys)
  {
    if ys == [] {
      assert xs + ys == xs;
    } else {
      assert (xs + ys)[..|xs + ys| - 1] == xs + ys[..|ys| - 1];
      ExecConcat(s, xs, ys[..|ys| - 1]);
    }
  }
}
