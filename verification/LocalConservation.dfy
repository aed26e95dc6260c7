/**
  Where the buffers of the thread-local pools are: each is in exactly one slot, access,
  lease, user's hand, or dropped (by being parked over, swept, lost to a panicking hook, or
  released at thread exit).
 */
module LocalConservation {
  import opened Wrappers
  import opened Sums
  import opened Registries
  import opened LocalSteps
  import opened LocalSafety

  // ---- weighing buffers wherever they are ----

  function OfSlot(w: Erased -> int): Slot -> int
  {
    (slot: Slot) => if slot.buf.Some? then w(slot.buf.value) else 0
  }

  function OfPc(w: Erased -> int, pc: Pc): int
  {
    if OpOf(pc).Some? && OpOf(pc).value.ParkBuf? then w(OpOf(pc).value.buf) else 0
  }

  function OfThread(w: Erased -> int): Thread -> int
  {
    (th: Thread) => Sum(OfSlot(w), th.slots) + OfPc(w, th.pc)
  }

  function OfLease(w: Erased -> int): Lease -> int
  {
    (l: Lease) => if l.Out? then w(l.buf) else 0
  }

  function Total(w: Erased -> int, s: State): int
  {
    Sum(OfThread(w), s.threads) + Sum(OfLease(w), s.leases) + Sum(w, s.hands) + Sum(w, s.gone)
  }

  // ---- one thread's slots ----

  lemma SweepWeighs(w: Erased -> int, th: Thread, sees: bool)
    requires th.pc.Sweep?
    ensures OfThread(w)(SweepNext(th, sees)) + Sum(w, SweepDrops(th, sees)) == OfThread(w)(th)
  {
    var k := th.pc.next;
    if k < |th.slots| {
      SumUpdate(OfSlot(w), th.slots, k, SweptSlot(th.slots[k], sees));
      if th.slots[k].buf.Some? { SumOne(w, th.slots[k].buf.value); }
    }
  }

  lemma {:induction false} EmptySlots(w: Erased -> int, id: nat, n: nat)
    ensures Sum(OfSlot(w), seq(n, _ => Slot(id, None))) == 0
  {
    SumZero(OfSlot(w), seq(n, _ => Slot(id, None)));
  }

  lemma SlotForWeighs(w: Erased -> int, slots: seq<Slot>, id: nat)
    ensures Sum(OfSlot(w), SlotFor(slots, id)) == Sum(OfSlot(w), slots)
    ensures SlotFor(slots, id)[id].buf == Lookup(slots, id)
  {
    if |slots| <= id {
      SumConcat(OfSlot(w), slots, seq(id + 1 - |slots|, _ => Slot(id, None)));
      EmptySlots(w, id, id + 1 - |slots|);
    } else if slots[id].live != id {
      SumUpdate(OfSlot(w), slots, id, Slot(id, slots[id].buf));
    }
  }

  function Weight(w: Erased -> int, b: Option<Erased>): int
  {
    if b.Some? then w(b.value) else 0
  }

  /** Emptying or filling the slot of pool `id`, grown and repaired as need be. */
  lemma SlotSetWeighs(w: Erased -> int, slots: seq<Slot>, id: nat, b: Option<Erased>)
    ensures var r := SlotFor(slots, id);
            Sum(OfSlot(w), r[id := Slot(r[id].live, b)])
            == Sum(OfSlot(w), slots) - Weight(w, Lookup(slots, id)) + Weight(w, b)
  {
    SlotForWeighs(w, slots, id);
    hide SlotFor, Sum;
    var r := SlotFor(slots, id);
    SumUpdate(OfSlot(w), r, id, Slot(r[id].live, b));
  }

  lemma FinishWeighs(w: Erased -> int, th: Thread)
    requires th.pc.Access?
    ensures var op := th.pc.op;
            OfThread(w)(FinishOp(th, op)) + (if op.Probe? then 0 else Weight(w, Found(th, op))) == OfThread(w)(th)
  {
    hide SlotFor, Sum;
    var op := th.pc.op;
    if !op.Probe? { SlotSetWeighs(w, th.slots, op.pool, if op.ParkBuf? then Some(op.buf) else None); }
  }

  lemma {:induction false} ExitWeighs(w: Erased -> int, slots: seq<Slot>)
    ensures Sum(w, BufsOf(slots)) == Sum(OfSlot(w), slots)
  {
    if slots == [] {
    } else {
      var n := |slots| - 1;
      ExitWeighs(w, slots[..n]);
      if slots[n].buf.Some? { SumAppend(w, BufsOf(slots[..n]), slots[n].buf.value); }
      else { assert BufsOf(slots[..n]) + [] == BufsOf(slots[..n]); }
    }
  }

  // ---- one action ----

  /** The buffer an action creates. */
  function Born(s: State, a: Action): Option<Erased>
  {
    if !Enabled(s, a) then None else
    match a
    case PutForeign(_, p, _) => Some(Erased(s.pools[p].ty, s.made))
    case PutForeignPanic(_, p) => Some(Erased(s.pools[p].ty, s.made))
    case InitDone(l) => Some(Erased(s.pools[s.leases[l].pool].ty, s.made))
    case _ => None
  }

  lemma BeginWeighs(w: Erased -> int, s: State, t: nat, op: Op, e: nat)
    requires t < |s.threads| && s.threads[t].pc.Rest?
    ensures Sum(OfThread(w), Begin(s, t, op, e).threads)
            == Sum(OfThread(w), s.threads) + if op.ParkBuf? then w(op.buf) else 0
  {
    SumUpdate(OfThread(w), s.threads, t, BeginOp(s.threads[t], op, e));
  }

  lemma SumRemove(w: Erased -> int, s: seq<Erased>, i: nat)
    requires i < |s|
    ensures Sum(w, s[..i] + s[i + 1..]) == Sum(w, s) - w(s[i])
  {
    hide Sum;
    assert s == s[..i] + ([s[i]] + s[i + 1..]);
    SumConcat(w, s[..i], [s[i]] + s[i + 1..]);
    SumConcat(w, [s[i]], s[i + 1..]);
    SumConcat(w, s[..i], s[i + 1..]);
    SumOne(w, s[i]);
  }

  lemma OpWeighs(w: Erased -> int, s: State, a: Action)
    requires Enabled(s, a) && (a.Get? || a.Drop? || a.Put? || a.PutForeign? || a.Ask?)
    ensures Total(w, Apply(s, a)) == Total(w, s) + Weight(w, Born(s, a))
  {
    hide BeginOp, Sum, OfThread;
    match a
    case Get(t, p, e) =>
      BeginWeighs(w, s, t, TakeBuf(p, |s.leases|), e);
      SumAppend(OfLease(w), s.leases, Asking(p, t));
    case Drop(l, t, e) =>
      BeginWeighs(w, s, t, ParkBuf(s.leases[l].pool, s.leases[l].buf), e);
      SumUpdate(OfLease(w), s.leases, l, Over);
    case Put(t, p, at, e) =>
      BeginWeighs(w, s, t, ParkBuf(p, s.hands[at]), e);
      SumRemove(w, s.hands, at);
    case PutForeign(t, p, e) => BeginWeighs(w, s, t, ParkBuf(p, Erased(s.pools[p].ty, s.made)), e);
    case Ask(t, p, e) => BeginWeighs(w, s, t, Probe(p), e);
  }

  lemma CompleteWeighs(w: Erased -> int, s: State, t: nat)
    requires Linked(s) && Enabled(s, Finish(t))
    ensures Total(w, Apply(s, Finish(t))) == Total(w, s)
  {
    hide SlotFor, Take, Park, BufsOf;
    var th, op := s.threads[t], s.threads[t].pc.op;
    FinishWeighs(w, th);
    SumUpdate(OfThread(w), s.threads, t, FinishOp(th, op));
    var found := Found(th, op);
    match op
    case TakeBuf(p, l) =>
      SumUpdate(OfLease(w), s.leases, l, if found.Some? then Out(p, t, found.value) else Fresh(p, t));
    case ParkBuf(p, b) => if found.Some? { SumAppend(w, s.gone, found.value); }
    case Probe(_) =>
  }

  lemma SweepStepWeighs(w: Erased -> int, s: State, t: nat, sees: bool)
    requires Enabled(s, SweepOne(t, sees))
    ensures Total(w, Apply(s, SweepOne(t, sees))) == Total(w, s)
  {
    hide SweepNext, SweepDrops;
    var th := s.threads[t];
    SweepWeighs(w, th, sees);
    SumUpdate(OfThread(w), s.threads, t, SweepNext(th, sees));
    SumConcat(w, s.gone, SweepDrops(th, sees));
  }

  lemma ExitStepWeighs(w: Erased -> int, s: State, t: nat)
    requires Enabled(s, Exit(t))
    ensures Total(w, Apply(s, Exit(t))) == Total(w, s)
  {
    var th := s.threads[t];
    ExitWeighs(w, th.slots);
    SumUpdate(OfThread(w), s.threads, t, Thread(th.seen, [], Exited));
    SumConcat(w, s.gone, BufsOf(th.slots));
  }

  lemma ThreadWeighs(w: Erased -> int, s: State, a: Action)
    requires Linked(s) && Enabled(s, a) && (a.SweepOne? || a.Finish? || a.Exit? || a.Spawn?)
    ensures Total(w, Apply(s, a)) == Total(w, s)
  {
    match a
    case SweepOne(t, sees) => SweepStepWeighs(w, s, t, sees);
    case Finish(t) => CompleteWeighs(w, s, t);
    case Exit(t) => ExitStepWeighs(w, s, t);
    case Spawn => SumAppend(OfThread(w), s.threads, Thread(0, [], Rest));
  }

  lemma LeaseWeighs(w: Erased -> int, s: State, a: Action)
    requires Enabled(s, a) && (a.InitDone? || a.InitPanic? || a.Detach? || a.ResetPanic?)
    ensures Total(w, Apply(s, a)) == Total(w, s) + Weight(w, Born(s, a))
  {
    var l := a.lease;
    match a
    case InitDone(_) =>
      var f := s.leases[l];
      SumUpdate(OfLease(w), s.leases, l, Out(f.pool, f.thread, Erased(s.pools[f.pool].ty, s.made)));
    case InitPanic(_) => SumUpdate(OfLease(w), s.leases, l, Over);
    case Detach(_) =>
      SumUpdate(OfLease(w), s.leases, l, Over);
      SumAppend(w, s.hands, s.leases[l].buf);
    case ResetPanic(_) =>
      SumUpdate(OfLease(w), s.leases, l, Over);
      SumAppend(w, s.gone, s.leases[l].buf);
  }

  /** Whatever is weighed, an action only adds what it creates. */
  lemma ApplyWeighs(w: Erased -> int, s: State, a: Action)
    requires Linked(s)
    ensures Total(w, Apply(s, a)) == Total(w, s) + Weight(w, Born(s, a))
    ensures Apply(s, a).made == s.made + if Born(s, a).Some? then 1 else 0
  {
    hide Total;
    if !Enabled(s, a) || a.Create? || a.ClearFlag? || a.BumpEpoch? {
      PoolsWeigh(w, s, a);
    } else if a.Get? || a.Drop? || a.Put? || a.PutForeign? || a.Ask? {
      OpWeighs(w, s, a);
    } else if a.SweepOne? || a.Finish? || a.Exit? || a.Spawn? {
      ThreadWeighs(w, s, a);
    } else if a.PutPanic? || a.PutForeignPanic? || a.Discard? {
      LossWeighs(w, s, a);
    } else {
      LeaseWeighs(w, s, a);
    }
  }

  lemma LossWeighs(w: Erased -> int, s: State, a: Action)
    requires Enabled(s, a) && (a.PutPanic? || a.PutForeignPanic? || a.Discard?)
    ensures Total(w, Apply(s, a)) == Total(w, s) + Weight(w, Born(s, a))
  {
    match a
    case PutPanic(_, _, at) =>
      SumRemove(w, s.hands, at);
      SumAppend(w, s.gone, s.hands[at]);
    case Discard(at) =>
      SumRemove(w, s.hands, at);
      SumAppend(w, s.gone, s.hands[at]);
    case PutForeignPanic(_, p) => SumAppend(w, s.gone, Erased(s.pools[p].ty, s.made));
  }

  lemma PoolsWeigh(w: Erased -> int, s: State, a: Action)
    requires !Enabled(s, a) || a.Create? || a.ClearFlag? || a.BumpEpoch?
    ensures Total(w, Apply(s, a)) == Total(w, s)
  {
  }

  // ---- every run ----

  function IsId(b: nat): Erased -> int
  {
    (x: Erased) => if x.id == b then 1 else 0
  }

  function One(x: Erased): int
  {
    1
  }

  /** In every run each buffer ever made is in exactly one place, whatever slots were grown,
      repaired, parked over, swept or released. */
  lemma {:induction false} LocalConservation(acts: seq<Action>, b: nat)
    ensures var s := Exec(START, acts); Total(IsId(b), s) == if b < s.made then 1 else 0
  {
    if acts == [] {
    } else {
      var s, a := Exec(START, acts[..|acts| - 1]), acts[|acts| - 1];
      LocalConservation(acts[..|acts| - 1], b);
      ExecLinked(acts[..|acts| - 1]);
      ApplyWeighs(IsId(b), s, a);
      if Born(s, a).Some? { assert Born(s, a).value.id == s.made; }
    }
  }

  /** Buffers made: parked in slots or under way, out with leases, detached, dropped. */
  lemma {:induction false} LocalCount(acts: seq<Action>)
    ensures var s := Exec(START, acts);
            s.made == Sum(OfThread(One), s.threads) + Sum(OfLease(One), s.leases) + |s.hands| + |s.gone|
  {
    if acts == [] {
    } else {
      var s, a := Exec(START, acts[..|acts| - 1]), acts[|acts| - 1];
      LocalCount(acts[..|acts| - 1]);
      ExecLinked(acts[..|acts| - 1]);
      SumOnes(s.hands);
      SumOnes(s.gone);
      ApplyWeighs(One, s, a);
    }
    var r := Exec(START, acts);
    SumOnes(r.hands);
    SumOnes(r.gone);
  }

  lemma {:induction false} SumOnes(xs: seq<Erased>)
    ensures Sum(One, xs) == |xs|
  {
    if xs == [] {
    } else {
      SumOnes(xs[..|xs| - 1]);
    }
  }
}
