/**
  Any number of thread-local pools and threads, interleaved: pools die in two steps (flag,
  then epoch), and each thread sweeps its own registry on its own next access, one slot at
  a time (src/local.rs).

  Loads may be stale. An epoch load may return any value between the one the thread saw
  last and the current one; a flag may still read as live unless the pool's death is covered
  by the epoch the thread has loaded. Reading the current values is the special case.

  `Apply` is total: an action that is not enabled leaves the state alone.
 */
module LocalSteps {
  import opened Wrappers
  import opened Registries

  /** `bump` is the epoch value the pool's drop produced, once it has. */
  datatype Pool = Pool(ty: nat, live: bool, bump: Option<nat>)

  /** What an access does once the registry is up to date. */
  datatype Op =
    | TakeBuf(pool: nat, lease: nat)
    | ParkBuf(pool: nat, buf: Erased)
    | Probe(pool: nat)

  datatype Pc =
    | Rest
    | Sweep(next: nat, op: Op)
    | Access(op: Op)
    | Exited

  datatype Thread = Thread(seen: nat, slots: seq<Slot>, pc: Pc)

  /** A lease from `get` to its end: asking, initializing, out with the user, over. */
  datatype Lease =
    | Asking(pool: nat, thread: nat)
    | Fresh(pool: nat, thread: nat)
    | Out(pool: nat, thread: nat, buf: Erased)
    | Over

  /** `answers` is what the `idle_len` calls returned, in order; `fault` records a failed
      downcast or a failed `debug_assert`. */
  datatype State = State(pools: seq<Pool>, epoch: nat, threads: seq<Thread>, leases: seq<Lease>,
                         hands: seq<Erased>, gone: seq<Erased>, made: nat, answers: seq<nat>, fault: bool)

  datatype Action =
    | Spawn
    | Create(ty: nat)
    | ClearFlag(pool: nat)                       // first half of the drop
    | BumpEpoch(pool: nat)                       // second half
    | Get(thread: nat, pool: nat, epoch: nat)    // begins with the epoch load
    | Drop(lease: nat, thread: nat, epoch: nat)  // guard dropped on `thread`
    | Put(thread: nat, pool: nat, at: nat, epoch: nat)
    | PutForeign(thread: nat, pool: nat, epoch: nat)
    | PutPanic(thread: nat, pool: nat, at: nat)  // `put` unwinds in the hook
    | PutForeignPanic(thread: nat, pool: nat)
    | Ask(thread: nat, pool: nat, epoch: nat)    // idle_len
    | SweepOne(thread: nat, sees: bool)          // the flag of the next slot reads as `sees`
    | Finish(thread: nat)                        // the access proper
    | Discard(at: nat)                           // the user destroys a buffer they own
    | InitDone(lease: nat)
    | InitPanic(lease: nat)
    | Detach(lease: nat)
    | ResetPanic(lease: nat)                     // the guard's drop unwinds in the hook
    | Exit(thread: nat)

  const START: State := State([], 0, [], [], [], [], 0, [], false)

  // ---- one thread ----

  /** The epoch check in front of an access. */
  function BeginOp(th: Thread, op: Op, epoch: nat): Thread
  {
    if epoch == th.seen then th.(pc := Access(op)) else th.(seen := epoch, pc := Sweep(0, op))
  }

  /** The sweep looks at one slot. */
  function SweepNext(th: Thread, sees: bool): Thread
    requires th.pc.Sweep?
  {
    var k := th.pc.next;
    if k < |th.slots| then
      th.(slots := th.slots[k := SweptSlot(th.slots[k], sees)], pc := Sweep(k + 1, th.pc.op))
    else th.(pc := Access(th.pc.op))
  }

  /** The buffer the sweep drops at this slot. */
  function SweepDrops(th: Thread, sees: bool): seq<Erased>
    requires th.pc.Sweep?
  {
    var k := th.pc.next;
    if k < |th.slots| && !sees && th.slots[k].buf.Some? then [th.slots[k].buf.value] else []
  }

  function FinishOp(th: Thread, op: Op): Thread
  {
    match op
    case TakeBuf(p, _) => th.(slots := Take(th.slots, p).0, pc := Rest)
    case ParkBuf(p, b) => th.(slots := Park(th.slots, p, b), pc := Rest)
    case Probe(_) => th.(pc := Rest)
  }

  /** What the access returns to its caller, or drops by parking over it. */
  function Found(th: Thread, op: Op): Option<Erased>
  {
    Lookup(th.slots, op.pool)
  }

  /** A flag read by a thread that has loaded epoch `seen`. */
  predicate MaySee(pools: seq<Pool>, flag: nat, seen: nat, sees: bool)
  {
    flag < |pools| ==>
      if pools[flag].live then sees
      else sees ==> (pools[flag].bump.None? || pools[flag].bump.value > seen)
  }

  predicate MayRead(pools: seq<Pool>, th: Thread, sees: bool)
    requires th.pc.Sweep?
  {
    th.pc.next < |th.slots| ==> MaySee(pools, th.slots[th.pc.next].live, th.seen, sees)
  }

  // ---- the system ----

  function OpOf(pc: Pc): Option<Op>
  {
    match pc
    case Sweep(_, op) => Some(op)
    case Access(op) => Some(op)
    case _ => None
  }

  predicate Uses(th: Thread, p: nat)
  {
    OpOf(th.pc).Some? && OpOf(th.pc).value.pool == p
  }

  predicate OpenOn(l: Lease, p: nat)
  {
    !l.Over? && l.pool == p
  }

  /** A guard or a call in flight borrows a handle, so the pool cannot die. */
  predicate Borrowed(s: State, p: nat)
  {
    || (exists t :: 0 <= t < |s.threads| && Uses(s.threads[t], p))
    || (exists l :: 0 <= l < |s.leases| && OpenOn(s.leases[l], p))
  }

  predicate Ready(s: State, t: nat, epoch: nat)
  {
    t < |s.threads| && s.threads[t].pc.Rest? && s.threads[t].seen <= epoch <= s.epoch
  }

  predicate Alive(s: State, p: nat)
  {
    p < |s.pools| && s.pools[p].live
  }

  predicate Enabled(s: State, a: Action)
  {
    match a
    case ClearFlag(p) => Alive(s, p) && !Borrowed(s, p)
    case BumpEpoch(p) => p < |s.pools| && !s.pools[p].live && s.pools[p].bump.None?
    case Get(t, p, e) => Ready(s, t, e) && Alive(s, p)
    case Drop(l, t, e) => Ready(s, t, e) && l < |s.leases| && s.leases[l].Out?
    case Put(t, p, at, e) =>
      Ready(s, t, e) && Alive(s, p) && at < |s.hands| && s.hands[at].ty == s.pools[p].ty
    case PutForeign(t, p, e) => Ready(s, t, e) && Alive(s, p)
    case PutPanic(t, p, at) =>
      t < |s.threads| && s.threads[t].pc.Rest? && Alive(s, p) && at < |s.hands| && s.hands[at].ty == s.pools[p].ty
    case Discard(at) => at < |s.hands|
    case PutForeignPanic(t, p) => t < |s.threads| && s.threads[t].pc.Rest? && Alive(s, p)
    case Ask(t, p, e) => Ready(s, t, e) && Alive(s, p)
    case SweepOne(t, sees) => t < |s.threads| && s.threads[t].pc.Sweep? && MayRead(s.pools, s.threads[t], sees)
    case Finish(t) => t < |s.threads| && s.threads[t].pc.Access?
    case InitDone(l) => l < |s.leases| && s.leases[l].Fresh? && s.leases[l].pool < |s.pools|
    case InitPanic(l) => l < |s.leases| && s.leases[l].Fresh?
    case Detach(l) => l < |s.leases| && s.leases[l].Out?
    case ResetPanic(l) => l < |s.leases| && s.leases[l].Out?
    case Exit(t) => t < |s.threads| && s.threads[t].pc.Rest?
    case _ => true
  }

  function WithThread(s: State, t: nat, th: Thread): State
    requires t < |s.threads|
  {
    s.(threads := s.threads[t := th])
  }

  function Begin(s: State, t: nat, op: Op, epoch: nat): State
    requires t < |s.threads|
  {
    WithThread(s, t, BeginOp(s.threads[t], op, epoch))
  }

  function BufsOf(slots: seq<Slot>): seq<Erased>
  {
    if slots == [] then [] else
    var last := slots[|slots| - 1];
    BufsOf(slots[..|slots| - 1]) + if last.buf.Some? then [last.buf.value] else []
  }

  /** The access takes effect on the thread's registry and on the lease it serves. A
      downcast to the wrong type, and a repair over a buffer, are recorded as faults. */
  function Complete(s: State, t: nat): State
    requires t < |s.threads| && s.threads[t].pc.Access?
  {
    var th, op := s.threads[t], s.threads[t].pc.op;
    var found := Found(th, op);
    var s1 := WithThread(s, t, FinishOp(th, op));
    match op
    case TakeBuf(p, l) =>
      var bad := !RepairIsSafe(th.slots, p)
                 || (found.Some? && p < |s.pools| && found.value.ty != s.pools[p].ty);
      s1.(fault := s.fault || bad,
          leases := if l < |s.leases| then
                      s.leases[l := if found.Some? then Out(p, t, found.value) else Fresh(p, t)]
                    else s.leases)
    case ParkBuf(p, b) =>
      var bad := !RepairIsSafe(th.slots, p) || (p < |s.pools| && b.ty != s.pools[p].ty);
      s1.(fault := s.fault || bad, gone := if found.Some? then s.gone + [found.value] else s.gone)
    case Probe(_) => s1.(answers := s.answers + [if found.Some? then 1 else 0])
  }

  function Apply(s: State, a: Action): State
  {
    if !Enabled(s, a) then s else
    match a
    case Spawn => s.(threads := s.threads + [Thread(0, [], Rest)])
    case Create(ty) => s.(pools := s.pools + [Pool(ty, true, None)])
    case ClearFlag(p) => s.(pools := s.pools[p := s.pools[p].(live := false)])
    case BumpEpoch(p) =>
      s.(pools := s.pools[p := s.pools[p].(bump := Some(s.epoch + 1))], epoch := s.epoch + 1)
    case Get(t, p, e) => Begin(s, t, TakeBuf(p, |s.leases|), e).(leases := s.leases + [Asking(p, t)])
    case Drop(l, t, e) =>
      Begin(s, t, ParkBuf(s.leases[l].pool, s.leases[l].buf), e).(leases := s.leases[l := Over])
    case Put(t, p, at, e) =>
      Begin(s, t, ParkBuf(p, s.hands[at]), e).(hands := s.hands[..at] + s.hands[at + 1..])
    case PutForeign(t, p, e) =>
      Begin(s, t, ParkBuf(p, Erased(s.pools[p].ty, s.made)), e).(made := s.made + 1)
    case PutPanic(_, _, at) =>
      s.(hands := s.hands[..at] + s.hands[at + 1..], gone := s.gone + [s.hands[at]])
    case Discard(at) =>
      s.(hands := s.hands[..at] + s.hands[at + 1..], gone := s.gone + [s.hands[at]])
    case PutForeignPanic(_, p) =>
      s.(gone := s.gone + [Erased(s.pools[p].ty, s.made)], made := s.made + 1)
    case Ask(t, p, e) => Begin(s, t, Probe(p), e)
    case SweepOne(t, sees) =>
      WithThread(s, t, SweepNext(s.threads[t], sees)).(gone := s.gone + SweepDrops(s.threads[t], sees))
    case Finish(t) => Complete(s, t)
    case InitDone(l) =>
      var f := s.leases[l];
      s.(leases := s.leases[l := Out(f.pool, f.thread, Erased(s.pools[f.pool].ty, s.made))], made := s.made + 1)
    case InitPanic(l) => s.(leases := s.leases[l := Over])
    case Detach(l) => s.(leases := s.leases[l := Over], hands := s.hands + [s.leases[l].buf])
    case ResetPanic(l) => s.(leases := s.leases[l := Over], gone := s.gone + [s.leases[l].buf])
    case Exit(t) =>
      WithThread(s, t, Thread(s.threads[t].seen, [], Exited)).(gone := s.gone + BufsOf(s.threads[t].slots))
  }

  function Exec(s: State, acts: seq<Action>): State
  {
    if acts == [] then s else Apply(Exec(s, acts[..|acts| - 1]), acts[|acts| - 1])
  }
}
