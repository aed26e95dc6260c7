/**
  Lazy reclamation is indistinguishable from eager reclamation. The reference is a plain map
  from (thread, pool) to the parked buffer in which dropping a pool empties its entry on
  every thread at once; it knows nothing of epochs, flags, slots or sweeps.
 */
module LocalRefinement {
  import opened Wrappers
  import opened Registries
  import opened LocalSteps
  import opened LocalSafety

  // ---- the reference ----

  /** What callers can see of one action. */
  datatype Event =
    | Died(pool: nat)
    | Took(thread: nat, pool: nat, got: Option<Erased>)      // what `get` found parked
    | Parked(thread: nat, pool: nat, buf: Erased)
    | Probed(thread: nat, pool: nat, idle: nat)              // what `idle_len` returned
    | Left(thread: nat)                                      // the thread exited

  type Eager = map<(nat, nat), Erased>

  function EagerStep(m: Eager, ev: Event): Eager
  {
    match ev
    case Died(p) => map k | k in m && k.1 != p :: m[k]
    case Took(t, p, _) => m - {(t, p)}
    case Parked(t, p, b) => m[(t, p) := b]
    case Probed(_, _, _) => m
    case Left(t) => map k | k in m && k.0 != t :: m[k]
  }

  function At(m: Eager, t: nat, p: nat): Option<Erased>
  {
    if (t, p) in m then Some(m[(t, p)]) else None
  }

  /** The map gives the same answer. */
  predicate Agrees(m: Eager, ev: Event)
  {
    match ev
    case Took(t, p, got) => got == At(m, t, p)
    case Probed(t, p, idle) => idle == if At(m, t, p).Some? then 1 else 0
    case _ => true
  }

  function EagerRun(evs: seq<Event>): Eager
  {
    if evs == [] then map[] else EagerStep(EagerRun(evs[..|evs| - 1]), evs[|evs| - 1])
  }

  /** Every answer along the way is the map's. */
  predicate Explained(evs: seq<Event>)
  {
    evs == [] || (Explained(evs[..|evs| - 1]) && Agrees(EagerRun(evs[..|evs| - 1]), evs[|evs| - 1]))
  }

  // ---- what the lazy system shows ----

  /** The parked buffer the lease has been given, if it was given one. */
  function Given(leases: seq<Lease>, l: nat): Option<Erased>
  {
    if l < |leases| && leases[l].Out? then Some(leases[l].buf) else None
  }

  /** Read off the state after the action: what the lease was given, what was answered. */
  function Shows(s: State, a: Action): seq<Event>
  {
    if !Enabled(s, a) then [] else
    match a
    case ClearFlag(p) => [Died(p)]
    case Finish(t) =>
      var r := Apply(s, a);
      (match s.threads[t].pc.op
       case TakeBuf(p, l) => [Took(t, p, Given(r.leases, l))]
       case ParkBuf(p, b) => [Parked(t, p, b)]
       case Probe(p) => [Probed(t, p, if r.answers == [] then 0 else r.answers[|r.answers| - 1])])
    case Exit(t) => [Left(t)]
    case _ => []
  }

  function Trace(s: State, acts: seq<Action>): seq<Event>
  {
    if acts == [] then [] else
    Trace(s, acts[..|acts| - 1]) + Shows(Exec(s, acts[..|acts| - 1]), acts[|acts| - 1])
  }

  // ---- simulation ----

  /** On live pools the slots and the map agree; the map has nothing of dead pools. */
  ghost predicate Simulates(s: State, m: Eager)
  {
    && (forall t, p | 0 <= t < |s.threads| && Alive(s, p) :: Lookup(s.threads[t].slots, p) == At(m, t, p))
    && (forall k | k in m :: k.0 < |s.threads| && Alive(s, k.1))
  }

  /** Sweeping one slot changes nothing for live pools. */
  lemma SweepInvisible(s: State, t: nat, sees: bool, p: nat)
    requires Inv(s) && Enabled(s, SweepOne(t, sees)) && Alive(s, p)
    ensures Lookup(SweepNext(s.threads[t], sees).slots, p) == Lookup(s.threads[t].slots, p)
  {
    var th := s.threads[t];
    assert ThreadOk(th, s.pools, s.epoch);
    if th.pc.next < |th.slots| {
      assert SlotFits(th.pc.next, th.slots[th.pc.next], s.pools);
    }
  }

  /** The access proper is the map update. */
  lemma FinishIsUpdate(s: State, t: nat, p: nat)
    requires Inv(s) && Enabled(s, Finish(t))
    ensures var th := s.threads[t]; var op := th.pc.op;
            Lookup(FinishOp(th, op).slots, p)
            == if op.pool != p || op.Probe? then Lookup(th.slots, p)
               else if op.ParkBuf? then Some(op.buf) else None
  {
    var th := s.threads[t];
    assert ThreadOk(th, s.pools, s.epoch);
    ThreadTagged(th, s.pools, s.epoch);
    var op := th.pc.op;
    TakeAndParkAreMapUpdates(th.slots, op.pool, if op.ParkBuf? then op.buf else Erased(0, 0));
  }

  /** What the lease is given, or `idle_len` answers, is what was found in the slot. */
  lemma ShownIsFound(s: State, t: nat)
    requires Linked(s) && Enabled(s, Finish(t))
    ensures var th, op := s.threads[t], s.threads[t].pc.op;
            Shows(s, Finish(t)) == [match op
                                    case TakeBuf(p, _) => Took(t, p, Found(th, op))
                                    case ParkBuf(p, b) => Parked(t, p, b)
                                    case Probe(p) => Probed(t, p, if Found(th, op).Some? then 1 else 0)]
  {
    hide FinishOp;
    assert OpOf(s.threads[t].pc).Some?;
  }

  lemma FinishSimulates(s: State, m: Eager, t: nat)
    requires Inv(s) && Linked(s) && Simulates(s, m) && Enabled(s, Finish(t))
    ensures var ev := Shows(s, Finish(t))[0];
            |Shows(s, Finish(t))| == 1 && Agrees(m, ev) && Simulates(Apply(s, Finish(t)), EagerStep(m, ev))
  {
    ShownIsFound(s, t);
    hide Shows;
    var th, op := s.threads[t], s.threads[t].pc.op;
    var r, ev := Apply(s, Finish(t)), Shows(s, Finish(t))[0];
    assert ThreadOk(th, s.pools, s.epoch);
    assert Alive(s, op.pool);
    assert r.pools == s.pools && r.threads == s.threads[t := FinishOp(th, op)];
    forall u, p | 0 <= u < |r.threads| && Alive(r, p)
      ensures Lookup(r.threads[u].slots, p) == At(EagerStep(m, ev), u, p)
    {
      assert Lookup(s.threads[u].slots, p) == At(m, u, p);
      if u == t { FinishIsUpdate(s, t, p); }
    }
  }

  lemma ExitSimulates(s: State, m: Eager, t: nat)
    requires Simulates(s, m) && Enabled(s, Exit(t))
    ensures Simulates(Apply(s, Exit(t)), EagerStep(m, Left(t)))
  {
    var r := Apply(s, Exit(t));
    forall u, p | 0 <= u < |r.threads| && Alive(r, p)
      ensures Lookup(r.threads[u].slots, p) == At(EagerStep(m, Left(t)), u, p)
    {
      assert Lookup(s.threads[u].slots, p) == At(m, u, p);
    }
  }

  lemma DeathSimulates(s: State, m: Eager, p: nat)
    requires Simulates(s, m) && Enabled(s, ClearFlag(p))
    ensures Simulates(Apply(s, ClearFlag(p)), EagerStep(m, Died(p)))
  {
    var r := Apply(s, ClearFlag(p));
    forall u, q | 0 <= u < |r.threads| && Alive(r, q)
      ensures Lookup(r.threads[u].slots, q) == At(EagerStep(m, Died(p)), u, q)
    {
      assert q != p && Alive(s, q);
      assert Lookup(s.threads[u].slots, q) == At(m, u, q);
    }
  }

  lemma QuietSimulates(s: State, m: Eager, a: Action)
    requires Inv(s) && Simulates(s, m) && Shows(s, a) == []
    ensures Simulates(Apply(s, a), m)
  {
    var r := Apply(s, a);
    if Enabled(s, a) && a.SweepOne? {
      forall p | Alive(s, p) ensures Lookup(r.threads[a.thread].slots, p) == Lookup(s.threads[a.thread].slots, p) {
        SweepInvisible(s, a.thread, a.sees, p);
      }
      StillSimulates(s, r, m);
    } else if Enabled(s, a) && a.Create? {
      CreateSimulates(s, m, a);
    } else {
      OthersKeepSlots(s, a);
      StillSimulates(s, r, m);
    }
  }

  /** The remaining actions leave every thread's slots alone and no new pool appears. */
  lemma OthersKeepSlots(s: State, a: Action)
    requires Shows(s, a) == [] && (Enabled(s, a) ==> !a.SweepOne? && !a.Create?)
    ensures var r := Apply(s, a);
            && |s.threads| <= |r.threads| && |r.pools| == |s.pools|
            && (forall t | 0 <= t < |s.threads| :: r.threads[t].slots == s.threads[t].slots)
            && (forall t | |s.threads| <= t < |r.threads| :: r.threads[t].slots == [])
            && (forall p | 0 <= p < |s.pools| :: r.pools[p].live == s.pools[p].live)
  {
  }

  lemma StillSimulates(s: State, r: State, m: Eager)
    requires Simulates(s, m) && |s.threads| <= |r.threads| && |r.pools| == |s.pools|
    requires forall t, p | 0 <= t < |s.threads| && Alive(s, p) ::
               Lookup(r.threads[t].slots, p) == Lookup(s.threads[t].slots, p)
    requires forall t | |s.threads| <= t < |r.threads| :: r.threads[t].slots == []
    requires forall p | 0 <= p < |s.pools| :: r.pools[p].live == s.pools[p].live
    ensures Simulates(r, m)
  {
    forall t, p | 0 <= t < |r.threads| && Alive(r, p) ensures Lookup(r.threads[t].slots, p) == At(m, t, p) {
      assert Alive(s, p);
      if t < |s.threads| { assert Lookup(s.threads[t].slots, p) == At(m, t, p); }
    }
    forall k | k in m ensures k.0 < |r.threads| && Alive(r, k.1) { assert Alive(s, k.1); }
  }

  lemma CreateSimulates(s: State, m: Eager, a: Action)
    requires Inv(s) && Simulates(s, m) && a.Create?
    ensures Simulates(Apply(s, a), m)
  {
    var r := Apply(s, a);
    forall t: nat, p: nat | t < |r.threads| && Alive(r, p) ensures Lookup(r.threads[t].slots, p) == At(m, t, p) {
      assert ThreadOk(s.threads[t], s.pools, s.epoch);
      if p < |s.pools| {
        assert Alive(s, p);
        assert Lookup(s.threads[t].slots, p) == At(m, t, p);
      } else if (t, p) in m {
        assert Alive(s, (t, p).1);
      }
    }
    forall k | k in m ensures Alive(r, k.1) { assert Alive(s, k.1); }
  }

  lemma StepSimulates(s: State, m: Eager, a: Action)
    requires Inv(s) && Linked(s) && Simulates(s, m)
    ensures |Shows(s, a)| <= 1
    ensures if Shows(s, a) == [] then Simulates(Apply(s, a), m)
            else Agrees(m, Shows(s, a)[0]) && Simulates(Apply(s, a), EagerStep(m, Shows(s, a)[0]))
  {
    hide Apply, Simulates;
    if Shows(s, a) == [] {
      QuietSimulates(s, m, a);
    } else if a.Finish? {
      FinishSimulates(s, m, a.thread);
    } else if a.Exit? {
      ExitSimulates(s, m, a.thread);
    } else {
      DeathSimulates(s, m, a.pool);
    }
  }

  /** In every run over any pools and threads, with loads as stale as the code allows, every
      `get`, return and `idle_len` on a live pool gives the answer of the plain map in which
      a dropped pool's buffers vanish everywhere at once. */
  lemma {:induction false} LazyIsEager(acts: seq<Action>)
    ensures Explained(Trace(START, acts))
    ensures Simulates(Exec(START, acts), EagerRun(Trace(START, acts)))
  {
    if acts == [] {
    } else {
      var n := |acts| - 1;
      var s, evs := Exec(START, acts[..n]), Trace(START, acts[..n]);
      LazyIsEager(acts[..n]);
      ExecInv(START, acts[..n]);
      ExecLinked(acts[..n]);
      StepSimulates(s, EagerRun(evs), acts[n]);
      var shown := Shows(s, acts[n]);
      if shown == [] {
        assert evs + shown == evs;
      } else {
        assert (evs + shown)[..|evs + shown| - 1] == evs;
      }
    }
  }

  // ---- what a sweep drops ----

  /** What pool `p` last did with thread `t`'s slot: the buffer it parked, or nothing if it
      took one out since. */
  function LastParked(evs: seq<Event>, t: nat, p: nat): Option<Erased>
  {
    if evs == [] then None else
    var before := LastParked(evs[..|evs| - 1], t, p);
    match evs[|evs| - 1]
    case Took(u, q, _) => if u == t && q == p then None else before
    case Parked(u, q, b) => if u == t && q == p then Some(b) else before
    case _ => before
  }

  /** Whatever a slot holds was put there by its own pool. */
  ghost predicate OwnBuffers(s: State, evs: seq<Event>)
  {
    forall t, p: nat | 0 <= t < |s.threads| && Lookup(s.threads[t].slots, p).Some? ::
      Lookup(s.threads[t].slots, p) == LastParked(evs, t, p)
  }

  lemma ShownLast(evs: seq<Event>, ev: Event, t: nat, p: nat)
    ensures LastParked(evs + [ev], t, p)
            == if ev.Took? && ev.thread == t && ev.pool == p then None
               else if ev.Parked? && ev.thread == t && ev.pool == p then Some(ev.buf)
               else LastParked(evs, t, p)
  {
    assert (evs + [ev])[..|evs|] == evs;
  }

  lemma FinishOwns(s: State, evs: seq<Event>, t: nat)
    requires Inv(s) && OwnBuffers(s, evs) && Enabled(s, Finish(t))
    ensures OwnBuffers(Apply(s, Finish(t)), evs + Shows(s, Finish(t)))
  {
    var r, ev := Apply(s, Finish(t)), Shows(s, Finish(t))[0];
    assert Shows(s, Finish(t)) == [ev];
    assert r.threads == s.threads[t := FinishOp(s.threads[t], s.threads[t].pc.op)];
    forall u, p: nat | 0 <= u < |r.threads| && Lookup(r.threads[u].slots, p).Some?
      ensures Lookup(r.threads[u].slots, p) == LastParked(evs + [ev], u, p)
    {
      ShownLast(evs, ev, u, p);
      if u == t { FinishIsUpdate(s, t, p); }
    }
  }

  /** Every other action at most empties slots, and shows nothing that concerns them. */
  lemma OthersOwn(s: State, evs: seq<Event>, a: Action)
    requires OwnBuffers(s, evs) && !(a.Finish? && Enabled(s, a))
    ensures OwnBuffers(Apply(s, a), evs + Shows(s, a))
  {
    hide Apply, Shows, Lookup;
    var r := Apply(s, a);
    forall u, p: nat | 0 <= u < |r.threads| && Lookup(r.threads[u].slots, p).Some?
      ensures Lookup(r.threads[u].slots, p) == LastParked(evs + Shows(s, a), u, p)
    {
      OthersOnlyEmpty(s, a, u, p);
      if Shows(s, a) == [] {
        assert evs + Shows(s, a) == evs;
      } else {
        ShownLast(evs, Shows(s, a)[0], u, p);
        assert Shows(s, a) == [Shows(s, a)[0]];
      }
    }
  }

  lemma OthersOnlyEmpty(s: State, a: Action, u: nat, p: nat)
    requires !(a.Finish? && Enabled(s, a)) && u < |Apply(s, a).threads|
    requires Lookup(Apply(s, a).threads[u].slots, p).Some?
    ensures u < |s.threads| && Lookup(s.threads[u].slots, p) == Lookup(Apply(s, a).threads[u].slots, p)
    ensures Shows(s, a) == [] || (|Shows(s, a)| == 1 && !Shows(s, a)[0].Took? && !Shows(s, a)[0].Parked?)
  {
    hide SlotFor, Take, Park, BufsOf;
  }

  lemma {:induction false} TraceOwns(acts: seq<Action>)
    ensures OwnBuffers(Exec(START, acts), Trace(START, acts))
  {
    if acts == [] {
    } else {
      hide Apply, Shows, OwnBuffers, Inv;
      var n := |acts| - 1;
      var s := Exec(START, acts[..n]);
      TraceOwns(acts[..n]);
      ExecInv(START, acts[..n]);
      if acts[n].Finish? && Enabled(s, acts[n]) {
        FinishOwns(s, Trace(START, acts[..n]), acts[n].thread);
      } else {
        OthersOwn(s, Trace(START, acts[..n]), acts[n]);
      }
    }
  }

  /** No sweep drops a live pool's buffer, not even from a slot that once carried another,
      dead pool's flag: what it drops was last parked in that slot, on that thread, by the
      slot's own pool, and that pool is dead. */
  lemma SweepSparesTheLiving(acts: seq<Action>, t: nat, sees: bool)
    requires var s := Exec(START, acts); Enabled(s, SweepOne(t, sees)) && SweepDrops(s.threads[t], sees) != []
    ensures var s := Exec(START, acts);
            var k := s.threads[t].pc.next;
            && k < |s.pools| && !s.pools[k].live
            && LastParked(Trace(START, acts), t, k) == Some(SweepDrops(s.threads[t], sees)[0])
  {
    var s := Exec(START, acts);
    SweptIsDead(acts, t, sees);
    TraceOwns(acts);
    assert Lookup(s.threads[t].slots, s.threads[t].pc.next).Some?;
  }
}
