/**
  How a dropped thread-local pool is announced, and what becomes of what it had parked: every
  thread that reads the announcement frees its buffer before its access goes on
  (src/local.rs:113-131, 216-223).
 */
module LocalDeath {
  import opened Wrappers
  import opened Registries
  import opened LocalSteps
  import opened LocalSafety
  import opened LocalRefinement
  import opened LocalCalls

  /** The epoch that the drop of pool `p` raised, if that drop is complete: what the epoch was
      right after the second of its two actions. */
  function DeathEpoch(acts: seq<Action>, p: nat): Option<nat>
  {
    if acts == [] then None else
    var before := acts[..|acts| - 1];
    if DeathEpoch(before, p).Some? then DeathEpoch(before, p)
    else if acts[|acts| - 1] == BumpEpoch(p) && Enabled(Exec(START, before), BumpEpoch(p)) then Some(Exec(START, acts).epoch)
    else None
  }

  lemma Then(acts: seq<Action>, a: Action)
    ensures Exec(START, acts + [a]) == Apply(Exec(START, acts), a)
    ensures (acts + [a])[..|acts|] == acts && (acts + [a])[|acts|] == a
  {
    hide Apply;
    assert (acts + [a])[..|acts|] == acts;
  }

  /** The death epoch is what the pool's drop left behind. */
  lemma {:induction false} BumpIsDeathEpoch(acts: seq<Action>, p: nat)
    ensures var s := Exec(START, acts);
            if p < |s.pools| then s.pools[p].bump == DeathEpoch(acts, p) else DeathEpoch(acts, p) == None
  {
    if acts == [] {
    } else {
      var n := |acts| - 1;
      BumpIsDeathEpoch(acts[..n], p);
      BumpMoves(Exec(START, acts[..n]), acts[n], p);
    }
  }

  lemma BumpMoves(s: State, a: Action, p: nat)
    ensures var r := Apply(s, a);
            && |s.pools| <= |r.pools|
            && (p < |s.pools| ==>
                r.pools[p].bump == if a == BumpEpoch(p) && Enabled(s, a) then Some(r.epoch) else s.pools[p].bump)
            && (|s.pools| <= p < |r.pools| ==> r.pools[p].bump == None)
            && (Enabled(s, BumpEpoch(p)) ==> p < |s.pools| && s.pools[p].bump == None)
  {
    hide SlotFor, Take, Park, BufsOf;
  }

  // ---- the announcement ----

  /** The first half of a drop: the pool is no longer alive, and the second half is to come,
      whatever happens in between. */
  lemma FlagFirst(acts: seq<Action>, p: nat, mid: seq<Action>)
    requires Enabled(Exec(START, acts), ClearFlag(p))
    ensures var r := Exec(START, acts + [ClearFlag(p)] + mid);
            p < |r.pools| && !Alive(r, p) && (DeathEpoch(acts + [ClearFlag(p)] + mid, p).Some? || Enabled(r, BumpEpoch(p)))
  {
    var s := Exec(START, acts);
    Then(acts, ClearFlag(p));
    assert !Alive(Apply(s, ClearFlag(p)), p) && p < |Apply(s, ClearFlag(p)).pools|;
    ExecConcat(START, acts + [ClearFlag(p)], mid);
    StaysDead(Exec(START, acts + [ClearFlag(p)]), mid, p);
    BumpIsDeathEpoch(acts + [ClearFlag(p)] + mid, p);
  }

  lemma {:induction false} StaysDead(s: State, acts: seq<Action>, p: nat)
    requires p < |s.pools| && !s.pools[p].live
    ensures var r := Exec(s, acts); p < |r.pools| && !r.pools[p].live
  {
    if acts == [] {
    } else {
      StaysDead(s, acts[..|acts| - 1], p);
      DeadStep(Exec(s, acts[..|acts| - 1]), acts[|acts| - 1], p);
    }
  }

  lemma DeadStep(s: State, a: Action, p: nat)
    requires p < |s.pools| && !s.pools[p].live
    ensures var r := Apply(s, a); p < |r.pools| && !r.pools[p].live
  {
    hide SlotFor, Take, Park, BufsOf;
  }

  /** The second half: the epoch rises above everything any thread has seen, and that is the
      pool's death epoch. */
  lemma DropAnnounces(acts: seq<Action>, p: nat)
    requires Enabled(Exec(START, acts), BumpEpoch(p))
    ensures var s, all := Exec(START, acts), acts + [BumpEpoch(p)];
            var r := Exec(START, all);
            && r.epoch == s.epoch + 1 && DeathEpoch(all, p) == Some(r.epoch)
            && r.threads == s.threads && forall t | 0 <= t < |r.threads| :: r.threads[t].seen < r.epoch
  {
    Then(acts, BumpEpoch(p));
    BumpIsDeathEpoch(acts, p);
    ExecInv(START, acts);
    var s := Exec(START, acts);
    forall t | 0 <= t < |s.threads| ensures s.threads[t].seen <= s.epoch {
      assert ThreadOk(s.threads[t], s.pools, s.epoch);
    }
  }

  // ---- what threads that have read it hold ----

  /** A thread whose epoch covers a completed drop holds no buffer of that pool, except in slots
      ahead of a sweep under way. */
  lemma KnownDeadIsGone(acts: seq<Action>, t: nat, p: nat, d: nat)
    requires t < |Exec(START, acts).threads|
    requires DeathEpoch(acts, p) == Some(d) && Exec(START, acts).threads[t].seen >= d
    ensures var th := Exec(START, acts).threads[t];
            (th.pc.Sweep? ==> p < th.pc.next) ==> Lookup(th.slots, p) == None
  {
    BumpIsDeathEpoch(acts, p);
    CoveredIsGone(acts, t, p);
  }

  /** A thread that still holds such a buffer has not read that epoch, so its next call that
      does is bound to sweep. */
  lemma HolderMustSweep(acts: seq<Action>, a: Action, t: nat, p: nat, d: nat)
    requires DeathEpoch(acts, p) == Some(d) && Enabled(Exec(START, acts), a) && Loads(a) && a.thread == t && a.epoch >= d
    requires t < |Exec(START, acts).threads| && Lookup(Exec(START, acts).threads[t].slots, p).Some?
    ensures var r := Exec(START, acts + [a]);
            t < |r.threads| && r.threads[t].pc.Sweep? && r.threads[t].pc.next == 0 && r.threads[t].seen == a.epoch
  {
    var s := Exec(START, acts);
    Then(acts, a);
    if s.threads[t].seen >= d { KnownDeadIsGone(acts, t, p, d); }
    Begun(s, a);
  }

  /** The actions that start with a load of the epoch. */
  predicate Loads(a: Action)
  {
    a.Get? || a.Drop? || a.Put? || a.PutForeign? || a.Ask?
  }

  lemma Begun(s: State, a: Action)
    requires Enabled(s, a) && Loads(a)
    ensures var r, th := Apply(s, a), s.threads[a.thread];
            && a.thread < |s.threads| && |r.threads| == |s.threads| && th.pc.Rest? && OpOf(r.threads[a.thread].pc).Some?
            && r.threads[a.thread].seen == a.epoch && r.threads[a.thread].slots == th.slots
            && (r.threads[a.thread].pc.Sweep? <==> th.seen != a.epoch)
            && (r.threads[a.thread].pc.Sweep? ==> r.threads[a.thread].pc.next == 0)
  {
  }

  // ---- freed, not just missing ----

  /** The thread has the buffer in the pool's slot, or it has been destroyed. */
  ghost predicate HeldOrGone(s: State, t: nat, p: nat, b: Erased)
  {
    t < |s.threads| && (Lookup(s.threads[t].slots, p) == Some(b) || b in s.gone)
  }

  /** Nothing but destroying takes a dead pool's buffer out of its slot. */
  lemma DeadBufferStays(s: State, a: Action, t: nat, p: nat, b: Erased)
    requires Inv(s) && p < |s.pools| && !s.pools[p].live && HeldOrGone(s, t, p, b)
    ensures HeldOrGone(Apply(s, a), t, p, b)
  {
    if Enabled(s, a) && b !in s.gone {
      match a
      case Finish(u) => if u == t { OtherPoolsOp(s, t, p); }
      case SweepOne(u, sees) =>
        if u == t && s.threads[t].pc.next == p { assert Lookup(s.threads[t].slots, p) == Some(b); }
      case Exit(u) => if u == t { InBufs(s.threads[t].slots, p); }
      case _ => OthersLeaveSlots(s, a, t);
    }
    GoneStays(s, a, b);
  }

  lemma GoneStays(s: State, a: Action, b: Erased)
    ensures b in s.gone ==> b in Apply(s, a).gone
    ensures |s.threads| <= |Apply(s, a).threads|
  {
    hide SlotFor, Take, Park, BufsOf;
  }

  lemma OthersLeaveSlots(s: State, a: Action, t: nat)
    requires t < |s.threads| && !a.Finish? && !a.SweepOne? && !a.Exit?
    ensures var r := Apply(s, a); |r.threads| >= |s.threads| && r.threads[t].slots == s.threads[t].slots
  {
  }

  /** An access is for a live pool, so it leaves a dead pool's slot as it is. */
  lemma OtherPoolsOp(s: State, t: nat, p: nat)
    requires Inv(s) && Enabled(s, Finish(t)) && p < |s.pools| && !s.pools[p].live
    ensures Lookup(Apply(s, Finish(t)).threads[t].slots, p) == Lookup(s.threads[t].slots, p)
  {
    var th := s.threads[t];
    assert ThreadOk(th, s.pools, s.epoch);
    ThreadTagged(th, s.pools, s.epoch);
    TakeAndParkAreMapUpdates(th.slots, th.pc.op.pool, if th.pc.op.ParkBuf? then th.pc.op.buf else Erased(0, 0));
  }

  lemma {:induction false} InBufs(slots: seq<Slot>, i: nat)
    requires i < |slots| && slots[i].buf.Some?
    ensures slots[i].buf.value in BufsOf(slots)
  {
    var n := |slots| - 1;
    if i == n {
    } else {
      InBufs(slots[..n], i);
    }
  }

  lemma {:induction false} DeadBufferRun(acts: seq<Action>, rest: seq<Action>, t: nat, p: nat, b: Erased)
    requires var s := Exec(START, acts); p < |s.pools| && !s.pools[p].live && HeldOrGone(s, t, p, b)
    ensures HeldOrGone(Exec(START, acts + rest), t, p, b)
  {
    if rest == [] {
      assert acts + rest == acts;
    } else {
      hide HeldOrGone;
      var n := |rest| - 1;
      DeadBufferRun(acts, rest[..n], t, p, b);
      ExecConcat(START, acts, rest[..n]);
      StaysDead(Exec(START, acts), rest[..n], p);
      ExecInv(START, acts + rest[..n]);
      DeadBufferStays(Exec(START, acts + rest[..n]), rest[n], t, p, b);
      Then(acts + rest[..n], rest[n]);
      assert acts + rest[..n] + [rest[n]] == acts + rest;
    }
  }

  lemma {:induction false} DeathLasts(acts: seq<Action>, rest: seq<Action>, p: nat)
    requires DeathEpoch(acts, p).Some?
    ensures DeathEpoch(acts + rest, p) == DeathEpoch(acts, p)
  {
    if rest == [] {
      assert acts + rest == acts;
    } else {
      DeathLasts(acts, rest[..|rest| - 1], p);
      assert (acts + rest)[..|acts + rest| - 1] == acts + rest[..|rest| - 1];
    }
  }

  /** Once a pool's drop is complete, a thread that begins any call and reads at least that epoch
      has, whenever it is not sweeping after that and whatever else happens, no buffer of the
      pool; and what it had held for the pool has been destroyed. */
  lemma NextAccessFrees(acts: seq<Action>, a: Action, rest: seq<Action>, t: nat, p: nat, d: nat)
    requires DeathEpoch(acts, p) == Some(d) && Enabled(Exec(START, acts), a) && Loads(a) && a.thread == t && a.epoch >= d
    requires t < |Exec(START, acts).threads|
    ensures var s, r := Exec(START, acts), Exec(START, acts + [a] + rest);
            && t < |r.threads|
            && (!r.threads[t].pc.Sweep? ==>
                Lookup(r.threads[t].slots, p) == None
                && (Lookup(s.threads[t].slots, p).Some? ==> Lookup(s.threads[t].slots, p).value in r.gone))
  {
    hide Exec, Apply, DeathEpoch, Enabled;
    var s := Exec(START, acts);
    Then(acts, a);
    Begun(s, a);
    DeathLasts(acts, [a] + rest, p);
    assert acts + ([a] + rest) == acts + [a] + rest;
    ExecConcat(START, acts + [a], rest);
    ExecProgresses(Exec(START, acts + [a]), rest);
    var r := Exec(START, acts + [a] + rest);
    if !r.threads[t].pc.Sweep? { KnownDeadIsGone(acts + [a] + rest, t, p, d); }
    if Lookup(s.threads[t].slots, p).Some? {
      DeathIsDead(acts, p);
      DeadBufferRun(acts, [a] + rest, t, p, Lookup(s.threads[t].slots, p).value);
    }
  }

  lemma DeathIsDead(acts: seq<Action>, p: nat)
    requires DeathEpoch(acts, p).Some?
    ensures p < |Exec(START, acts).pools| && !Exec(START, acts).pools[p].live
  {
    BumpIsDeathEpoch(acts, p);
    ExecInv(START, acts);
    var s := Exec(START, acts);
    assert PoolOk(s.pools[p], s.epoch);
  }

  /** The whole way: a pool is dropped, anything happens, and then a thread makes any call that
      reads the current epoch. What it had parked for the pool is destroyed by the time the call
      is past its sweep. */
  lemma DropFreesOnNextAccess(acts: seq<Action>, p: nat, mid: seq<Action>, a: Action, rest: seq<Action>, t: nat)
    requires Enabled(Exec(START, acts), BumpEpoch(p))
    requires var s := Exec(START, acts + [BumpEpoch(p)] + mid);
             Enabled(s, a) && Loads(a) && a.thread == t && t < |s.threads| && a.epoch == s.epoch
    ensures var s, r := Exec(START, acts + [BumpEpoch(p)] + mid), Exec(START, acts + [BumpEpoch(p)] + mid + [a] + rest);
            && t < |r.threads|
            && (!r.threads[t].pc.Sweep? ==>
                Lookup(r.threads[t].slots, p) == None
                && (Lookup(s.threads[t].slots, p).Some? ==> Lookup(s.threads[t].slots, p).value in r.gone))
  {
    hide Exec, Apply, DeathEpoch, Enabled;
    var first := acts + [BumpEpoch(p)];
    DropAnnounces(acts, p);
    DeathLasts(first, mid, p);
    ExecConcat(START, first, mid);
    EpochGrows(Exec(START, first), mid);
    NextAccessFrees(first + mid, a, rest, t, p, Exec(START, first).epoch);
  }

  lemma {:induction false} EpochGrows(s: State, acts: seq<Action>)
    ensures Exec(s, acts).epoch >= s.epoch
  {
    if acts == [] {
    } else {
      EpochGrows(s, acts[..|acts| - 1]);
      EpochStep(Exec(s, acts[..|acts| - 1]), acts[|acts| - 1]);
    }
  }

  lemma EpochStep(s: State, a: Action)
    ensures Apply(s, a).epoch >= s.epoch
  {
  }

  // ---- a pool dropped, its buffer reclaimed ----

  /** A pool that nobody borrows can be dropped, in two actions, and its death is announced. */
  lemma DropsAlone(acts: seq<Action>, p: nat)
    requires Alive(Exec(START, acts), p) && !Borrowed(Exec(START, acts), p)
    ensures var s, r := Exec(START, acts), Exec(START, acts + [ClearFlag(p), BumpEpoch(p)]);
            && Enabled(Exec(START, acts + [ClearFlag(p)]), BumpEpoch(p))
            && acts + [ClearFlag(p)] + [BumpEpoch(p)] == acts + [ClearFlag(p), BumpEpoch(p)]
            && r.epoch == s.epoch + 1 && r.threads == s.threads && |r.pools| == |s.pools|
            && !Alive(r, p) && forall q | q != p :: Alive(s, q) ==> Alive(r, q)
  {
    ExecInv(START, acts);
    var s := Exec(START, acts);
    assert PoolOk(s.pools[p], s.epoch);
    Then(acts, ClearFlag(p));
    Then(acts + [ClearFlag(p)], BumpEpoch(p));
  }

  /** A thread at rest with a buffer of a pool just dropped asks any other pool anything. */
  lemma AskAfterDrop(first: seq<Action>, t: nat, p: nat, a: Action, b: Erased) returns (own: seq<Action>)
    requires Enabled(Exec(START, first), BumpEpoch(p))
    requires var s := Exec(START, first + [BumpEpoch(p)]);
             && a.Ask? && a.thread == t && a.epoch == s.epoch && Enabled(s, a)
             && t < |s.threads| && Lookup(s.threads[t].slots, p) == Some(b)
    ensures b in Exec(START, first + [BumpEpoch(p)] + Call(a, own, t)).gone
  {
    hide Exec, Apply, Parkage, Enabled;
    var all := first + [BumpEpoch(p)];
    own := AskServes(all, t, a.pool, a.epoch);
    assert all + [] == all;
    assert all + Call(a, own, t) == all + [] + [a] + (own + [Finish(t)]);
    DropFreesOnNextAccess(first, p, [], a, own + [Finish(t)], t);
  }

  /** What a thread at rest with a buffer parked looks like. */
  lemma ParksMeans(acts: seq<Action>, t: nat, p: nat, b: Erased)
    requires Parks(acts, t, p, b)
    ensures var s := Exec(START, acts);
            && Alive(s, p) && t < |s.threads| && s.threads[t].pc.Rest? && s.threads[t].seen <= s.epoch
            && Lookup(s.threads[t].slots, p) == Some(b)
  {
    ParkedIsAlive(acts, t, p);
    ParkedIsFound(acts, t, p);
    SeenBelow(acts, t);
  }

  lemma ReadyToAsk(acts: seq<Action>, t: nat, p: nat, q: nat, b: Erased)
    requires Parks(acts, t, p, b) && !Borrowed(Exec(START, acts), p) && q != p && Alive(Exec(START, acts), q)
    ensures var s := Exec(START, acts + [ClearFlag(p), BumpEpoch(p)]);
            && Enabled(Exec(START, acts + [ClearFlag(p)]), BumpEpoch(p))
            && Enabled(s, Ask(t, q, s.epoch))
            && t < |s.threads| && Lookup(s.threads[t].slots, p) == Some(b)
  {
    hide Exec, Parks, Borrowed, Alive, Enabled;
    ParksMeans(acts, t, p, b);
    DropsAlone(acts, p);
    MayAsk(Exec(START, acts + [ClearFlag(p), BumpEpoch(p)]), t, q);
  }

  lemma MayAsk(s: State, t: nat, q: nat)
    requires t < |s.threads| && s.threads[t].pc.Rest? && s.threads[t].seen <= s.epoch && Alive(s, q)
    ensures Enabled(s, Ask(t, q, s.epoch))
  {
  }

  /** Drop a pool while a thread at rest has a buffer of it parked, and let that thread make one
      call on any other pool: the buffer is destroyed by then. */
  lemma Reclaims(acts: seq<Action>, t: nat, p: nat, q: nat, b: Erased) returns (run: seq<Action>)
    requires Parks(acts, t, p, b) && !Borrowed(Exec(START, acts), p) && q != p && Alive(Exec(START, acts), q)
    ensures b in Exec(START, acts + run).gone
  {
    hide Exec, Enabled, Parks, Borrowed, Alive, Call;
    ReadyToAsk(acts, t, p, q, b);
    var drop := [ClearFlag(p), BumpEpoch(p)];
    assert acts + drop == acts + [ClearFlag(p)] + [BumpEpoch(p)];
    var a := Ask(t, q, Exec(START, acts + drop).epoch);
    var own := AskAfterDrop(acts + [ClearFlag(p)], t, p, a, b);
    run := drop + Call(a, own, t);
    assert acts + run == acts + drop + Call(a, own, t);
  }

  lemma SeenBelow(acts: seq<Action>, t: nat)
    requires t < |Exec(START, acts).threads|
    ensures Exec(START, acts).threads[t].seen <= Exec(START, acts).epoch
  {
    ExecInv(START, acts);
    assert ThreadOk(Exec(START, acts).threads[t], Exec(START, acts).pools, Exec(START, acts).epoch);
  }

  lemma ParkedIsFound(acts: seq<Action>, t: nat, p: nat)
    requires t < |Exec(START, acts).threads| && Parkage(acts, t, p).Some?
    ensures Lookup(Exec(START, acts).threads[t].slots, p) == Parkage(acts, t, p)
  {
    LazyIsEager(acts);
    ParkedIsAlive(acts, t, p);
  }

  /** From nothing: a lease initialized and dropped, a second pool made, the first one dropped,
      and one call on the second destroys the buffer. */
  lemma DroppedPoolIsReclaimed(ty: nat, other: nat) returns (run: seq<Action>)
    ensures Erased(ty, 0) in Exec(START, run).gone
  {
    FirstLeaseInitializes(ty);
    hide Exec, FirstLease, Parks, Apply;
    var back := DropParks(FirstLease(ty), 0, 0, 0);
    var two := FirstLease(ty) + back;
    assert Settled(two, ty);
    AnotherPool(two, other, ty);
    var more := Reclaims(two + [Create(other)], 0, 0, 1, Erased(ty, 0));
    run := two + [Create(other)] + more;
  }

  /** One thread, its lease over and the buffer parked, one pool. */
  ghost predicate Settled(acts: seq<Action>, ty: nat)
  {
    var s := Exec(START, acts);
    && s.leases == [Over] && |s.threads| == 1 && s.pools == [Pool(ty, true, None)] && Parks(acts, 0, 0, Erased(ty, 0))
  }

  lemma AnotherPool(acts: seq<Action>, other: nat, ty: nat)
    requires Settled(acts, ty)
    ensures var all := acts + [Create(other)];
            && Parks(all, 0, 0, Erased(ty, 0)) && !Borrowed(Exec(START, all), 0) && Alive(Exec(START, all), 1)
  {
    var s := Exec(START, acts);
    TraceThen(acts, Create(other));
    assert Shows(s, Create(other)) == [];
    assert Trace(START, acts) + [] == Trace(START, acts);
    hide Exec, Trace, EagerRun;
    SameParkage(acts + [Create(other)], acts, 0, 0);
    Unborrowed(Apply(s, Create(other)));
  }

  lemma Unborrowed(s: State)
    requires s.leases == [Over] && |s.threads| == 1 && s.threads[0].pc.Rest?
    ensures !Borrowed(s, 0)
  {
  }
}
