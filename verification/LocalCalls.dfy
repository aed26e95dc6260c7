/**
  What each call on a thread-local pool comes to, from its start to its end, whatever other
  threads do meanwhile: a `get` hands out what the thread had parked or runs the initializer,
  a return parks, `idle_len` answers (src/local.rs:302-400, 541-551).
 */
module LocalCalls {
  import opened Wrappers
  import opened Sums
  import opened Registries
  import opened LocalSteps
  import opened LocalSafety
  import opened LocalRefinement
  import LocalConservation

  /** Thread `t` is busy with the access. */
  predicate Carries(s: State, t: nat, op: Op)
  {
    t < |s.threads| && OpOf(s.threads[t].pc) == Some(op)
  }

  /** What the plain map has for the thread and the pool after the run. */
  function Parkage(acts: seq<Action>, t: nat, p: nat): Option<Erased>
  {
    At(EagerRun(Trace(START, acts)), t, p)
  }

  // ---- calls begin ----

  /** The buffer a returning action hands over, and the pool. */
  function HandsOver(s: State, a: Action): Option<(nat, Erased)>
  {
    match a
    case Drop(l, _, _) => if l < |s.leases| && s.leases[l].Out? then Some((s.leases[l].pool, s.leases[l].buf)) else None
    case Put(_, p, at, _) => if at < |s.hands| then Some((p, s.hands[at])) else None
    case PutForeign(_, p, _) => if p < |s.pools| then Some((p, Erased(s.pools[p].ty, s.made))) else None
    case _ => None
  }

  lemma GetBegins(s: State, t: nat, p: nat, e: nat)
    requires Enabled(s, Get(t, p, e))
    ensures var r := Apply(s, Get(t, p, e));
            && Carries(r, t, TakeBuf(p, |s.leases|)) && r.leases == s.leases + [Asking(p, t)]
            && r.threads[t].slots == s.threads[t].slots
            && r.hands == s.hands && r.gone == s.gone && r.made == s.made
  {
  }

  /** The return is under way with the very buffer, which has left the lease or the hands. */
  lemma ReturnBegins(s: State, a: Action)
    requires Enabled(s, a) && HandsOver(s, a).Some?
    ensures var r, (p, b) := Apply(s, a), HandsOver(s, a).value;
            && Carries(r, a.thread, ParkBuf(p, b)) && r.gone == s.gone && SameWorld(s, r)
            && r.threads[a.thread].slots == s.threads[a.thread].slots
            && (a.Drop? ==> r.leases == s.leases[a.lease := Over] && r.hands == s.hands && r.made == s.made)
            && (a.Put? ==> r.leases == s.leases && |r.hands| == |s.hands| - 1 && r.made == s.made)
            && (a.PutForeign? ==> r.leases == s.leases && r.hands == s.hands && r.made == s.made + 1)
  {
  }

  lemma AskBegins(s: State, t: nat, p: nat, e: nat)
    requires Enabled(s, Ask(t, p, e))
    ensures var r := Apply(s, Ask(t, p, e));
            && Carries(r, t, Probe(p)) && r.threads[t].slots == s.threads[t].slots
            && r.leases == s.leases && r.hands == s.hands && r.gone == s.gone && r.made == s.made
  {
  }

  // ---- calls stay under way until their own last step ----

  lemma StaysInFlight(s: State, a: Action, t: nat, op: Op)
    requires Carries(s, t, op) && !(a == Finish(t) && s.threads[t].pc.Access?)
    ensures Carries(Apply(s, a), t, op)
  {
    hide SlotFor, Take, Park, BufsOf, SweptSlot;
  }

  lemma TraceThen(acts: seq<Action>, a: Action)
    ensures Trace(START, acts + [a]) == Trace(START, acts) + Shows(Exec(START, acts), a)
    ensures Exec(START, acts + [a]) == Apply(Exec(START, acts), a)
  {
    hide Shows, Apply;
    assert (acts + [a])[..|acts|] == acts;
  }

  lemma EagerThen(evs: seq<Event>, ev: Event)
    ensures EagerRun(evs + [ev]) == EagerStep(EagerRun(evs), ev)
  {
    assert (evs + [ev])[..|evs|] == evs;
  }

  /** What is in the slot of a live pool is what the map has. */
  lemma FoundIsParkage(acts: seq<Action>, t: nat)
    requires Enabled(Exec(START, acts), Finish(t))
    ensures var th := Exec(START, acts).threads[t]; Found(th, th.pc.op) == Parkage(acts, t, th.pc.op.pool)
  {
    var s := Exec(START, acts);
    ExecInv(START, acts);
    LazyIsEager(acts);
    assert ThreadOk(s.threads[t], s.pools, s.epoch);
    assert Alive(s, s.threads[t].pc.op.pool);
  }

  /** A `get` ends: its lease is out with what the thread had parked for the pool, and nothing
      is destroyed; or there was nothing, and the initializer runs. */
  lemma GetEnds(acts: seq<Action>, t: nat, p: nat, l: nat)
    requires Enabled(Exec(START, acts), Finish(t)) && Exec(START, acts).threads[t].pc.op == TakeBuf(p, l)
    ensures var s, r := Exec(START, acts), Exec(START, acts + [Finish(t)]);
            && l < |s.leases| && s.leases[l] == Asking(p, t)
            && r.leases == s.leases[l := match Parkage(acts, t, p)
                                         case Some(b) => Out(p, t, b)
                                         case None => Fresh(p, t)]
            && r.gone == s.gone && r.hands == s.hands && r.made == s.made
            && t < |r.threads| && r.threads[t].pc.Rest? && Parkage(acts + [Finish(t)], t, p) == None
  {
    var s := Exec(START, acts);
    hide FinishOp, Shows;
    ExecLinked(acts);
    assert OpOf(s.threads[t].pc).Some?;
    FoundIsParkage(acts, t);
    ShownIsFound(s, t);
    TraceThen(acts, Finish(t));
    EagerThen(Trace(START, acts), Shows(s, Finish(t))[0]);
    FinishRests(s.threads[t]);
  }

  lemma FinishRests(th: Thread)
    requires th.pc.Access?
    ensures FinishOp(th, th.pc.op).pc == Rest
  {
  }

  /** A return ends: the thread has exactly that buffer parked for the pool, and what was parked
      there before, if anything, is destroyed. */
  lemma ReturnEnds(acts: seq<Action>, t: nat, p: nat, b: Erased)
    requires Enabled(Exec(START, acts), Finish(t)) && Exec(START, acts).threads[t].pc.op == ParkBuf(p, b)
    ensures var s, r := Exec(START, acts), Exec(START, acts + [Finish(t)]);
            && Parkage(acts + [Finish(t)], t, p) == Some(b)
            && r.gone == s.gone + (match Parkage(acts, t, p) case Some(x) => [x] case None => [])
            && SameWorld(s, r)
            && r.leases == s.leases && r.hands == s.hands && r.made == s.made
            && t < |r.threads| && r.threads[t].pc.Rest?
  {
    var s := Exec(START, acts);
    hide FinishOp, Shows;
    ExecLinked(acts);
    FoundIsParkage(acts, t);
    ShownIsFound(s, t);
    TraceThen(acts, Finish(t));
    EagerThen(Trace(START, acts), Shows(s, Finish(t))[0]);
    FinishRests(s.threads[t]);
  }

  /** `idle_len` ends: it has answered one if the thread has a buffer parked, zero otherwise. */
  lemma AskEnds(acts: seq<Action>, t: nat, p: nat)
    requires Enabled(Exec(START, acts), Finish(t)) && Exec(START, acts).threads[t].pc.op == Probe(p)
    ensures var s, r := Exec(START, acts), Exec(START, acts + [Finish(t)]);
            && r.answers == s.answers + [if Parkage(acts, t, p).Some? then 1 else 0]
            && r.leases == s.leases && r.hands == s.hands && r.gone == s.gone && r.made == s.made
            && t < |r.threads| && r.threads[t].pc.Rest?
            && Parkage(acts + [Finish(t)], t, p) == Parkage(acts, t, p)
  {
    var s := Exec(START, acts);
    hide FinishOp, Shows;
    ExecLinked(acts);
    FoundIsParkage(acts, t);
    ShownIsFound(s, t);
    TraceThen(acts, Finish(t));
    EagerThen(Trace(START, acts), Shows(s, Finish(t))[0]);
    FinishRests(s.threads[t]);
  }

  // ---- a buffer on its way ----

  /** A buffer being parked is neither with a user nor destroyed. */
  lemma OnItsWay(acts: seq<Action>, t: nat, p: nat, b: Erased)
    requires Carries(Exec(START, acts), t, ParkBuf(p, b))
    ensures b !in Exec(START, acts).hands && b !in Exec(START, acts).gone
  {
    var s := Exec(START, acts);
    var w := LocalConservation.IsId(b.id);
    LocalConservation.LocalConservation(acts, b.id);
    SumCovers(LocalConservation.OfSlot(w), s.threads[t].slots);
    Weights(s, w);
    assert LocalConservation.OfThread(w)(s.threads[t]) >= 1;
    if b in s.hands { WeighsIn(w, s.hands, b); }
    if b in s.gone { WeighsIn(w, s.gone, b); }
  }

  lemma WeighsIn(w: Erased -> int, xs: seq<Erased>, b: Erased)
    requires b in xs && w(b) == 1 && forall x :: w(x) >= 0
    ensures Sum(w, xs) >= 1
  {
    SumCovers(w, xs);
    var i :| 0 <= i < |xs| && xs[i] == b;
    assert w(xs[i]) == 1;
  }

  lemma Weights(s: State, w: Erased -> int)
    requires forall x :: w(x) >= 0
    ensures Sum(LocalConservation.OfThread(w), s.threads) >= 0 && Sum(LocalConservation.OfLease(w), s.leases) >= 0
    ensures forall t | 0 <= t < |s.threads| ::
              LocalConservation.OfThread(w)(s.threads[t]) <= Sum(LocalConservation.OfThread(w), s.threads)
    ensures Sum(w, s.hands) >= 0 && forall i | 0 <= i < |s.hands| :: w(s.hands[i]) <= Sum(w, s.hands)
    ensures Sum(w, s.gone) >= 0 && forall i | 0 <= i < |s.gone| :: w(s.gone[i]) <= Sum(w, s.gone)
  {
    forall l | l in s.leases ensures LocalConservation.OfLease(w)(l) >= 0 {
      assert l.Out? ==> w(l.buf) >= 0;
    }
    forall th | th in s.threads ensures LocalConservation.OfThread(w)(th) >= 0 {
      forall slot | slot in th.slots ensures LocalConservation.OfSlot(w)(slot) >= 0 {
        assert slot.buf.Some? ==> w(slot.buf.value) >= 0;
      }
      if OpOf(th.pc).Some? && OpOf(th.pc).value.ParkBuf? { assert w(OpOf(th.pc).value.buf) >= 0; }
      SumCovers(LocalConservation.OfSlot(w), th.slots);
    }
    SumCovers(LocalConservation.OfThread(w), s.threads);
    SumCovers(LocalConservation.OfLease(w), s.leases);
    SumCovers(w, s.hands);
    SumCovers(w, s.gone);
  }

  /** The return is under way, and the buffer neither with a user nor destroyed. */
  ghost predicate UnderWay(acts: seq<Action>, t: nat, p: nat, b: Erased)
  {
    var r := Exec(START, acts);
    Carries(r, t, ParkBuf(p, b)) && b !in r.hands && b !in r.gone
  }

  /** The thread is at rest, and what it has parked for the pool is this buffer. */
  ghost predicate Parks(acts: seq<Action>, t: nat, p: nat, b: Erased)
  {
    var r := Exec(START, acts);
    t < |r.threads| && r.threads[t].pc.Rest? && Parkage(acts, t, p) == Some(b)
  }

  lemma OneMore(acts: seq<Action>, a: Action, t: nat, p: nat, b: Erased)
    requires Carries(Exec(START, acts), t, ParkBuf(p, b))
    ensures Parks(acts + [a], t, p, b) || UnderWay(acts + [a], t, p, b)
  {
    hide Apply, Parkage;
    var s := Exec(START, acts);
    TraceThen(acts, a);
    if a == Finish(t) && s.threads[t].pc.Access? {
      ReturnEnds(acts, t, p, b);
    } else {
      StaysInFlight(s, a, t, ParkBuf(p, b));
      OnItsWay(acts + [a], t, p, b);
    }
  }

  /** Whatever happens after a return has begun: it is still under way, or after some `k` of
      the actions the thread was at rest with that buffer parked. */
  lemma {:induction false} ReturnParks(acts: seq<Action>, rest: seq<Action>, t: nat, p: nat, b: Erased) returns (k: nat)
    requires Carries(Exec(START, acts), t, ParkBuf(p, b))
    ensures k <= |rest| && (Parks(acts + rest[..k], t, p, b) || UnderWay(acts + rest, t, p, b))
  {
    hide Parks, Exec, EagerRun, Trace;
    if rest == [] {
      k := 0;
      assert acts + [] == acts;
      OnItsWay(acts, t, p, b);
    } else {
      var n := |rest| - 1;
      k := ReturnParks(acts, rest[..n], t, p, b);
      if UnderWay(acts + rest[..n], t, p, b) {
        OneMore(acts + rest[..n], rest[n], t, p, b);
        assert acts + rest[..n] + [rest[n]] == acts + rest;
        assert rest[..n + 1] == rest;
        k := n + 1;
      } else {
        assert rest[..n][..k] == rest[..k];
      }
    }
  }

  // ---- and they do end ----

  predicate Sweeping(acts: seq<Action>, t: nat)
  {
    forall a | a in acts :: a.SweepOne? && a.thread == t
  }

  /** Looks at slots a thread still has to take before its access. */
  function LooksLeft(th: Thread): nat
  {
    if !th.pc.Sweep? then 0 else if th.pc.next < |th.slots| then |th.slots| - th.pc.next + 1 else 1
  }

  /** On its own a thread gets through its sweep, one look per slot, to the access itself, and
      nothing callers can see has happened. */
  lemma {:induction false} Sweeps(acts: seq<Action>, t: nat, op: Op) returns (sweeps: seq<Action>)
    requires Carries(Exec(START, acts), t, op)
    ensures Sweeping(sweeps, t) && |sweeps| == LooksLeft(Exec(START, acts).threads[t])
    ensures IsReady(acts, sweeps, t, op)
    decreases LooksLeft(Exec(START, acts).threads[t])
  {
    hide Exec, Trace, Apply, Shows, EagerRun;
    var s := Exec(START, acts);
    var th := s.threads[t];
    if th.pc.Access? {
      sweeps := [];
      assert acts + [] == acts;
    } else {
      var a := SweepOne(t, th.pc.next < |th.slots| && FlagLive(s, th.slots[th.pc.next].live));
      TraceThen(acts, a);
      SweepGoesOn(s, t, a.sees);
      assert Trace(START, acts) + [] == Trace(START, acts);
      var more := Sweeps(acts + [a], t, op);
      sweeps := [a] + more;
      assert acts + [a] + more == acts + sweeps;
    }
  }

  /** After the sweeps the thread is about to make its access, and callers have seen nothing. */
  ghost predicate IsReady(acts: seq<Action>, sweeps: seq<Action>, t: nat, op: Op)
  {
    var s, r := Exec(START, acts), Exec(START, acts + sweeps);
    && Enabled(r, Finish(t)) && r.threads[t].pc == Access(op)
    && Trace(START, acts + sweeps) == Trace(START, acts)
    && r.leases == s.leases && r.hands == s.hands && r.made == s.made && r.answers == s.answers
    && SameWorld(s, r)
  }

  /** The same pools, as many threads, and no pool has been dropped. */
  predicate SameWorld(s: State, r: State)
  {
    r.pools == s.pools && r.epoch == s.epoch && |r.threads| == |s.threads|
  }

  predicate FlagLive(s: State, flag: nat)
  {
    flag < |s.pools| && s.pools[flag].live
  }

  lemma SweepGoesOn(s: State, t: nat, sees: bool)
    requires t < |s.threads| && s.threads[t].pc.Sweep?
    requires var th := s.threads[t]; sees == (th.pc.next < |th.slots| && FlagLive(s, th.slots[th.pc.next].live))
    ensures Enabled(s, SweepOne(t, sees)) && Shows(s, SweepOne(t, sees)) == []
    ensures var th, r := s.threads[t], Apply(s, SweepOne(t, sees));
            && r.threads[t].pc == (if th.pc.next < |th.slots| then Sweep(th.pc.next + 1, th.pc.op) else Access(th.pc.op))
            && SameWorld(s, r) && |r.threads[t].slots| == |th.slots|
            && r.leases == s.leases && r.hands == s.hands && r.made == s.made && r.answers == s.answers
  {
  }

  // ---- whole calls on one thread ----

  /** A call from its first action to its access. */
  function Call(a: Action, own: seq<Action>, t: nat): seq<Action>
  {
    [a] + own + [Finish(t)]
  }

  lemma CallIs(acts: seq<Action>, a: Action, own: seq<Action>, t: nat)
    ensures acts + [a] + own + [Finish(t)] == acts + Call(a, own, t)
  {
  }

  /** A `get` on its own: after its sweep and its access the lease is out with what the thread
      had parked, or the initializer is about to run. */
  lemma GetServes(acts: seq<Action>, t: nat, p: nat, e: nat) returns (own: seq<Action>)
    requires Enabled(Exec(START, acts), Get(t, p, e))
    ensures Sweeping(own, t)
    ensures var s := Exec(START, acts);
            var all := acts + Call(Get(t, p, e), own, t);
            var r := Exec(START, all);
            && r.leases == s.leases + [match Parkage(acts, t, p) case Some(b) => Out(p, t, b) case None => Fresh(p, t)]
            && t < |r.threads| && r.threads[t].pc.Rest? && Parkage(all, t, p) == None
            && r.hands == s.hands && r.made == s.made
  {
    hide Apply, Exec, Parkage;
    var s, a := Exec(START, acts), Get(t, p, e);
    GetBegins(s, t, p, e);
    Quietly(acts, a, t, p);
    own := Sweeps(acts + [a], t, TakeBuf(p, |s.leases|));
    SameParkage(acts + [a] + own, acts + [a], t, p);
    GetEnds(acts + [a] + own, t, p, |s.leases|);
    CallIs(acts, a, own, t);
  }

  /** A return on its own: guard drop, `put` of an owned buffer, or `put` of a new one. */
  lemma ReturnServes(acts: seq<Action>, a: Action) returns (own: seq<Action>)
    requires Enabled(Exec(START, acts), a) && HandsOver(Exec(START, acts), a).Some?
    ensures Sweeping(own, a.thread)
    ensures var s := Exec(START, acts);
            var (p, b) := HandsOver(s, a).value;
            var all := acts + Call(a, own, a.thread);
            Parks(all, a.thread, p, b) && b !in Exec(START, all).hands
            && Exec(START, all).made == s.made + (if a.PutForeign? then 1 else 0)
            && (a.Drop? ==> Exec(START, all).leases == s.leases[a.lease := Over])
            && SameWorld(s, Exec(START, all))
  {
    var s := Exec(START, acts);
    var (p, b) := HandsOver(s, a).value;
    hide Apply, Exec, Parkage;
    ReturnBegins(s, a);
    TraceThen(acts, a);
    own := Sweeps(acts + [a], a.thread, ParkBuf(p, b));
    OnItsWay(acts + [a] + own, a.thread, p, b);
    ReturnEnds(acts + [a] + own, a.thread, p, b);
    CallIs(acts, a, own, a.thread);
  }

  /** `idle_len` on its own. */
  lemma AskServes(acts: seq<Action>, t: nat, p: nat, e: nat) returns (own: seq<Action>)
    requires Enabled(Exec(START, acts), Ask(t, p, e))
    ensures Sweeping(own, t)
    ensures var s := Exec(START, acts);
            var all := acts + Call(Ask(t, p, e), own, t);
            var r := Exec(START, all);
            && r.answers == s.answers + [if Parkage(acts, t, p).Some? then 1 else 0]
            && t < |r.threads| && r.threads[t].pc.Rest? && Parkage(all, t, p) == Parkage(acts, t, p)
  {
    hide Apply, Exec, Parkage;
    var s, a := Exec(START, acts), Ask(t, p, e);
    AskBegins(s, t, p, e);
    Quietly(acts, a, t, p);
    own := Sweeps(acts + [a], t, Probe(p));
    SameParkage(acts + [a] + own, acts + [a], t, p);
    AskEnds(acts + [a] + own, t, p);
    CallIs(acts, a, own, t);
  }

  /** The beginning of a call shows nothing and answers nothing. */
  lemma Quietly(acts: seq<Action>, a: Action, t: nat, p: nat)
    requires a.Get? || a.Ask?
    ensures Exec(START, acts + [a]) == Apply(Exec(START, acts), a)
    ensures Exec(START, acts + [a]).answers == Exec(START, acts).answers
    ensures Parkage(acts + [a], t, p) == Parkage(acts, t, p)
  {
    TraceThen(acts, a);
    assert Shows(Exec(START, acts), a) == [];
    assert Trace(START, acts) + [] == Trace(START, acts);
  }

  lemma SameParkage(acts: seq<Action>, before: seq<Action>, t: nat, p: nat)
    requires Trace(START, acts) == Trace(START, before)
    ensures Parkage(acts, t, p) == Parkage(before, t, p)
  {
  }

  // ---- how leases and owned buffers go on ----

  /** The initializer has run: the lease is out with a buffer of the pool's type that was
      nowhere before. */
  lemma InitEnds(acts: seq<Action>, l: nat)
    requires Enabled(Exec(START, acts), InitDone(l))
    ensures var s, r := Exec(START, acts), Exec(START, acts + [InitDone(l)]);
            var f := s.leases[l];
            var b := Erased(s.pools[f.pool].ty, s.made);
            && r.leases == s.leases[l := Out(f.pool, f.thread, b)] && r.made == s.made + 1
            && r.threads == s.threads && r.hands == s.hands && r.gone == s.gone
            && b !in s.hands && b !in s.gone
  {
    var s := Exec(START, acts);
    TraceThen(acts, InitDone(l));
    var w := LocalConservation.IsId(s.made);
    LocalConservation.LocalConservation(acts, s.made);
    Weights(s, w);
    var b := Erased(s.pools[s.leases[l].pool].ty, s.made);
    if b in s.hands { WeighsIn(w, s.hands, b); }
    if b in s.gone { WeighsIn(w, s.gone, b); }
  }

  /** A buffer that leaves its lease or its owner for good: detached into the user's hands,
      lost to a hook that unwinds, or destroyed by its owner. No registry notices. */
  lemma LeavesForGood(s: State, a: Action)
    requires Enabled(s, a)
    requires a.Detach? || a.ResetPanic? || a.InitPanic? || a.PutPanic? || a.PutForeignPanic? || a.Discard?
    ensures var r := Apply(s, a);
            && r.threads == s.threads && r.pools == s.pools && r.epoch == s.epoch
            && (a.Detach? ==> r.leases == s.leases[a.lease := Over] && r.hands == s.hands + [s.leases[a.lease].buf]
                              && r.gone == s.gone)
            && (a.ResetPanic? ==> r.leases == s.leases[a.lease := Over] && r.gone == s.gone + [s.leases[a.lease].buf]
                                  && r.hands == s.hands)
            && (a.InitPanic? ==> r.leases == s.leases[a.lease := Over] && r.gone == s.gone && r.hands == s.hands)
            && (a.PutPanic? || a.Discard? ==> r.gone == s.gone + [s.hands[a.at]] && |r.hands| == |s.hands| - 1)
            && (a.PutForeignPanic? ==> |r.gone| == |s.gone| + 1 && r.hands == s.hands && r.made == s.made + 1)
  {
  }

  /** A pool whose buffer is parked somewhere is alive. */
  lemma ParkedIsAlive(acts: seq<Action>, t: nat, p: nat)
    requires Parkage(acts, t, p).Some?
    ensures Alive(Exec(START, acts), p)
  {
    LazyIsEager(acts);
    assert (t, p) in EagerRun(Trace(START, acts));
  }

  lemma MayGet(acts: seq<Action>, t: nat, p: nat, b: Erased)
    requires Parks(acts, t, p, b)
    ensures Enabled(Exec(START, acts), Get(t, p, Exec(START, acts).threads[t].seen))
  {
    ParkedIsAlive(acts, t, p);
    ExecInv(START, acts);
    assert ThreadOk(Exec(START, acts).threads[t], Exec(START, acts).pools, Exec(START, acts).epoch);
  }

  /** A thread at rest with a buffer parked leases that buffer. */
  lemma GetParked(acts: seq<Action>, t: nat, p: nat, b: Erased) returns (run: seq<Action>)
    requires Parks(acts, t, p, b)
    ensures var s, r := Exec(START, acts), Exec(START, acts + run);
            r.leases == s.leases + [Out(p, t, b)] && r.made == s.made
  {
    MayGet(acts, t, p, b);
    hide Exec, Apply, Enabled, Call, Sweeping;
    var a := Get(t, p, Exec(START, acts).threads[t].seen);
    var own := GetServes(acts, t, p, a.epoch);
    run := Call(a, own, t);
  }

  /** A guard dropped on a thread ends with its buffer parked there. */
  lemma DropParks(acts: seq<Action>, l: nat, t: nat, e: nat) returns (run: seq<Action>)
    requires Enabled(Exec(START, acts), Drop(l, t, e))
    ensures var s, r := Exec(START, acts), Exec(START, acts + run);
            && l < |s.leases| && s.leases[l].Out? && Parks(acts + run, t, s.leases[l].pool, s.leases[l].buf)
            && r.leases == s.leases[l := Over] && r.made == s.made && SameWorld(s, r)
  {
    hide Exec, Apply, Call, Sweeping, Parks;
    var own := ReturnServes(acts, Drop(l, t, e));
    run := Call(Drop(l, t, e), own, t);
  }

  /** From any moment of any run: a guard dropped on a thread, and the next `get` of that thread
      hands out the very same buffer. */
  lemma DropThenGet(acts: seq<Action>, l: nat, t: nat, e: nat) returns (run: seq<Action>)
    requires Enabled(Exec(START, acts), Drop(l, t, e))
    ensures var s, r := Exec(START, acts), Exec(START, acts + run);
            && l < |s.leases| && s.leases[l].Out?
            && r.leases == s.leases[l := Over] + [Out(s.leases[l].pool, t, s.leases[l].buf)] && r.made == s.made
  {
    hide Exec, Enabled, Parks;
    var first := DropParks(acts, l, t, e);
    var lease := Exec(START, acts).leases[l];
    var second := GetParked(acts + first, t, lease.pool, lease.buf);
    run := first + second;
    assert acts + run == acts + first + second;
  }

  /** The first thread's first lease from the first pool, of whatever element type. */
  function FirstLease(ty: nat): seq<Action>
  {
    [Spawn, Create(ty)] + [Get(0, 0, 0), Finish(0)] + [InitDone(0)]
  }

  lemma TwoActions(acts: seq<Action>, a: Action, b: Action)
    ensures Exec(START, acts + [a, b]) == Apply(Apply(Exec(START, acts), a), b)
  {
    hide Exec, Apply, Trace, Shows;
    TraceThen(acts, a);
    TraceThen(acts + [a], b);
    assert acts + [a] + [b] == acts + [a, b];
  }

  /** One thread at rest, one pool alive, nothing leased yet. */
  ghost predicate Founded(s: State, ty: nat)
  {
    && s.threads == [Thread(0, [], Rest)] && s.pools == [Pool(ty, true, None)] && s.leases == []
    && s.hands == [] && s.gone == [] && s.made == 0 && s.epoch == 0
  }

  lemma Founds(ty: nat)
    ensures Founded(Exec(START, [Spawn, Create(ty)]), ty)
  {
    TwoActions([], Spawn, Create(ty));
    assert [] + [Spawn, Create(ty)] == [Spawn, Create(ty)];
    assert Exec(START, []) == START;
  }

  lemma FindsNothing(s: State, ty: nat)
    requires Founded(s, ty)
    ensures var r := Apply(Apply(s, Get(0, 0, 0)), Finish(0));
            && |r.threads| == 1 && r.threads[0].pc.Rest? && r.threads[0].seen == 0 && r.pools == s.pools
            && r.leases == [Fresh(0, 0)] && r.hands == [] && r.gone == [] && r.made == 0
  {
    var t := Apply(s, Get(0, 0, 0));
    assert t.threads == [Thread(0, [], Access(TakeBuf(0, 0)))] && t.leases == [Asking(0, 0)];
    assert FinishOp(t.threads[0], TakeBuf(0, 0)).pc == Rest;
  }

  /** It runs the initializer: one buffer made, of the pool's type, out with that lease. */
  lemma FirstLeaseInitializes(ty: nat)
    ensures var r := Exec(START, FirstLease(ty));
            && r.leases == [Out(0, 0, Erased(ty, 0))] && r.made == 1 && r.gone == [] && r.hands == []
            && |r.threads| == 1 && r.threads[0].pc.Rest? && r.threads[0].seen == 0 && r.pools == [Pool(ty, true, None)]
  {
    hide Exec;
    var two := [Spawn, Create(ty)];
    Founds(ty);
    FindsNothing(Exec(START, two), ty);
    hide Founded;
    TwoActions(two, Get(0, 0, 0), Finish(0));
    TraceThen(two + [Get(0, 0, 0), Finish(0)], InitDone(0));
    InitEnds(two + [Get(0, 0, 0), Finish(0)], 0);
  }

  /** Leased, dropped and leased again: one buffer serves both leases. */
  lemma SecondLeaseRecycles(ty: nat) returns (run: seq<Action>)
    ensures var r := Exec(START, FirstLease(ty) + run);
            r.leases == [Over, Out(0, 0, Erased(ty, 0))] && r.made == 1
  {
    FirstLeaseInitializes(ty);
    hide Exec, FirstLease;
    run := DropThenGet(FirstLease(ty), 0, 0, 0);
  }
}
