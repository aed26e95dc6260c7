/**
  "Allocations are an upper bound on the number of concurrently outstanding leases"
  (src/buffer.rs:36-41): for which pools that is so from some moment on.
 */
module PoolLeaseBound {
  import opened Wrappers
  import opened Sums
  import opened PoolSteps
  import opened PoolLeases
  import opened PoolSolo
  import PoolCounter

  /** No continuation without buffers put from outside has more leases out than allocations. */
  ghost predicate BoundHolds(s: State)
    requires |s.piles| > 1
  {
    forall acts | NoForeign(acts) :: Sum(Outstanding, Exec(s, acts).calls) <= Exec(s, acts).allocations
  }

  /** Buffers in existence. */
  function Live(s: State): int
  {
    s.made - |s.gone|
  }

  lemma BoundKept(s: State, acts: seq<Action>)
    requires Reachable(s) && AllAtRest(s) && Live(s) <= s.allocations && NoForeign(acts)
    ensures |s.piles| > 1 && Sum(Outstanding, Exec(s, acts).calls) <= Exec(s, acts).allocations
  {
    ReachableInRange(s);
    var t := Exec(s, acts);
    ReachableOn(s, acts);
    ReachableBooks(s);
    ReachableBooks(t);
    ExecGrows(s, acts);
    forall c | c in s.calls ensures Initializing(c) == 0 {
      var i :| 0 <= i < |s.calls| && s.calls[i] == c;
      assert AtRest(s.calls[i]);
    }
    SumZero(Initializing, s.calls);
    OutstandingBound(t.calls);
    SumCovers(Length<nat>, t.piles);
  }

  // ---- leasing everything there is ----

  /** The first `k` guards are detached and the first `k` results picked up. */
  function Release(k: nat): seq<Op>
  {
    if k == 0 then [] else Release(k - 1) + [DoDetach(k - 1)] + [DoCollect(k - 1)]
  }

  /** `k` times: a buffer of the user is put and leased. */
  function Relay(k: nat): seq<Op>
  {
    if k == 0 then [] else Relay(k - 1) + [DoPut(0, 0)] + [DoLease(0)]
  }

  /** Every guard ended, every result picked up, the cap lifted, the pool drained. */
  function Gather(calls: nat): seq<Op>
  {
    Release(calls) + [DoCap(None)] + [DoDrain] + [DoCollect(calls)]
  }

  /** Nothing was made, destroyed or allocated in between. */
  predicate SameStock(d: Desk, e: Desk)
  {
    && e.made == d.made && e.gone == d.gone && e.pool.allocations == d.pool.allocations
    && |e.pool.stacks| == |d.pool.stacks|
  }

  predicate NoneHeld(calls: seq<Call>, k: nat)
  {
    forall i | 0 <= i < |calls| && i < k :: calls[i].Done?
  }

  predicate EachAtRest(calls: seq<Call>)
  {
    forall i | 0 <= i < |calls| :: AtRest(calls[i])
  }

  lemma ReleaseOne(d: Desk, k: nat)
    requires |d.pool.stacks| > 0 && k < |d.calls| && EachAtRest(d.calls) && NoneHeld(d.calls, k)
    ensures var e := Expected(Expected(d, DoDetach(k)), DoCollect(k));
            SameStock(d, e) && |e.calls| == |d.calls| && EachAtRest(e.calls) && NoneHeld(e.calls, k + 1)
  {
  }

  /** After the first `k` calls have been seen to. */
  predicate IsReleased(d: Desk, k: nat)
    requires |d.pool.stacks| > 0
  {
    var e := ModelSession(d, Release(k));
    SameStock(d, e) && |e.calls| == |d.calls| && EachAtRest(e.calls) && NoneHeld(e.calls, k)
  }

  lemma {:induction false} Released(d: Desk, k: nat)
    requires |d.pool.stacks| > 0 && k <= |d.calls| && EachAtRest(d.calls)
    ensures IsReleased(d, k)
  {
    if k == 0 {
    } else {
      hide IsReleased;
      Released(d, k - 1);
      ReleaseNext(d, k - 1);
    }
  }

  lemma ReleaseNext(d: Desk, k: nat)
    requires |d.pool.stacks| > 0 && k < |d.calls| && IsReleased(d, k)
    ensures IsReleased(d, k + 1)
  {
    hide Expected, ModelSession, EachAtRest, NoneHeld;
    ModelTwo(d, Release(k), DoDetach(k), DoCollect(k));
    ReleaseOne(ModelSession(d, Release(k)), k);
  }

  /** The pool is empty, uncapped, and no drained vector waits. */
  predicate Cleared(d: Desk)
  {
    && d.pool.max == None && d.pool.reserve == []
    && (forall sh | 0 <= sh < |d.pool.stacks| :: d.pool.stacks[sh] == [])
    && (forall i | 0 <= i < |d.calls| :: d.calls[i].Done? || d.calls[i].Held?)
  }

  lemma Clears(d: Desk)
    requires |d.pool.stacks| > 0 && NoneHeld(d.calls, |d.calls|)
    ensures var e := Expected(Expected(Expected(d, DoCap(None)), DoDrain), DoCollect(|d.calls|));
            SameStock(d, e) && Cleared(e)
  {
  }

  lemma Gathered(d: Desk)
    requires |d.pool.stacks| > 0 && EachAtRest(d.calls)
    ensures var e := ModelSession(d, Gather(|d.calls|)); SameStock(d, e) && Cleared(e)
  {
    hide Expected, ModelSession, EachAtRest, NoneHeld, Cleared;
    var n := |d.calls|;
    Released(d, n);
    ModelThen(d, Release(n), DoCap(None));
    ModelThen(d, Release(n) + [DoCap(None)], DoDrain);
    ModelThen(d, Release(n) + [DoCap(None)] + [DoDrain], DoCollect(n));
    Clears(ModelSession(d, Release(n)));
  }

  lemma PutFirst(d: Desk)
    requires |d.pool.stacks| > 0 && Cleared(d) && d.hands != []
    ensures Expected(d, DoPut(0, 0))
            == d.(pool := d.pool.(stacks := d.pool.stacks[0 := [d.hands[0]]]),
                  calls := d.calls + [Done], hands := d.hands[1..])
  {
    assert d.hands[..0] + d.hands[1..] == d.hands[1..];
    assert d.pool.stacks[0] + [d.hands[0]] == [d.hands[0]];
  }

  lemma LeaseBack(d: Desk, b: nat)
    requires |d.pool.stacks| > 0 && d.pool.stacks[0] == [b]
    ensures Expected(d, DoLease(0))
            == d.(pool := d.pool.(leases := d.pool.leases + 1, stacks := d.pool.stacks[0 := []]),
                  calls := d.calls + [Held(0, b)])
  {
  }

  /** Into an empty shard and out again. */
  lemma RelayOne(d: Desk)
    requires |d.pool.stacks| > 0 && Cleared(d) && d.hands != []
    ensures var e := Expected(Expected(d, DoPut(0, 0)), DoLease(0));
            SameStock(d, e) && Cleared(e) && e.hands == d.hands[1..]
  {
    hide Expected;
    PutFirst(d);
    LeaseBack(Expected(d, DoPut(0, 0)), d.hands[0]);
  }

  /** After `k` buffers of the user have been relayed. */
  predicate IsRelayed(d: Desk, k: nat)
    requires |d.pool.stacks| > 0 && k <= |d.hands|
  {
    var e := ModelSession(d, Relay(k));
    SameStock(d, e) && Cleared(e) && e.hands == d.hands[k..]
  }

  lemma {:induction false} Relayed(d: Desk, k: nat)
    requires |d.pool.stacks| > 0 && Cleared(d) && k <= |d.hands|
    ensures IsRelayed(d, k)
  {
    if k == 0 {
    } else {
      hide IsRelayed;
      Relayed(d, k - 1);
      RelayNext(d, k - 1);
    }
  }

  lemma RelayNext(d: Desk, k: nat)
    requires |d.pool.stacks| > 0 && k < |d.hands| && IsRelayed(d, k)
    ensures IsRelayed(d, k + 1)
  {
    hide Expected, ModelSession, Cleared;
    ModelTwo(d, Relay(k), DoPut(0, 0), DoLease(0));
    RelayOne(ModelSession(d, Relay(k)));
  }

  predicate Inside(ops: seq<Op>)
  {
    forall op | op in ops :: !op.DoForeign?
  }

  lemma {:induction false} InsideOps(k: nat)
    ensures Inside(Release(k)) && Inside(Relay(k))
  {
    if k == 0 {
    } else {
      InsideOps(k - 1);
    }
  }

  lemma {:induction false} InsideIsNoForeign(s: State, ops: seq<Op>)
    requires |s.piles| > 1 && Inside(ops)
    ensures NoForeign(SessionActions(s, ops))
  {
    if ops == [] {
    } else {
      InsideIsNoForeign(s, ops[..|ops| - 1]);
      OpIsInside(Session(s, ops[..|ops| - 1]), ops[|ops| - 1]);
    }
  }

  lemma OpIsInside(s: State, op: Op)
    requires !op.DoForeign?
    ensures NoForeign(OpActions(s, op))
  {
  }

  /** With the pool cleared and nothing in the users' hands, what lives is out on lease. */
  lemma AllLeased(s: State)
    requires Reachable(s) && |s.piles| > 1 && AllAtRest(s) && Cleared(View(s)) && s.hands == []
    ensures Sum(Outstanding, s.calls) == Live(s)
  {
    ReachableBooks(s);
    OwnedAtRest(s.calls);
    forall c | c in s.calls ensures Uncollected(c) == 0 {
      var i :| 0 <= i < |s.calls| && s.calls[i] == c;
      assert View(s).calls[i] == c;
    }
    SumZero(Uncollected, s.calls);
    NothingIdle(s);
  }

  lemma NothingIdle(s: State)
    requires |s.piles| > 1 && Cleared(View(s))
    ensures Idle(s.piles) == 0
  {
    forall p | p in s.piles ensures p == [] {
      var i :| 0 <= i < |s.piles| && s.piles[i] == p;
      if i < Shards(s) { assert Abs(s).stacks[i] == p; }
    }
    SumZero(Length<nat>, s.piles);
  }

  lemma {:induction false} RunsCompose(s: State, xs: seq<Op>, ys: seq<Op>)
    requires |s.piles| > 1
    ensures Session(s, xs + ys) == Session(Session(s, xs), ys)
  {
    if ys == [] {
      assert xs + ys == xs;
    } else {
      hide Solo;
      assert (xs + ys)[..|xs + ys| - 1] == xs + ys[..|ys| - 1];
      RunsCompose(s, xs, ys[..|ys| - 1]);
    }
  }

  /** From any state at rest everything that lives can be leased out at once, without
      another allocation and without a buffer from outside. */
  lemma LeaseEverything(s: State) returns (acts: seq<Action>)
    requires Reachable(s) && |s.piles| > 1 && Resting(s)
    ensures NoForeign(acts)
    ensures var t := Exec(s, acts); Sum(Outstanding, t.calls) == Live(s) && t.allocations == s.allocations
  {
    hide Session, Exec, ModelSession, Expected, Cleared, Live;
    var gather := Gather(|s.calls|);
    var s1 := Session(s, gather);
    SequentialRefinement(s, gather);
    Gathered(View(s));
    var relay := Relay(|s1.hands|);
    SequentialRefinement(s1, relay);
    Relayed(View(s1), |s1.hands|);
    RunsCompose(s, gather, relay);
    InsideOps(|s.calls|);
    InsideOps(|s1.hands|);
    acts := SessionActions(s, gather + relay);
    InsideIsNoForeign(s, gather + relay);
    SessionIsRun(s, gather + relay);
    ReachableOn(s, acts);
    var t := Exec(s, acts);
    AllLeased(t);
    SameLive(s, s1);
    SameLive(s1, t);
  }

  lemma SameLive(s: State, t: State)
    requires |s.piles| > 1 && |t.piles| > 1 && SameStock(View(s), View(t))
    ensures Live(t) == Live(s) && t.allocations == s.allocations
  {
    assert View(t).pool.allocations == t.allocations && View(s).pool.allocations == s.allocations;
  }

  /** From a state at rest on, the documented bound holds in every run that puts no buffer
      from outside if and only if there are no more buffers in existence than allocations. */
  lemma BoundHoldsIff(s: State)
    requires Reachable(s) && AllAtRest(s)
    ensures |s.piles| > 1
    ensures BoundHolds(s) <==> Live(s) <= s.allocations
  {
    ReachableInRange(s);
    if Live(s) <= s.allocations {
      forall acts | NoForeign(acts) ensures Sum(Outstanding, Exec(s, acts).calls) <= Exec(s, acts).allocations {
        BoundKept(s, acts);
      }
    } else {
      ReachableRests(s);
      var acts := LeaseEverything(s);
      assert NoForeign(acts);
    }
  }

  lemma ReachableRests(s: State)
    requires Reachable(s) && AllAtRest(s)
    ensures Resting(s)
  {
    var n: nat, acts: seq<Action> :| n > 0 && s == Exec(New(n), acts);
    PoolCounter.ExecAccounted(New(n), acts);
  }

  /** A new pool with one buffer put from outside is the shortest that breaks it: that buffer
      goes out on lease with no allocation behind it. */
  lemma ForeignPutsLeaseToo(n: nat)
    requires n > 0
    ensures var s := Session(New(n), [DoForeign(0)]);
            Live(s) == 1 && s.allocations == 0 && !BoundHolds(s)
  {
    var s0, ops := New(n), [DoForeign(0)];
    ReachableNew(n);
    ReachableRests(s0);
    SequentialRefinement(s0, ops);
    SessionIsRun(s0, ops);
    ReachableOn(s0, SessionActions(s0, ops));
    var s := Session(s0, ops);
    ForeignModel(View(s0));
    assert View(s).made == s.made && View(s).gone == s.gone && View(s).pool.allocations == s.allocations;
    BoundHoldsIff(s);
  }

  lemma ReachableNew(n: nat)
    requires n > 0
    ensures Reachable(New(n)) && AllAtRest(New(n))
  {
    assert Exec(New(n), []) == New(n);
  }

  lemma ForeignModel(d: Desk)
    requires |d.pool.stacks| > 0 && d.pool.max == None
    ensures var e := ModelSession(d, [DoForeign(0)]);
            e.made == d.made + 1 && e.gone == d.gone && e.pool.allocations == d.pool.allocations
  {
    hide Expected;
    ModelThen(d, [], DoForeign(0));
    assert [] + [DoForeign(0)] == [DoForeign(0)];
    ForeignOne(d);
  }

  lemma ForeignOne(d: Desk)
    requires |d.pool.stacks| > 0 && d.pool.max == None
    ensures var e := Expected(d, DoForeign(0));
            e.made == d.made + 1 && e.gone == d.gone && e.pool.allocations == d.pool.allocations
  {
  }

  /** Once its owner has destroyed that buffer, or one like it that was leased and detached,
      the bound holds again for good. */
  lemma DiscardRestoresBound(n: nat)
    requires n > 0
    ensures var s := Session(New(n), [DoForeign(0), DoLease(0)] + [DoDetach(1), DoDiscard(0)]);
            Live(s) == 0 && s.allocations == 0 && BoundHolds(s)
  {
    hide Session, SessionActions, ModelSession, Expected, Exec, BoundHolds, Resting, Reachable, Cleared;
    var s0, ops := New(n), [DoForeign(0), DoLease(0)] + [DoDetach(1), DoDiscard(0)];
    NewIsCleared(n);
    ReachableNew(n);
    ReachableRests(s0);
    SequentialRefinement(s0, ops);
    SessionIsRun(s0, ops);
    ReachableOn(s0, SessionActions(s0, ops));
    var s := Session(s0, ops);
    DiscardModel(View(s0));
    assert View(s).made == s.made && View(s).gone == s.gone && View(s).pool.allocations == s.allocations;
    assert View(s).calls == s.calls;
    RestingRests(s);
    BoundHoldsIff(s);
  }

  lemma RestingRests(s: State)
    requires Resting(s)
    ensures AllAtRest(s)
  {
  }

  lemma NewIsCleared(n: nat)
    requires n > 0
    ensures Cleared(View(New(n)))
  {
  }

  lemma DiscardModel(d: Desk)
    requires |d.pool.stacks| > 0 && Cleared(d) && d.calls == [] && d.hands == [] && d.gone == [] && d.made == 0
    ensures var e := ModelSession(d, [DoForeign(0), DoLease(0)] + [DoDetach(1), DoDiscard(0)]);
            e.made == 1 && |e.gone| == 1 && e.pool.allocations == d.pool.allocations
  {
    hide Expected;
    var two := [DoForeign(0), DoLease(0)];
    ModelTwo(d, [], DoForeign(0), DoLease(0));
    assert [] + [DoForeign(0)] + [DoLease(0)] == two;
    ModelTwo(d, two, DoDetach(1), DoDiscard(0));
    assert two + [DoDetach(1)] + [DoDiscard(0)] == two + [DoDetach(1), DoDiscard(0)];
    LeaseForeign(d);
    DetachAndDiscard(Expected(Expected(d, DoForeign(0)), DoLease(0)));
  }

  lemma LeaseForeign(d: Desk)
    requires |d.pool.stacks| > 0 && Cleared(d) && d.calls == [] && d.hands == [] && d.gone == [] && d.made == 0
    ensures var e := Expected(Expected(d, DoForeign(0)), DoLease(0));
            && e.calls == [Done, Held(0, 0)] && e.hands == [] && e.gone == [] && e.made == 1
            && e.pool.allocations == d.pool.allocations && |e.pool.stacks| == |d.pool.stacks|
  {
    var p := Expected(d, DoForeign(0));
    assert p.pool.stacks[0] == [] + [0] == [0];
    hide Expected;
    LeaseBack(p, 0);
  }

  lemma DetachAndDiscard(d: Desk)
    requires |d.pool.stacks| > 0 && d.calls == [Done, Held(0, 0)] && d.hands == [] && d.gone == []
    ensures var e := Expected(Expected(d, DoDetach(1)), DoDiscard(0));
            |e.gone| == 1 && e.made == d.made && e.pool.allocations == d.pool.allocations
  {
  }
}
