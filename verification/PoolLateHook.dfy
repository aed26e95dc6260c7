/**
  A reset hook installed late does not clean what is already parked (src/buffer.rs:280-285).
  Exactly when pooling is invisible all the same.
 */
module PoolLateHook {
  import opened PoolSteps
  import opened PoolConservation
  import opened PoolMemory
  import opened PoolFresh

  /** Pile `p` has a buffer that differs from what the initializer yields. */
  ghost predicate Dirty<V>(m: Mem<V>, p: nat, first: V)
  {
    p < |m.ctl.piles| && exists j :: 0 <= j < |m.ctl.piles[p]| && HoldsOther(m, m.ctl.piles[p][j], first)
  }

  predicate HoldsOther<V(==)>(m: Mem<V>, b: nat, first: V)
  {
    b < |m.heap| && m.heap[b] != first
  }

  // ---- runs one after the other ----

  lemma Then<V>(m: Mem<V>, acts: seq<MemAction<V>>, a: MemAction<V>, first: V)
    requires |m.ctl.piles| > 1
    ensures var t := ExecMem(m, acts);
            && ExecMem(m, acts + [a]) == ApplyMem(t, a)
            && LeaseValues(m, acts + [a]) == LeaseValues(m, acts) + LeaseStart(t, a)
            && Unpooled(m, acts + [a], first)
               == Unpooled(m, acts, first) + if a.Run? && Serves(t.ctl, a.act) then [first] else []
  {
    assert (acts + [a])[..|acts|] == acts;
  }

  lemma {:induction false} OneAfterTheOther<V>(m: Mem<V>, xs: seq<MemAction<V>>, ys: seq<MemAction<V>>, first: V)
    requires |m.ctl.piles| > 1
    ensures var t := ExecMem(m, xs);
            && ExecMem(m, xs + ys) == ExecMem(t, ys)
            && LeaseValues(m, xs + ys) == LeaseValues(m, xs) + LeaseValues(t, ys)
            && Unpooled(m, xs + ys, first) == Unpooled(m, xs, first) + Unpooled(t, ys, first)
  {
    hide ApplyMem, LeaseStart, Serves, Unpooled, LeaseValues, ExecMem;
    if ys == [] {
      assert xs + ys == xs;
      Nothing(ExecMem(m, xs), first);
    } else {
      var n := |ys| - 1;
      OneAfterTheOther(m, xs, ys[..n], first);
      Then(m, xs + ys[..n], ys[n], first);
      Then(ExecMem(m, xs), ys[..n], ys[n], first);
      assert ys == ys[..n] + [ys[n]];
      assert xs + ys == xs + ys[..n] + [ys[n]];
    }
  }

  lemma {:induction false} UniformRestores<V>(m: Mem<V>, acts: seq<MemAction<V>>, first: V)
    requires |m.ctl.piles| > 1 && forall a | a in acts :: a.Run? && a.v == first
    ensures RestoringRun(m, acts, first)
  {
    if acts == [] {
    } else {
      UniformRestores(m, acts[..|acts| - 1], first);
      assert acts[|acts| - 1] in acts;
    }
  }

  // ---- leasing down to a dirty buffer ----

  /** The pile a lease on shard `sh` pops. */
  function Source(s: State, sh: nat): nat
    requires sh + 1 < |s.piles|
  {
    if s.piles[sh] != [] then sh else |s.piles| - 1
  }

  /** A whole lease served from a pile, with nobody else moving. */
  function Lease<V>(s: State, sh: nat, first: V): seq<MemAction<V>>
    requires sh + 1 < |s.piles|
  {
    var step := Run(Step(|s.calls|), first);
    [Run(StartGet(sh), first), step]
    + if s.piles[sh] != [] then [step] else [step, step]
  }

  /** A pool action that ends no lease and makes no buffer shows nothing. */
  lemma Unseen<V>(m: Mem<V>, acts: seq<MemAction<V>>, a: MemAction<V>, first: V)
    requires |m.ctl.piles| > 1 && a.Run?
    requires var s := ExecMem(m, acts).ctl;
             !Serves(s, a.act) && !Resets(s, a.act) && Apply(s, a.act).made == s.made
    ensures var t := ExecMem(m, acts);
            && ExecMem(m, acts + [a]) == Mem(Apply(t.ctl, a.act), t.heap)
            && LeaseValues(m, acts + [a]) == LeaseValues(m, acts)
            && Unpooled(m, acts + [a], first) == Unpooled(m, acts, first)
  {
    hide Apply, Serves, Resets;
    Then(m, acts, a, first);
  }

  lemma Asks(s: State, sh: nat)
    requires sh + 1 < |s.piles|
    ensures var t := Apply(s, StartGet(sh));
            t == s.(calls := s.calls + [PopShard(sh)], leases := s.leases + 1)
    ensures !Serves(s, StartGet(sh)) && !Resets(s, StartGet(sh))
  {
  }

  /** One look at a pile: pops, or moves on to the reserve. */
  lemma Looks(s: State, sh: nat, i: nat)
    requires sh + 1 < |s.piles| && i < |s.calls|
    requires s.calls[i] == PopShard(sh) || (s.calls[i] == PopReserve(sh) && s.piles[|s.piles| - 1] != [])
    ensures var p := if s.calls[i].PopShard? then sh else |s.piles| - 1;
            var t, pile := Apply(s, Step(i)), s.piles[p];
            && t.made == s.made
            && t.calls == s.calls[i := if pile == [] then PopReserve(sh) else Unpark(sh, pile[|pile| - 1])]
            && t.piles == if pile == [] then s.piles else s.piles[p := pile[..|pile| - 1]]
    ensures !Serves(s, Step(i)) && !Resets(s, Step(i))
  {
    if s.calls[i].PopShard? && s.piles[sh] == [] { assert s.piles[sh := []] == s.piles; }
  }

  /** Up to the pop a lease shows nothing. */
  lemma PopsFirst<V>(m: Mem<V>, sh: nat, first: V)
    requires sh + 1 < |m.ctl.piles| && m.ctl.piles[Source(m.ctl, sh)] != []
    ensures var s, acts := m.ctl, Lease(m.ctl, sh, first);
            var p := Source(s, sh);
            var n := |s.piles[p]| - 1;
            var xs := acts[..|acts| - 1];
            var t := ExecMem(m, xs);
            && LeaseValues(m, xs) == Unpooled(m, xs, first) == []
            && t.heap == m.heap && t.ctl.piles == s.piles[p := s.piles[p][..n]]
            && t.ctl.calls == s.calls + [Unpark(sh, s.piles[p][n])] && t.ctl.made == s.made
  {
    hide Apply, Serves, Resets, ExecMem, LeaseValues, Unpooled;
    var s, i := m.ctl, |m.ctl.calls|;
    var start, step := Run(StartGet(sh), first), Run(Step(i), first);
    Nothing(m, first);
    Asks(s, sh);
    Unseen(m, [], start, first);
    assert [] + [start] == [start];
    var s1 := ExecMem(m, [start]).ctl;
    Looks(s1, sh, i);
    Unseen(m, [start], step, first);
    assert [start] + [step] == [start, step];
    if s.piles[sh] != [] {
      assert Lease(s, sh, first)[..2] == [start, step];
    } else {
      Looks(Apply(s1, Step(i)), sh, i);
      Unseen(m, [start, step], step, first);
      assert Lease(s, sh, first)[..3] == [start, step] + [step];
    }
  }

  lemma Nothing<V>(m: Mem<V>, first: V)
    requires |m.ctl.piles| > 1
    ensures ExecMem(m, []) == m && LeaseValues(m, []) == Unpooled(m, [], first) == []
  {
  }

  lemma HandsOver<V>(m: Mem<V>, sh: nat, i: nat, b: nat, first: V)
    requires |m.ctl.piles| > 1 && sh + 1 < |m.ctl.piles|
    requires i < |m.ctl.calls| && m.ctl.calls[i] == Unpark(sh, b) && b < |m.heap|
    ensures var a := Run(Step(i), first);
            && LeaseStart(m, a) == [m.heap[b]] && Serves(m.ctl, a.act)
            && ApplyMem(m, a).heap == m.heap && ApplyMem(m, a).ctl.piles == m.ctl.piles
  {
    var t := Apply(m.ctl, Step(i));
    assert t.calls[i] == Held(sh, b) && t.made == m.ctl.made;
  }

  /** A whole lease shows what the popped buffer holds. */
  lemma LeaseShows<V>(m: Mem<V>, sh: nat, first: V)
    requires Sound(m) && sh + 1 < |m.ctl.piles| && m.ctl.piles[Source(m.ctl, sh)] != []
    ensures var s, acts := m.ctl, Lease(m.ctl, sh, first);
            var p := Source(s, sh);
            var n := |s.piles[p]| - 1;
            var t := ExecMem(m, acts);
            && t.heap == m.heap && t.ctl.piles == s.piles[p := s.piles[p][..n]]
            && s.piles[p][n] < |m.heap|
            && LeaseValues(m, acts) == [m.heap[s.piles[p][n]]] && Unpooled(m, acts, first) == [first]
  {
    hide Conserved, Apply, ApplyMem, Serves, LeaseStart, ExecMem, LeaseValues, Unpooled;
    var acts := Lease(m.ctl, sh, first);
    var xs, p := acts[..|acts| - 1], Source(m.ctl, sh);
    var b := m.ctl.piles[p][|m.ctl.piles[p]| - 1];
    PopsFirst(m, sh, first);
    var last := Run(Step(|m.ctl.calls|), first);
    assert acts == xs + [last];
    assert IsAt(m.ctl, b, Pile(p));
    Exclusivity(m.ctl, b, Pile(p), Pile(p));
    HandsOver(ExecMem(m, xs), sh, |m.ctl.calls|, b, first);
    Then(m, xs, last, first);
  }

  /** Leasing on and on from one shard gets to the dirty buffer, in its shard or in the
      reserve. */
  lemma {:induction false} ReachDirty<V>(m: Mem<V>, sh: nat, p: nat, first: V) returns (acts: seq<MemAction<V>>)
    requires Sound(m) && sh + 1 < |m.ctl.piles| && (p == sh || p == |m.ctl.piles| - 1) && Dirty(m, p, first)
    ensures forall a | a in acts :: a.Run? && a.v == first
    ensures LeaseValues(m, acts) != Unpooled(m, acts, first)
    decreases |m.ctl.piles[sh]| + |m.ctl.piles[p]|
  {
    hide Conserved, Apply, ApplyMem, ExecMem, LeaseValues, Unpooled;
    var q := Source(m.ctl, sh);
    var n := |m.ctl.piles[q]| - 1;
    acts := Lease(m.ctl, sh, first);
    LeaseShows(m, sh, first);
    if HoldsOther(m, m.ctl.piles[q][n], first) {
    } else {
      var t := ExecMem(m, acts);
      ExecSound(m, acts);
      var j :| 0 <= j < |m.ctl.piles[p]| && HoldsOther(m, m.ctl.piles[p][j], first);
      assert HoldsOther(t, t.ctl.piles[p][j], first);
      var rest := ReachDirty(t, sh, p, first);
      OneAfterTheOther(m, acts, rest, first);
      acts := acts + rest;
      assert LeaseValues(m, acts)[1..] == LeaseValues(t, rest) && Unpooled(m, acts, first)[1..] == Unpooled(t, rest, first);
    }
  }

  // ---- the exact condition ----

  /** Every lease of every restoring run starts as if it had run the initializer. */
  ghost predicate Invisible<V(!new)>(m: Mem<V>, first: V)
    requires |m.ctl.piles| > 1
  {
    forall acts | RestoringRun(m, acts, first) :: LeaseValues(m, acts) == Unpooled(m, acts, first)
  }

  /** Pooling under a restoring hook is invisible from a state at rest on if and only if no
      buffer parked there differs from what the initializer yields. */
  lemma InvisibleIff<V(!new)>(m: Mem<V>, first: V)
    requires Sound(m) && AllAtRest(m.ctl) && m.ctl.hook
    ensures Invisible(m, first) <==> forall p: nat :: !Dirty(m, p, first)
  {
    if p: nat :| Dirty(m, p, first) {
      var acts := ReachDirty(m, if p + 1 < |m.ctl.piles| then p else 0, p, first);
      UniformRestores(m, acts, first);
    } else {
      forall b: nat | Settled(m.ctl, b) ensures b < |m.heap| && m.heap[b] == first {
        SettledUnwritable(m.ctl, b);
        var p: nat :| p < |m.ctl.piles| && b in m.ctl.piles[p];
        assert !Dirty(m, p, first);
      }
      forall acts | RestoringRun(m, acts, first) ensures LeaseValues(m, acts) == Unpooled(m, acts, first) {
        PoolingIsInvisible(m, acts, first);
      }
    }
  }

  // ---- a late hook at work ----

  /** A buffer is put while there is no hook, and then the hook is installed. */
  function LateRun<V>(v: V, first: V): seq<MemAction<V>>
  {
    [Run(StartForeign(0), v), Run(Step(0), first)] + [Run(Step(0), first), Run(SetReset, first)]
  }

  /** For every shard count and any two values: the hook comes too late for the buffer, and
      some lease shows it. */
  lemma LateHookShows<V(!new)>(n: nat, v: V, first: V)
    requires n > 0 && v != first
    ensures var m := ExecMem(Mem<V>.Mem(New(n), []), LateRun(v, first));
            && Sound(m) && AllAtRest(m.ctl) && m.ctl.hook
            && Dirty(m, 0, first) && |m.ctl.piles| > 1 && !Invisible(m, first)
  {
    var m0 := Mem<V>.Mem(New(n), []);
    NewSound<V>(n);
    ExecSound(m0, LateRun(v, first));
    LateRunEnds(n, v, first);
    var m := ExecMem(m0, LateRun(v, first));
    assert HoldsOther(m, m.ctl.piles[0][0], first);
    assert Dirty(m, 0, first);
    assert m.ctl.calls == [Done] && AllAtRest(m.ctl);
    InvisibleIff(m, first);
  }

  lemma TwoMore<V>(m: Mem<V>, a: MemAction<V>, b: MemAction<V>, first: V)
    requires |m.ctl.piles| > 1
    ensures ExecMem(m, [a, b]) == ApplyMem(ApplyMem(m, a), b)
  {
    hide LeaseValues, Unpooled, LeaseStart, Serves, ExecMem, ApplyMem, Apply;
    Nothing(m, first);
    Then(m, [], a, first);
    Then(m, [a], b, first);
    assert [] + [a] == [a] && [a] + [b] == [a, b];
  }

  lemma LateRunEnds<V>(n: nat, v: V, first: V)
    requires n > 0
    ensures var m := ExecMem(Mem<V>.Mem(New(n), []), LateRun(v, first));
            m.ctl.calls == [Done] && m.ctl.hook && |m.ctl.piles| == n + 1 && m.ctl.piles[0] == [0] && m.heap == [v]
  {
    hide Apply, ExecMem;
    var m := Mem<V>.Mem(New(n), []);
    var put, step, hook := Run(StartForeign(0), v), Run(Step(0), first), Run(SetReset, first);
    PutsOne(n, v, first);
    var t := ApplyMem(ApplyMem(m, put), step);
    HookAfterPush(t, n, first);
    TwoMore(m, put, step, first);
    TwoMore(t, step, hook, first);
    OneAfterTheOther(m, [put, step], [step, hook], first);
  }

  lemma PutsOne<V>(n: nat, v: V, first: V)
    requires n > 0
    ensures var t := ApplyMem(ApplyMem(Mem<V>.Mem(New(n), []), Run(StartForeign(0), v)), Run(Step(0), first));
            && t.ctl.calls == [Push(0, 0)] && |t.ctl.piles| == n + 1 && t.ctl.piles[0] == [] && !t.ctl.hook
            && t.heap == [v]
  {
    var m := ApplyMem(Mem<V>.Mem(New(n), []), Run(StartForeign(0), v));
    assert m.ctl.calls == [Claim(0, 0)] && m.heap == [v] && m.ctl.cap == Uncapped;
  }

  lemma HookAfterPush<V>(m: Mem<V>, n: nat, first: V)
    requires n > 0 && |m.ctl.piles| == n + 1 && m.ctl.calls == [Push(0, 0)] && m.ctl.piles[0] == [] && !m.ctl.hook
    ensures var t := ApplyMem(ApplyMem(m, Run(Step(0), first)), Run(SetReset, first));
            t.ctl.calls == [Done] && t.ctl.hook && |t.ctl.piles| == n + 1 && t.ctl.piles[0] == [0] && t.heap == m.heap
  {
    var t := ApplyMem(m, Run(Step(0), first));
    assert t.ctl.calls == [Done] && t.ctl.made == m.ctl.made;
  }
}
