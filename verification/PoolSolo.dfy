/**
  Run one call at a time, the step system is the stack model of PoolModel: the protocol of
  claims, rollbacks and late counter adjustments leaves no trace once a call is over.
 */
module PoolSolo {
  import opened Wrappers
  import opened Sums
  import opened PoolSteps
  import opened PoolCounter
  import PoolSweep
  import M = PoolModel

  /** Forgets the calls, the counter and the log. */
  function Abs(s: State): M.Model<nat>
    requires |s.piles| > 1
  {
    M.Model(s.piles[..Shards(s)], s.piles[Shards(s)],
            if s.cap.Capped? then Some(s.cap.max) else None, s.leases, s.allocations)
  }

  /** What the users have before them: the stacks, what each call has come to (a guard, a
      drained vector, a count, or nothing), the buffers they own and those destroyed. */
  datatype Desk = Desk(pool: M.Model<nat>, calls: seq<Call>, hands: seq<nat>, gone: seq<nat>, made: nat)

  function View(s: State): Desk
    requires |s.piles| > 1
  {
    Desk(Abs(s), s.calls, s.hands, s.gone, s.made)
  }

  function With(d: Desk, i: nat, c: Call): Desk
    requires i < |d.calls|
  {
    d.(calls := d.calls[i := c])
  }

  ghost predicate Resting(s: State)
  {
    InRange(s) && Accounted(s) && AllAtRest(s)
  }

  /** Only call `i` has steps to take. */
  ghost predicate RestingBut(s: State, i: nat)
  {
    && InRange(s) && Accounted(s) && i < |s.calls|
    && forall j | 0 <= j < |s.calls| && j != i :: AtRest(s.calls[j])
  }

  /** Call `i` takes `k` steps and nobody else moves. */
  function Alone(s: State, i: nat, k: nat): State
    requires |s.piles| > 1
    ensures |Alone(s, i, k).piles| == |s.piles|
    decreases k
  {
    if k == 0 then s else Alone(Apply(s, Step(i)), i, k - 1)
  }

  /** Which is a run. */
  lemma {:induction false} AloneIsRun(s: State, i: nat, k: nat)
    requires |s.piles| > 1
    ensures Alone(s, i, k) == Exec(s, seq(k, _ => Step(i)))
    decreases k
  {
    if k == 0 {
    } else {
      var first, rest := [Step(i)], seq(k - 1, _ => Step(i));
      AloneIsRun(Apply(s, Step(i)), i, k - 1);
      assert seq(k, _ => Step(i)) == first + rest;
      ExecConcat(s, first, rest);
      ExecThen(s, [], Step(i));
      assert [] + first == first;
    }
  }

  lemma {:induction false} StutterAlone(s: State, i: nat, k: nat)
    requires |s.piles| > 1 && i < |s.calls| && AtRest(s.calls[i])
    ensures Alone(s, i, k) == s
  {
    if k == 0 {
    } else {
      StutterAlone(s, i, k - 1);
    }
  }

  lemma StepRestingBut(s: State, i: nat)
    requires RestingBut(s, i)
    ensures RestingBut(Apply(s, Step(i)), i)
  {
    ApplyInRange(s, Step(i));
    ApplyAccounted(s, Step(i));
  }

  lemma Rests(s: State, i: nat)
    requires RestingBut(s, i) && AtRest(s.calls[i])
    ensures Resting(s)
  {
  }

  lemma ParkedIsIdle(s: State)
    requires |s.piles| > 1
    ensures M.Parked(Abs(s)) == Idle(s.piles)
  {
  }

  /** With one call about to claim and the rest at rest, the counter is the idle count. */
  lemma FullIffAtCap(s: State, i: nat)
    requires RestingBut(s, i) && Pending(s.calls[i]) == 0
    ensures Full(s.cap) <==> M.AtCap(Abs(s))
  {
    forall c | c in s.calls ensures Pending(c) == 0 {
      var j :| 0 <= j < |s.calls| && s.calls[j] == c;
      if j != i { assert AtRest(s.calls[j]); }
    }
    SumZero(Pending, s.calls);
    ParkedIsIdle(s);
  }

  lemma Begin(s: State, a: Action)
    requires Resting(s) && Starts(a) && Enabled(s, a)
    ensures RestingBut(Apply(s, a), |s.calls|)
  {
    ApplyInRange(s, a);
    ApplyAccounted(s, a);
  }

  // ---- single steps, as the users see them ----

  lemma PopStep(s: State, i: nat, sh: nat)
    requires InRange(s) && i < |s.calls| && s.calls[i] == PopShard(sh)
    ensures sh < Shards(s)
    ensures var d, stack := View(s), s.piles[sh];
            View(Apply(s, Step(i)))
            == if stack == [] then With(d, i, PopReserve(sh))
               else With(d.(pool := d.pool.(stacks := d.pool.stacks[sh := M.Front(stack)])), i, Unpark(sh, M.Last(stack)))
  {
    assert CallInRange(s.calls[i], |s.piles|);
    var piles := Apply(s, Step(i)).piles;
    assert piles[..Shards(s)] == s.piles[..Shards(s)][sh := piles[sh]];
    if s.piles[sh] == [] { assert s.piles[..Shards(s)][sh := []] == s.piles[..Shards(s)]; }
  }

  lemma ReserveStep(s: State, i: nat, sh: nat)
    requires InRange(s) && i < |s.calls| && s.calls[i] == PopReserve(sh)
    ensures var d, r := View(s), s.piles[Shards(s)];
            View(Apply(s, Step(i)))
            == if r == [] then With(d, i, CountAlloc(sh))
               else With(d.(pool := d.pool.(reserve := M.Front(r))), i, Unpark(sh, M.Last(r)))
  {
    assert CallInRange(s.calls[i], |s.piles|);
    assert Apply(s, Step(i)).piles[..Shards(s)] == s.piles[..Shards(s)];
  }

  /** The steps that touch no pile. */
  lemma OtherSteps(s: State, i: nat)
    requires InRange(s) && i < |s.calls| && PileOf(s.calls[i], |s.piles|) == None && !s.calls[i].Drain?
    ensures var d, t := View(s), View(Apply(s, Step(i)));
            match s.calls[i]
            case Unpark(sh, b) => t == With(d, i, Held(sh, b))
            case CountAlloc(sh) => t == With(d.(pool := d.pool.(allocations := s.allocations + 1)), i, RunInit(sh))
            case RunInit(sh) => t == With(d.(made := s.made + 1), i, Held(sh, s.made))
            case Reset(p, b) => t == With(d, i, Claim(p, b))
            case Claim(p, b) => t == With(d, i, if Full(s.cap) then Rollback(p, b) else Push(p, b))
            case Rollback(_, b) => t == With(d.(gone := s.gone + [b]), i, Done)
            case StockCount => t == With(d.(pool := d.pool.(allocations := s.allocations + 1)), i, StockInit)
            case StockInit => t == With(d.(made := s.made + 1), i, Return(s.hook, Shards(s), s.made))
            case _ => true
  {
    assert CallInRange(s.calls[i], |s.piles|);
  }

  /** Pile `p` of the model, the last being the reserve, with `b` on top. */
  function OnTop(m: M.Model<nat>, p: nat, b: nat): M.Model<nat>
    requires p <= |m.stacks|
  {
    if p < |m.stacks| then m.(stacks := m.stacks[p := m.stacks[p] + [b]]) else m.(reserve := m.reserve + [b])
  }

  lemma PushStep(s: State, i: nat, p: nat, b: nat)
    requires InRange(s) && i < |s.calls| && s.calls[i] == Push(p, b)
    ensures p <= Shards(s)
    ensures var d := View(s); View(Apply(s, Step(i))) == With(d.(pool := OnTop(d.pool, p, b)), i, Done)
  {
    assert CallInRange(s.calls[i], |s.piles|);
    var piles := Apply(s, Step(i)).piles;
    if p < Shards(s) {
      assert piles[..Shards(s)] == s.piles[..Shards(s)][p := piles[p]];
    } else {
      assert piles[..Shards(s)] == s.piles[..Shards(s)];
    }
  }

  // ---- get ----

  /** From the pop to the guard, a popped buffer takes one more step. */
  lemma UnparkAlone(s: State, i: nat, k: nat)
    requires RestingBut(s, i) && s.calls[i].Unpark? && k > 0
    ensures var t, c := Alone(s, i, k), s.calls[i];
            Resting(t) && View(t) == With(View(s), i, Held(c.shard, c.buf))
  {
    hide Apply, Accounted;
    StepRestingBut(s, i);
    OtherSteps(s, i);
    var t := Apply(s, Step(i));
    assert View(t).calls[i].Held?;
    StutterAlone(t, i, k - 1);
    Rests(t, i);
  }

  lemma InitAlone(s: State, i: nat)
    requires RestingBut(s, i) && s.calls[i].CountAlloc?
    ensures var t, c, d := Alone(s, i, 2), s.calls[i], View(s);
            && Resting(t)
            && View(t) == With(d.(pool := d.pool.(allocations := s.allocations + 1), made := s.made + 1),
                               i, Held(c.shard, s.made))
  {
    hide Apply, Accounted;
    StepRestingBut(s, i);
    OtherSteps(s, i);
    var s1 := Apply(s, Step(i));
    assert View(s1).calls[i].RunInit?;
    StepRestingBut(s1, i);
    OtherSteps(s1, i);
    var s2 := Apply(s1, Step(i));
    assert View(s2).calls[i].Held?;
    StutterAlone(s2, i, 0);
    Rests(s2, i);
  }

  lemma ReserveAlone(s: State, i: nat)
    requires RestingBut(s, i) && s.calls[i].PopReserve?
    ensures var t, c, d, r := Alone(s, i, 3), s.calls[i], View(s), s.piles[Shards(s)];
            && Resting(t)
            && View(t) == if r == [] then
                            With(d.(pool := d.pool.(allocations := s.allocations + 1), made := s.made + 1),
                                 i, Held(c.shard, s.made))
                          else With(d.(pool := d.pool.(reserve := M.Front(r))), i, Held(c.shard, M.Last(r)))
  {
    hide Apply, Accounted;
    StepRestingBut(s, i);
    ReserveStep(s, i, s.calls[i].shard);
    var s1 := Apply(s, Step(i));
    assert View(s1).calls == s1.calls;
    if s.piles[Shards(s)] == [] {
      InitAlone(s1, i);
    } else {
      UnparkAlone(s1, i, 2);
    }
  }

  /** The model's lease, on the users' desk. */
  function Leased(d: Desk, sh: nat): Desk
    requires sh < |d.pool.stacks|
  {
    var (m, x) := M.Lease(d.pool, sh, d.made);
    d.(pool := m, calls := d.calls + [Held(sh, x)], made := d.made + m.allocations - d.pool.allocations)
  }

  lemma GetBegins(s: State, tid: nat)
    requires |s.piles| > 1
    ensures var t, d := Apply(s, StartGet(tid)), View(s);
            t.calls == s.calls + [PopShard(ShardOf(s, tid))]
            && View(t) == d.(pool := d.pool.(leases := s.leases + 1), calls := t.calls)
  {
  }

  /** A `get` on its own leases exactly what the model leases, and leaves the pool as the
      model does. */
  lemma GetAlone(s: State, tid: nat)
    requires Resting(s)
    ensures var sh, t := ShardOf(s, tid), Alone(Apply(s, StartGet(tid)), |s.calls|, 4);
            sh < Shards(s) && Resting(t) && View(t) == Leased(View(s), sh)
  {
    hide Apply, Accounted, AllAtRest;
    var i, sh := |s.calls|, ShardOf(s, tid);
    Begin(s, StartGet(tid));
    GetBegins(s, tid);
    var s1 := Apply(s, StartGet(tid));
    StepRestingBut(s1, i);
    PopStep(s1, i, sh);
    var s2 := Apply(s1, Step(i));
    assert View(s2).calls == s2.calls;
    assert s1.piles[sh] == Abs(s1).stacks[sh] && s.piles[sh] == Abs(s).stacks[sh];
    if s.piles[sh] == [] {
      ReserveAlone(s2, i);
    } else {
      UnparkAlone(s2, i, 3);
    }
  }

  // ---- returns ----

  /** A return of `b` to pile `p`: parked on top, or refused at the cap and destroyed. */
  function Handed(d: Desk, p: nat, b: nat): Desk
    requires p <= |d.pool.stacks|
  {
    if M.AtCap(d.pool) then d.(gone := d.gone + [b]) else d.(pool := OnTop(d.pool, p, b))
  }

  /** For a shard that is the model's return. */
  lemma HandedIsReturn(d: Desk, sh: nat, b: nat)
    requires sh < |d.pool.stacks|
    ensures Handed(d, sh, b).pool == M.Return(d.pool, sh, b)
    ensures Handed(d, sh, b).gone == d.gone + if M.AtCap(d.pool) then [b] else []
  {
  }

  lemma ClaimAlone(s: State, i: nat, k: nat)
    requires RestingBut(s, i) && s.calls[i].Claim? && k >= 2
    ensures var t, c := Alone(s, i, k), s.calls[i];
            && c.pile <= Shards(s)
            && Resting(t) && View(t) == With(Handed(View(s), c.pile, c.buf), i, Done)
  {
    var c := s.calls[i];
    assert CallInRange(c, |s.piles|);
    FullIffAtCap(s, i);
    hide Apply, Accounted, M.AtCap, CallInRange;
    StepRestingBut(s, i);
    OtherSteps(s, i);
    var s1 := Apply(s, Step(i));
    assert View(s1).calls == s1.calls;
    StepRestingBut(s1, i);
    if Full(s.cap) { OtherSteps(s1, i); } else { PushStep(s1, i, c.pile, c.buf); }
    var s2 := Apply(s1, Step(i));
    assert View(s2).calls[i] == Done;
    StutterAlone(s2, i, k - 2);
    Rests(s2, i);
  }

  /** A return on its own, hook or no hook, parks or is refused as the model says. */
  lemma ReturnAlone(s: State, i: nat)
    requires RestingBut(s, i) && (s.calls[i].Reset? || s.calls[i].Claim?)
    ensures var t, c := Alone(s, i, 3), s.calls[i];
            && c.pile <= Shards(s)
            && Resting(t) && View(t) == With(Handed(View(s), c.pile, c.buf), i, Done)
  {
    hide Apply, Accounted, M.AtCap;
    if s.calls[i].Claim? {
      ClaimAlone(s, i, 3);
    } else {
      StepRestingBut(s, i);
      OtherSteps(s, i);
      var s1 := Apply(s, Step(i));
      assert View(s1).calls == s1.calls;
      ClaimAlone(s1, i, 2);
    }
  }

  lemma DropBegins(s: State, i: nat, tid: nat)
    requires |s.piles| > 1 && i < |s.calls| && s.calls[i].Held?
    ensures View(Apply(s, Drop(i, tid))) == With(View(s), i, Return(s.hook, ShardOf(s, tid), s.calls[i].buf))
  {
  }

  /** A guard dropped on thread `tid`. */
  lemma DropAlone(s: State, i: nat, tid: nat)
    requires Resting(s) && i < |s.calls| && s.calls[i].Held?
    ensures var sh, t := ShardOf(s, tid), Alone(Apply(s, Drop(i, tid)), i, 3);
            && sh < Shards(s)
            && Resting(t) && View(t) == With(Handed(View(s), sh, s.calls[i].buf), i, Done)
            && Abs(t) == M.Return(Abs(s), sh, s.calls[i].buf)
            && t.gone == s.gone + if M.AtCap(Abs(s)) then [s.calls[i].buf] else []
  {
    ApplyInRange(s, Drop(i, tid));
    ApplyAccounted(s, Drop(i, tid));
    DropBegins(s, i, tid);
    hide Apply, Accounted, M.AtCap;
    var s1 := Apply(s, Drop(i, tid));
    assert View(s1).calls == s1.calls;
    ReturnAlone(s1, i);
    HandedIsReturn(View(s), ShardOf(s, tid), s.calls[i].buf);
    var t := Alone(s1, i, 3);
    assert View(t).pool == Abs(t) && View(t).gone == t.gone;
  }

  lemma ForeignBegins(s: State, tid: nat)
    requires |s.piles| > 1
    ensures View(Apply(s, StartForeign(tid)))
            == View(s).(calls := s.calls + [Return(s.hook, ShardOf(s, tid), s.made)], made := s.made + 1)
  {
  }

  /** A buffer put from outside. */
  lemma ForeignAlone(s: State, tid: nat)
    requires Resting(s)
    ensures var sh, t := ShardOf(s, tid), Alone(Apply(s, StartForeign(tid)), |s.calls|, 3);
            && sh < Shards(s)
            && Resting(t)
            && View(t) == Handed(View(s).(calls := s.calls + [Done], made := s.made + 1), sh, s.made)
  {
    hide Apply, Accounted, M.AtCap;
    Begin(s, StartForeign(tid));
    ForeignBegins(s, tid);
    var s1 := Apply(s, StartForeign(tid));
    assert View(s1).calls == s1.calls;
    ReturnAlone(s1, |s.calls|);
  }

  lemma PutBegins(s: State, tid: nat, at: nat)
    requires |s.piles| > 1 && at < |s.hands|
    ensures View(Apply(s, StartPut(tid, at)))
            == View(s).(calls := s.calls + [Return(s.hook, ShardOf(s, tid), s.hands[at])],
                        hands := s.hands[..at] + s.hands[at + 1..])
  {
  }

  /** A buffer put by the user who owns it. */
  lemma PutAlone(s: State, tid: nat, at: nat)
    requires Resting(s) && at < |s.hands|
    ensures var sh, t := ShardOf(s, tid), Alone(Apply(s, StartPut(tid, at)), |s.calls|, 3);
            && sh < Shards(s)
            && Resting(t)
            && View(t) == Handed(View(s).(calls := s.calls + [Done], hands := s.hands[..at] + s.hands[at + 1..]),
                                 sh, s.hands[at])
  {
    hide Apply, Accounted, M.AtCap;
    Begin(s, StartPut(tid, at));
    PutBegins(s, tid, at);
    var s1 := Apply(s, StartPut(tid, at));
    assert View(s1).calls == s1.calls;
    ReturnAlone(s1, |s.calls|);
  }

  /** A guard detached, or a result picked up. */
  lemma KeepAlone(s: State, a: Action)
    requires Resting(s) && (a.Detach? || a.Collect?) && Enabled(s, a)
    ensures var t := Apply(s, a);
            Resting(t) && View(t) == With(View(s).(hands := s.hands + Owned(s.calls[a.call])), a.call, Done)
  {
    ApplyInRange(s, a);
    ApplyAccounted(s, a);
  }

  /** An owned buffer destroyed by its owner. */
  lemma DiscardAlone(s: State, at: nat)
    requires Resting(s) && at < |s.hands|
    ensures var t, d := Apply(s, Discard(at)), View(s);
            Resting(t)
            && View(t) == d.(hands := d.hands[..at] + d.hands[at + 1..], gone := d.gone + [s.hands[at]])
  {
    ApplyInRange(s, Discard(at));
    ApplyAccounted(s, Discard(at));
  }

  /** A cap or a hook installed. */
  lemma BuilderAlone(s: State, a: Action)
    requires Resting(s) && (a.SetCap? || a.SetReset?) && NoGuards(s.calls)
    ensures var t, d := Apply(s, a), View(s);
            Resting(t) && View(t) == if a.SetCap? then d.(pool := d.pool.(max := a.max)) else d
  {
    ApplyInRange(s, a);
    ApplyAccounted(s, a);
  }

  lemma StockAsks(s: State)
    requires |s.piles| > 1
    ensures var t := Apply(s, StartStock);
            t.calls == s.calls + [StockCount] && View(t) == View(s).(calls := t.calls)
  {
  }

  lemma StepKeepsHook(s: State, i: nat)
    requires |s.piles| > 1
    ensures Apply(s, Step(i)).hook == s.hook
  {
  }

  lemma StockBegins(s: State)
    requires Resting(s)
    ensures var i, d, t := |s.calls|, View(s), Apply(Apply(Apply(s, StartStock), Step(|s.calls|)), Step(|s.calls|));
            && RestingBut(t, i)
            && View(t) == d.(pool := d.pool.(allocations := s.allocations + 1), made := s.made + 1,
                             calls := s.calls + [Return(t.hook, Shards(s), s.made)])
  {
    hide Apply, Accounted, AllAtRest, CallInRange;
    var i := |s.calls|;
    Begin(s, StartStock);
    StockAsks(s);
    var s1 := Apply(s, StartStock);
    StepRestingBut(s1, i);
    OtherSteps(s1, i);
    StepKeepsHook(s1, i);
    var s2 := Apply(s1, Step(i));
    assert View(s2).calls == s2.calls && s2.calls[i] == StockInit;
    StepRestingBut(s2, i);
    OtherSteps(s2, i);
    StepKeepsHook(s2, i);
  }

  /** One prefill iteration. */
  lemma StockAlone(s: State)
    requires Resting(s)
    ensures var t, d := Alone(Apply(s, StartStock), |s.calls|, 5), View(s);
            && Resting(t)
            && View(t) == d.(pool := M.Stock(d.pool, s.made), calls := s.calls + [Done], made := s.made + 1,
                             gone := s.gone + if M.AtCap(d.pool) then [s.made] else [])
  {
    hide Apply, Accounted;
    var i := |s.calls|;
    StockBegins(s);
    var t := Apply(Apply(Apply(s, StartStock), Step(i)), Step(i));
    assert View(t).calls == t.calls;
    ReturnAlone(t, i);
    assert Alone(Apply(s, StartStock), i, 5) == Alone(Apply(Apply(s, StartStock), Step(i)), i, 4) == Alone(t, i, 3);
  }

  // ---- drain and count_idle ----

  /** `t` is `s` with the piles from `k` on emptied and call `i` replaced. */
  ghost predicate SweptFrom(s: State, t: State, k: nat, i: nat, c: Call)
  {
    && i < |s.calls| && t.calls == s.calls[i := c]
    && |t.piles| == |s.piles| && k <= |s.piles| && t.piles[..k] == s.piles[..k]
    && (forall p | k <= p < |s.piles| :: t.piles[p] == [])
    && t.leases == s.leases && t.allocations == s.allocations
    && t.hands == s.hands && t.gone == s.gone && t.made == s.made
    && (t.cap.Capped? <==> s.cap.Capped?) && (t.cap.Capped? ==> t.cap.max == s.cap.max)
  }

  lemma TakesTheRest(piles: seq<seq<nat>>, k: nat, taken: seq<nat>)
    requires k < |piles|
    ensures taken + piles[k] + M.Flatten(piles[k := []][k + 1..]) == taken + M.Flatten(piles[k..])
  {
    FlattenFirst(piles[k..]);
    assert piles[k..][1..] == piles[k + 1..] == piles[k := []][k + 1..];
  }

  lemma {:induction false} DrainRest(s: State, i: nat)
    requires RestingBut(s, i) && s.calls[i].Drain? && s.calls[i].next <= |s.piles|
    ensures var t, c := Alone(s, i, |s.piles| + 1 - s.calls[i].next), s.calls[i];
            Resting(t) && SweptFrom(s, t, c.next, i, Drained(c.taken + M.Flatten(s.piles[c.next..])))
    decreases |s.piles| - s.calls[i].next
  {
    hide Apply, Accounted, AllAtRest, AtRest, CallInRange, Resting;
    var c := s.calls[i];
    StepRestingBut(s, i);
    var s1 := Apply(s, Step(i));
    DrainOnce(s, i);
    if c.next < |s.piles| {
      DrainRest(s1, i);
      TakesTheRest(s.piles, c.next, c.taken);
      SweptOnce(s, s1, Alone(s, i, |s.piles| + 1 - c.next), c.next, i);
    } else {
      assert s.piles[c.next..] == [];
      assert c.taken + [] == c.taken;
      Rests(s1, i);
    }
  }

  lemma SweptOnce(s: State, s1: State, t: State, k: nat, i: nat)
    requires k < |s.piles| && i < |s.calls| && |s1.calls| == |s.calls| && s1.piles == s.piles[k := []]
    requires s1.calls == s.calls[i := s1.calls[i]]
    requires s1.leases == s.leases && s1.allocations == s.allocations
    requires s1.hands == s.hands && s1.gone == s.gone && s1.made == s.made
    requires (s1.cap.Capped? <==> s.cap.Capped?) && (s1.cap.Capped? ==> s1.cap.max == s.cap.max)
    requires i < |t.calls| && SweptFrom(s1, t, k + 1, i, t.calls[i])
    ensures SweptFrom(s, t, k, i, t.calls[i])
  {
    assert t.piles[..k] == t.piles[..k + 1][..k];
    assert s.piles[..k] == s1.piles[..k + 1][..k];
    assert t.piles[k] == t.piles[..k + 1][k];
  }

  lemma DrainOnce(s: State, i: nat)
    requires RestingBut(s, i) && s.calls[i].Drain? && s.calls[i].next <= |s.piles|
    ensures var c, t := s.calls[i], Apply(s, Step(i));
            && t.leases == s.leases && t.allocations == s.allocations
            && t.hands == s.hands && t.gone == s.gone && t.made == s.made
            && (t.cap.Capped? <==> s.cap.Capped?) && (t.cap.Capped? ==> t.cap.max == s.cap.max)
            && if c.next < |s.piles| then
                 t.calls == s.calls[i := Drain(c.next + 1, c.taken + s.piles[c.next])]
                 && t.piles == s.piles[c.next := []]
               else t.calls == s.calls[i := Drained(c.taken)] && t.piles == s.piles
  {
  }

  lemma {:induction false} FlattenFirst(stacks: seq<seq<nat>>)
    requires stacks != []
    ensures M.Flatten(stacks) == stacks[0] + M.Flatten(stacks[1..])
  {
    if |stacks| == 1 {
      assert M.Front(stacks) == [] && stacks[1..] == [];
    } else {
      FlattenFirst(M.Front(stacks));
      var middle := M.Flatten(M.Front(stacks[1..]));
      assert M.Front(stacks)[1..] == M.Front(stacks[1..]);
      assert stacks[0] + middle + M.Last(stacks) == stacks[0] + (middle + M.Last(stacks));
    }
  }

  /** A drain on its own takes every pile, shards in index order and the reserve last. */
  lemma DrainAlone(s: State)
    requires Resting(s)
    ensures var t, d := Alone(Apply(s, StartDrain), |s.calls|, |s.piles| + 1), View(s);
            Resting(t) && View(t) == d.(pool := M.Emptied(d.pool), calls := s.calls + [Drained(M.Drained(d.pool))])
  {
    Begin(s, StartDrain);
    var s1, t := Apply(s, StartDrain), Alone(Apply(s, StartDrain), |s.calls|, |s.piles| + 1);
    hide Resting, RestingBut, Apply;
    DrainRest(s1, |s.calls|);
    assert s1.piles[0..] == s.piles;
    assert M.Front(s.piles) == Abs(s).stacks;
    assert [] + M.Flatten(s.piles) == M.Drained(Abs(s));
    assert Abs(t).stacks == M.Emptied(Abs(s)).stacks;
  }

  /** Only call `i` differs. */
  function Moved(s: State, i: nat, c: Call): State
    requires i < |s.calls|
  {
    s.(calls := s.calls[i := c])
  }

  lemma CountOnce(s: State, i: nat)
    requires RestingBut(s, i) && s.calls[i].Count? && s.calls[i].next <= |s.piles|
    ensures var c := s.calls[i];
            Apply(s, Step(i)) == Moved(s, i, if c.next < |s.piles| then Count(c.next + 1, c.seen + |s.piles[c.next]|)
                                             else Counted(c.seen))
  {
    var c := s.calls[i];
    assert CallInRange(c, |s.piles|);
    if c.next < |s.piles| { assert s.piles[c.next := s.piles[c.next]] == s.piles; }
  }

  lemma {:induction false} CountRest(s: State, i: nat)
    requires RestingBut(s, i) && s.calls[i].Count? && s.calls[i].next <= |s.piles|
    ensures var c := s.calls[i];
            && Sum(Length<nat>, s.piles[c.next..]) >= 0
            && Alone(s, i, |s.piles| + 1 - c.next) == Moved(s, i, Counted(c.seen + Sum(Length<nat>, s.piles[c.next..])))
    decreases |s.piles| - s.calls[i].next
  {
    hide Apply, Accounted, AtRest, CallInRange, Sum;
    var c := s.calls[i];
    SumCovers(Length<nat>, s.piles[c.next..]);
    StepRestingBut(s, i);
    CountOnce(s, i);
    if c.next < |s.piles| {
      var s1 := Apply(s, Step(i));
      CountRest(s1, i);
      PoolSweep.UnsweptNext(s.piles, c.next);
      assert Moved(s1, i, Done).calls == Moved(s, i, Done).calls;
    } else {
      assert s.piles[c.next..] == [];
      SumZero(Length<nat>, s.piles[c.next..]);
    }
  }

  /** `count_idle` on its own is exact and changes nothing. */
  lemma CountAlone(s: State)
    requires Resting(s)
    ensures var t, d := Alone(Apply(s, StartCount), |s.calls|, |s.piles| + 1), View(s);
            && M.Parked(d.pool) >= 0
            && Resting(t) && View(t) == d.(calls := s.calls + [Counted(M.Parked(d.pool))])
  {
    Begin(s, StartCount);
    var s1 := Apply(s, StartCount);
    hide Accounted;
    CountRest(s1, |s.calls|);
    assert s1.piles[0..] == s.piles;
    ParkedIsIdle(s);
  }

  // ---- whole sessions ----

  datatype Op =
    | DoLease(tid: nat)
    | DoReturn(call: nat, tid: nat)
    | DoDetach(call: nat)
    | DoCollect(call: nat)
    | DoDiscard(at: nat)
    | DoPut(tid: nat, at: nat)
    | DoForeign(tid: nat)
    | DoStock
    | DoDrain
    | DoCount
    | DoCap(max: Option<nat>)
    | DoHook

  /** The builder methods need the pool to themselves. */
  predicate NoGuards(calls: seq<Call>)
  {
    forall i | 0 <= i < |calls| :: !calls[i].Held?
  }

  /** The operation makes sense for what the users have. */
  predicate Possible(calls: seq<Call>, hands: seq<nat>, op: Op)
  {
    match op
    case DoReturn(i, _) => i < |calls| && calls[i].Held?
    case DoDetach(i) => i < |calls| && calls[i].Held?
    case DoCollect(i) => i < |calls| && (calls[i].Drained? || calls[i].Counted?)
    case DoPut(_, at) => at < |hands|
    case DoDiscard(at) => at < |hands|
    case DoCap(_) => NoGuards(calls)
    case DoHook => NoGuards(calls)
    case _ => true
  }

  /** One operation from start to end while nobody else moves. */
  function Solo(s: State, op: Op): State
    requires |s.piles| > 1
    ensures |Solo(s, op).piles| == |s.piles|
  {
    if !Possible(s.calls, s.hands, op) then s else
    match op
    case DoLease(tid) => Alone(Apply(s, StartGet(tid)), |s.calls|, 4)
    case DoReturn(i, tid) => Alone(Apply(s, Drop(i, tid)), i, 3)
    case DoDetach(i) => Apply(s, Detach(i))
    case DoCollect(i) => Apply(s, Collect(i))
    case DoDiscard(at) => Apply(s, Discard(at))
    case DoPut(tid, at) => Alone(Apply(s, StartPut(tid, at)), |s.calls|, 3)
    case DoForeign(tid) => Alone(Apply(s, StartForeign(tid)), |s.calls|, 3)
    case DoStock => Alone(Apply(s, StartStock), |s.calls|, 5)
    case DoDrain => Alone(Apply(s, StartDrain), |s.calls|, |s.piles| + 1)
    case DoCount => Alone(Apply(s, StartCount), |s.calls|, |s.piles| + 1)
    case DoCap(max) => Apply(s, SetCap(max))
    case DoHook => Apply(s, SetReset)
  }

  /** The operation as actions of the step system. */
  function OpActions(s: State, op: Op): seq<Action>
  {
    if !Possible(s.calls, s.hands, op) then [] else
    match op
    case DoLease(tid) => [StartGet(tid)] + seq(4, _ => Step(|s.calls|))
    case DoReturn(i, tid) => [Drop(i, tid)] + seq(3, _ => Step(i))
    case DoDetach(i) => [Detach(i)]
    case DoCollect(i) => [Collect(i)]
    case DoDiscard(at) => [Discard(at)]
    case DoPut(tid, at) => [StartPut(tid, at)] + seq(3, _ => Step(|s.calls|))
    case DoForeign(tid) => [StartForeign(tid)] + seq(3, _ => Step(|s.calls|))
    case DoStock => [StartStock] + seq(5, _ => Step(|s.calls|))
    case DoDrain => [StartDrain] + seq(|s.piles| + 1, _ => Step(|s.calls|))
    case DoCount => [StartCount] + seq(|s.piles| + 1, _ => Step(|s.calls|))
    case DoCap(max) => [SetCap(max)]
    case DoHook => [SetReset]
  }

  lemma StartThenAlone(s: State, a: Action, i: nat, k: nat)
    requires |s.piles| > 1
    ensures Exec(s, [a] + seq(k, _ => Step(i))) == Alone(Apply(s, a), i, k)
    ensures Exec(s, [a]) == Apply(s, a)
  {
    ExecThen(s, [], a);
    assert [] + [a] == [a];
    ExecConcat(s, [a], seq(k, _ => Step(i)));
    AloneIsRun(Apply(s, a), i, k);
  }

  /** An operation run alone is a run. */
  lemma SoloIsRun(s: State, op: Op)
    requires |s.piles| > 1
    ensures Solo(s, op) == Exec(s, OpActions(s, op))
  {
    hide Apply, Exec, Alone, Possible;
    var acts := OpActions(s, op);
    if Possible(s.calls, s.hands, op) {
      StartThenAlone(s, acts[0], if |acts| > 1 then acts[1].call else 0, |acts| - 1);
    } else {
      ExecNothing(s);
    }
  }

  lemma ExecNothing(s: State)
    requires |s.piles| > 1
    ensures Exec(s, []) == s
  {
  }

  lemma ParkedIsNat(m: M.Model<nat>)
    ensures M.Parked(m) >= 0
  {
    SumCovers(Length<nat>, m.stacks);
  }

  /** What the stack model makes of the same operation, results included. */
  function Expected(d: Desk, op: Op): (e: Desk)
    requires |d.pool.stacks| > 0
    ensures |e.pool.stacks| == |d.pool.stacks|
  {
    if !Possible(d.calls, d.hands, op) then d else
    match op
    case DoLease(tid) => Leased(d, tid % |d.pool.stacks|)
    case DoReturn(i, tid) => With(Handed(d, tid % |d.pool.stacks|, d.calls[i].buf), i, Done)
    case DoDetach(i) => With(d.(hands := d.hands + [d.calls[i].buf]), i, Done)
    case DoCollect(i) => With(d.(hands := d.hands + Owned(d.calls[i])), i, Done)
    case DoDiscard(at) =>
      d.(hands := d.hands[..at] + d.hands[at + 1..], gone := d.gone + [d.hands[at]])
    case DoPut(tid, at) =>
      Handed(d.(calls := d.calls + [Done], hands := d.hands[..at] + d.hands[at + 1..]),
             tid % |d.pool.stacks|, d.hands[at])
    case DoForeign(tid) =>
      Handed(d.(calls := d.calls + [Done], made := d.made + 1), tid % |d.pool.stacks|, d.made)
    case DoStock =>
      d.(pool := M.Stock(d.pool, d.made), calls := d.calls + [Done], made := d.made + 1,
         gone := d.gone + if M.AtCap(d.pool) then [d.made] else [])
    case DoDrain => d.(pool := M.Emptied(d.pool), calls := d.calls + [Drained(M.Drained(d.pool))])
    case DoCount => ParkedIsNat(d.pool); d.(calls := d.calls + [Counted(M.Parked(d.pool))])
    case DoCap(max) => d.(pool := d.pool.(max := max))
    case DoHook => d
  }

  lemma SoloRefines(s: State, op: Op)
    requires Resting(s)
    ensures Resting(Solo(s, op)) && View(Solo(s, op)) == Expected(View(s), op)
  {
    hide Apply, Alone, Accounted, Handed, Leased, M.Stock, M.AtCap, M.Drained, M.Emptied;
    if Possible(s.calls, s.hands, op) {
      match op
      case DoLease(tid) => GetAlone(s, tid);
      case DoReturn(i, tid) => DropAlone(s, i, tid);
      case DoDetach(i) => KeepAlone(s, Detach(i));
      case DoCollect(i) => KeepAlone(s, Collect(i));
      case DoDiscard(at) => DiscardAlone(s, at);
      case DoPut(tid, at) => PutAlone(s, tid, at);
      case DoForeign(tid) => ForeignAlone(s, tid);
      case DoStock => StockAlone(s);
      case DoDrain => DrainAlone(s);
      case DoCount => CountAlone(s);
      case DoCap(max) => BuilderAlone(s, SetCap(max));
      case DoHook => BuilderAlone(s, SetReset);
    }
  }

  function Session(s: State, ops: seq<Op>): State
    requires |s.piles| > 1
    ensures |Session(s, ops).piles| == |s.piles|
  {
    if ops == [] then s else Solo(Session(s, ops[..|ops| - 1]), ops[|ops| - 1])
  }

  function ModelSession(d: Desk, ops: seq<Op>): (e: Desk)
    requires |d.pool.stacks| > 0
    ensures |e.pool.stacks| == |d.pool.stacks|
  {
    if ops == [] then d else Expected(ModelSession(d, ops[..|ops| - 1]), ops[|ops| - 1])
  }

  lemma ModelThen(d: Desk, ops: seq<Op>, op: Op)
    requires |d.pool.stacks| > 0
    ensures ModelSession(d, ops + [op]) == Expected(ModelSession(d, ops), op)
  {
    assert (ops + [op])[..|ops|] == ops;
  }

  lemma ModelTwo(d: Desk, ops: seq<Op>, a: Op, b: Op)
    requires |d.pool.stacks| > 0
    ensures ModelSession(d, ops + [a] + [b]) == Expected(Expected(ModelSession(d, ops), a), b)
  {
    hide Expected, ModelSession;
    ModelThen(d, ops, a);
    ModelThen(d, ops + [a], b);
  }

  /** Any sequence of operations by any threads, one at a time: every operation ends, and the
      stacks, every guard, every drained vector, every count, what the users own and what
      was destroyed are those of the model, which knows of no counter, claim or step. */
  lemma {:induction false} SequentialRefinement(s: State, ops: seq<Op>)
    requires Resting(s)
    ensures Resting(Session(s, ops)) && View(Session(s, ops)) == ModelSession(View(s), ops)
  {
    if ops == [] {
    } else {
      hide Resting, View, Solo, Expected;
      var n := |ops| - 1;
      SequentialRefinement(s, ops[..n]);
      SoloRefines(Session(s, ops[..n]), ops[n]);
    }
  }

  // ---- sessions are runs ----

  function SessionActions(s: State, ops: seq<Op>): seq<Action>
    requires |s.piles| > 1
  {
    if ops == [] then [] else
    SessionActions(s, ops[..|ops| - 1]) + OpActions(Session(s, ops[..|ops| - 1]), ops[|ops| - 1])
  }

  lemma {:induction false} SessionIsRun(s: State, ops: seq<Op>)
    requires |s.piles| > 1
    ensures Session(s, ops) == Exec(s, SessionActions(s, ops))
  {
    if ops == [] {
    } else {
      hide Solo, Exec, OpActions;
      var n := |ops| - 1;
      SessionIsRun(s, ops[..n]);
      SoloIsRun(Session(s, ops[..n]), ops[n]);
      ExecConcat(s, SessionActions(s, ops[..n]), OpActions(Session(s, ops[..n]), ops[n]));
    }
  }
}
