/**
  How far `idle_len` can be off while others move: the bound of PoolSweep is reached. One
  buffer that keeps moving just ahead of the count is counted once per shard.
 */
module PoolCountLimits {
  import opened PoolSteps

  /** The count has visited `k` piles and seen the one buffer in each; it is still in the
      last of them. */
  ghost predicate Chased(s: State, n: nat, k: nat)
  {
    && 1 <= k <= n && Plain(s, n)
    && |s.calls| == k + 1 && s.calls[0] == Count(k, k)
    && s.piles == Only(n, k - 1)
  }

  /** Buffer 0 in pile `p`, nothing else parked. */
  function Only(n: nat, p: nat): seq<seq<nat>>
  {
    seq(n + 1, q => if q == p then [0] else [])
  }

  const BEGIN: seq<Action> := [StartCount, StartForeign(0), Step(1)] + [Step(1), Step(0)]

  /** Lease from the pile just counted, and return to the next one. */
  function Move(k: nat): seq<Action>
    requires k > 0
  {
    [StartGet(k - 1), Step(k + 1), Step(k + 1)] + [Drop(k + 1, k), Step(k + 1), Step(k + 1)] + [Step(0)]
  }

  function Chase(k: nat): seq<Action>
    requires k > 0
  {
    if k == 1 then BEGIN else Chase(k - 1) + Move(k - 1)
  }

  lemma ExecThree(s: State, a: Action, b: Action, c: Action)
    requires |s.piles| > 1
    ensures Exec(s, [a, b, c]) == Apply(Apply(Apply(s, a), b), c)
  {
    ExecThen(s, [], a);
    ExecThen(s, [a], b);
    ExecThen(s, [a, b], c);
    assert [] + [a] == [a] && [a] + [b] == [a, b] && [a, b] + [c] == [a, b, c];
  }

  /** Everything of interest but the calls and the piles. */
  ghost predicate Plain(s: State, n: nat)
  {
    n > 0 && |s.piles| == n + 1 && !s.hook && s.cap == Uncapped && s.made == 1
  }

  ghost predicate Now(t: State, n: nat, calls: seq<Call>, piles: seq<seq<nat>>)
  {
    Plain(t, n) && t.calls == calls && t.piles == piles
  }

  lemma Asks(s: State, n: nat, sh: nat)
    requires Plain(s, n) && sh < n
    ensures Now(Apply(s, StartGet(sh)), n, s.calls + [PopShard(sh)], s.piles)
  {
  }

  lemma Pops(s: State, n: nat, i: nat, sh: nat)
    requires Plain(s, n) && i < |s.calls| && s.calls[i] == PopShard(sh) && sh < n && s.piles[sh] == [0]
    ensures Now(Apply(s, Step(i)), n, s.calls[i := Unpark(sh, 0)], s.piles[sh := []])
  {
  }

  lemma Unparks(s: State, n: nat, i: nat, sh: nat)
    requires Plain(s, n) && i < |s.calls| && s.calls[i] == Unpark(sh, 0) && sh < n
    ensures Now(Apply(s, Step(i)), n, s.calls[i := Held(sh, 0)], s.piles)
  {
  }

  lemma Drops(s: State, n: nat, i: nat, sh: nat)
    requires Plain(s, n) && i < |s.calls| && s.calls[i].Held? && s.calls[i].buf == 0 && sh < n
    ensures Now(Apply(s, Drop(i, sh)), n, s.calls[i := Claim(sh, 0)], s.piles)
  {
  }

  lemma Claims(s: State, n: nat, i: nat, sh: nat)
    requires Plain(s, n) && i < |s.calls| && s.calls[i] == Claim(sh, 0) && sh < n
    ensures Now(Apply(s, Step(i)), n, s.calls[i := Push(sh, 0)], s.piles)
  {
  }

  lemma Pushes(s: State, n: nat, i: nat, sh: nat)
    requires Plain(s, n) && i < |s.calls| && s.calls[i] == Push(sh, 0) && sh < n
    ensures Now(Apply(s, Step(i)), n, s.calls[i := Done], s.piles[sh := s.piles[sh] + [0]])
  {
  }

  lemma Counts(s: State, n: nat, k: nat, seen: nat)
    requires Plain(s, n) && k <= n && |s.calls| > 0 && s.calls[0] == Count(k, seen)
    ensures Now(Apply(s, Step(0)), n, s.calls[0 := Count(k + 1, seen + |s.piles[k]|)], s.piles)
  {
    assert s.piles[k := s.piles[k]] == s.piles;
  }

  lemma Begins(n: nat)
    requires n > 0
    ensures Chased(Exec(New(n), BEGIN), n, 1)
  {
    var s, first := New(n), [StartCount, StartForeign(0), Step(1)];
    var t := Exec(s, first);
    ExecThree(s, StartCount, StartForeign(0), Step(1));
    assert t.calls == [Count(0, 0), Push(0, 0)] && t.piles == s.piles && t.made == 1;
    Parked(t, n);
    ExecConcat(s, first, [Step(1), Step(0)]);
  }

  lemma Parked(t: State, n: nat)
    requires Now(t, n, [Count(0, 0), Push(0, 0)], New(n).piles)
    ensures Chased(Exec(t, [Step(1), Step(0)]), n, 1)
  {
    hide Apply, Exec;
    ExecTwo(t, Step(1), Step(0));
    Pushes(t, n, 1, 0);
    Filled(n, 0);
    Counts(Apply(t, Step(1)), n, 0, 0);
  }

  lemma Filled(n: nat, k: nat)
    requires k <= n
    ensures New(n).piles[k := New(n).piles[k] + [0]] == Only(n, k)
  {
    assert New(n).piles[k] + [0] == [0];
  }

  lemma Leases(s: State, n: nat, k: nat)
    requires Chased(s, n, k) && k < n
    ensures Now(Exec(s, [StartGet(k - 1), Step(k + 1), Step(k + 1)]), n, s.calls + [Held(k - 1, 0)], New(n).piles)
  {
    hide Apply, Exec;
    ExecThree(s, StartGet(k - 1), Step(k + 1), Step(k + 1));
    Asks(s, n, k - 1);
    var t := Apply(s, StartGet(k - 1));
    Pops(t, n, k + 1, k - 1);
    assert Only(n, k - 1)[k - 1 := []] == New(n).piles;
    Unparks(Apply(t, Step(k + 1)), n, k + 1, k - 1);
  }

  lemma Returns(s: State, n: nat, k: nat)
    requires 1 <= k < n && Now(s, n, s.calls, New(n).piles) && |s.calls| == k + 2 && s.calls[k + 1] == Held(k - 1, 0)
    ensures Now(Exec(s, [Drop(k + 1, k), Step(k + 1), Step(k + 1)]), n, s.calls[k + 1 := Done], Only(n, k))
  {
    hide Apply, Exec;
    ExecThree(s, Drop(k + 1, k), Step(k + 1), Step(k + 1));
    Drops(s, n, k + 1, k);
    var t := Apply(s, Drop(k + 1, k));
    Claims(t, n, k + 1, k);
    Pushes(Apply(t, Step(k + 1)), n, k + 1, k);
    Filled(n, k);
  }

  lemma Round(s: State, n: nat, k: nat)
    requires Chased(s, n, k) && k < n
    ensures Chased(Exec(s, Move(k)), n, k + 1)
  {
    hide Apply, Exec;
    var leave := [StartGet(k - 1), Step(k + 1), Step(k + 1)];
    var enter := [Drop(k + 1, k), Step(k + 1), Step(k + 1)];
    Leases(s, n, k);
    var t := Exec(s, leave);
    Returns(t, n, k);
    ExecConcat(s, leave, enter);
    var u := Exec(t, enter);
    Counts(u, n, k, k);
    assert |Only(n, k)[k]| == 1;
    ExecThen(s, leave + enter, Step(0));
  }

  lemma {:induction false} ChaseRuns(n: nat, k: nat)
    requires 1 <= k <= n
    ensures Chased(Exec(New(n), Chase(k)), n, k)
  {
    hide Apply, Exec, Chased, BEGIN, Move;
    if k == 1 {
      Begins(n);
    } else {
      ChaseRuns(n, k - 1);
      Round(Exec(New(n), Chase(k - 1)), n, k - 1);
      ExecConcat(New(n), Chase(k - 1), Move(k - 1));
    }
  }

  /** For every shard count there is a run in which a single buffer is ever made and a count
      reports as many idle buffers as there are shards. */
  lemma OneBufferCountedPerShard(n: nat)
    requires n > 0
    ensures var s := Exec(New(n), Chase(n) + [Step(0), Step(0)]);
            s.made == 1 && |s.calls| > 0 && s.calls[0] == Counted(n)
  {
    hide Exec;
    var s, two := Exec(New(n), Chase(n)), [Step(0), Step(0)];
    ChaseRuns(n, n);
    ExecTwo(s, Step(0), Step(0));
    Counts(s, n, n, n);
    ExecConcat(New(n), Chase(n), two);
  }
}
