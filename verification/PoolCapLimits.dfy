/**
  What the idle cap does not promise, each shown by a concrete run that works for every
  shard count.
 */
module PoolCapLimits {
  import opened Wrappers
  import opened Sums
  import opened PoolSteps
  import PoolFlows
  import PoolPeaks
  import PoolSolo

  /** Pile 0 holds `pile`, every other pile is empty, and no hook is installed. */
  ghost predicate Looks(s: State, shards: nat, pile: seq<nat>, cap: Cap, calls: seq<Call>)
  {
    && |s.piles| == shards + 1 && !s.hook
    && s.piles[0] == pile && (forall p | 0 < p <= shards :: s.piles[p] == [])
    && s.cap == cap && s.calls == calls
  }

  lemma Emptied(s: State)
    requires forall p | 0 <= p < |s.piles| :: s.piles[p] == []
    ensures Idle(s.piles) == 0
  {
    SumZero(Length<nat>, s.piles);
  }

  const PARK_ONE: seq<Action> := [StartForeign(0), Step(0)]
  const START_TAKE: seq<Action> := [Step(0), StartGet(0)]
  const POP_IT: seq<Action> := [Step(1), StartForeign(0)]
  const REFUSE_IT: seq<Action> := [Step(2), Step(2)]

  const BEGIN_TAKE: seq<Action> := [SetCap(Some(1))] + PARK_ONE + START_TAKE

  /** Cap 1; one buffer parks; a lease pops it; before that lease has adjusted the counter
      another buffer comes back. */
  const EARLY_REFUSAL: seq<Action> := BEGIN_TAKE + POP_IT + REFUSE_IT + [Step(1)]

  lemma ParkOne(s: State, n: nat)
    requires n > 0 && Looks(s, n, [], Capped(1, 0), []) && s.made == 0 && s.gone == []
    ensures var t := Exec(s, PARK_ONE);
            Looks(t, n, [], Capped(1, 1), [Push(0, 0)]) && t.made == 1 && t.gone == []
  {
    ExecTwo(s, StartForeign(0), Step(0));
    assert Apply(s, StartForeign(0)).calls == [Claim(0, 0)];
  }

  lemma StartTake(s: State, n: nat)
    requires n > 0 && Looks(s, n, [], Capped(1, 1), [Push(0, 0)]) && s.made == 1 && s.gone == []
    ensures var t := Exec(s, START_TAKE);
            Looks(t, n, [0], Capped(1, 1), [Done, PopShard(0)]) && t.made == 1 && t.gone == []
  {
    ExecTwo(s, Step(0), StartGet(0));
    assert Looks(Apply(s, Step(0)), n, [0], Capped(1, 1), [Done]);
  }

  lemma InstallCap(n: nat)
    requires n > 0
    ensures var t := Exec(New(n), [SetCap(Some(1))]);
            Looks(t, n, [], Capped(1, 0), []) && t.made == 0 && t.gone == []
  {
    Emptied(New(n));
    ExecThen(New(n), [], SetCap(Some(1)));
    assert [] + [SetCap(Some(1))] == [SetCap(Some(1))];
  }

  lemma BeginTake(n: nat)
    requires n > 0
    ensures var t := Exec(New(n), BEGIN_TAKE);
            Looks(t, n, [0], Capped(1, 1), [Done, PopShard(0)]) && t.made == 1 && t.gone == []
  {
    hide Apply, Exec;
    var s0, x1 := New(n), [SetCap(Some(1))];
    InstallCap(n);
    ExecConcat(s0, x1, PARK_ONE);
    ExecConcat(s0, x1 + PARK_ONE, START_TAKE);
    ParkOne(Exec(s0, x1), n);
    StartTake(Exec(s0, x1 + PARK_ONE), n);
  }

  lemma PopIt(s: State, n: nat)
    requires n > 0 && Looks(s, n, [0], Capped(1, 1), [Done, PopShard(0)]) && s.made == 1 && s.gone == []
    ensures var t := Exec(s, POP_IT);
            Looks(t, n, [], Capped(1, 1), [Done, Unpark(0, 0), Claim(0, 1)]) && t.gone == []
  {
    ExecTwo(s, Step(1), StartForeign(0));
    var s1 := Apply(s, Step(1));
    assert Looks(s1, n, [], Capped(1, 1), [Done, Unpark(0, 0)]);
  }

  lemma RefuseIt(s: State, n: nat)
    requires n > 0 && Looks(s, n, [], Capped(1, 1), [Done, Unpark(0, 0), Claim(0, 1)]) && s.gone == []
    ensures var t := Exec(s, REFUSE_IT);
            Looks(t, n, [], Capped(1, 1), [Done, Unpark(0, 0), Done]) && t.gone == [1]
  {
    ExecTwo(s, Step(2), Step(2));
    var s1 := Apply(s, Step(2));
    assert Looks(s1, n, [], Capped(1, 2), [Done, Unpark(0, 0), Rollback(0, 1)]) && s1.gone == [];
    RollBack(s1, n);
  }

  lemma RollBack(s: State, n: nat)
    requires n > 0 && Looks(s, n, [], Capped(1, 2), [Done, Unpark(0, 0), Rollback(0, 1)]) && s.gone == []
    ensures var t := Apply(s, Step(2));
            Looks(t, n, [], Capped(1, 1), [Done, Unpark(0, 0), Done]) && t.gone == [1]
  {
  }

  /** With a take under way a return can be refused by an empty pool: the run ends at rest
      with nothing parked under a cap of one, and a buffer destroyed. */
  lemma RefusedBelowTheCap(n: nat)
    requires n > 0
    ensures var s := Exec(New(n), EARLY_REFUSAL);
            && s.cap.Capped? && s.cap.max == 1
            && AllAtRest(s)
            && Idle(s.piles) == 0 && |s.gone| == 1
  {
    var s0, x1 := New(n), BEGIN_TAKE;
    var x2, x3 := x1 + POP_IT, x1 + POP_IT + REFUSE_IT;
    BeginTake(n);
    ExecConcat(s0, x1, POP_IT);
    ExecConcat(s0, x2, REFUSE_IT);
    ExecThen(s0, x3, Step(1));
    PopIt(Exec(s0, x1), n);
    RefuseIt(Exec(s0, x2), n);
    UnparkLast(Exec(s0, x3), n);
  }

  lemma UnparkLast(s: State, n: nat)
    requires n > 0 && Looks(s, n, [], Capped(1, 1), [Done, Unpark(0, 0), Done]) && s.gone == [1]
    ensures var t := Apply(s, Step(1));
            && t.cap == Capped(1, 0) && t.calls == [Done, Held(0, 0), Done]
            && Idle(t.piles) == 0 && t.gone == [1]
  {
    Emptied(s);
  }

  /** A pool prefilled with `stock` buffers and capped afterwards starts with all of them
      parked, so it is above its cap from the start if and only if `stock` is. */
  lemma PrefillBeforeCap(n: nat, stock: nat, max: nat)
    requires n > 0
    ensures var s := Apply(PoolPeaks.Stocked(n, stock), SetCap(Some(max)));
            Quiet(s) && s.cap == Capped(max, stock) && Idle(s.piles) == stock
  {
    var o := PoolPeaks.Stocked(n, stock);
    PoolPeaks.StockedIsPrefilled(n, stock);
    PrefilledIdle(o, stock);
    hide PoolPeaks.Stocked, PoolSolo.Resting, Apply, PoolFlows.Prefilled;
    CapsQuiet(o, max);
  }

  lemma CapsQuiet(o: State, max: nat)
    requires |o.piles| > 1 && PoolPeaks.AllDone(o)
    ensures var s := Apply(o, SetCap(Some(max)));
            Quiet(s) && s.cap == Capped(max, Idle(o.piles)) && s.piles == o.piles
  {
  }

  lemma PrefilledIdle(o: State, stock: nat)
    requires PoolFlows.Prefilled(o, stock)
    ensures Idle(o.piles) == stock
  {
    SumZero(Length<nat>, o.piles[..Shards(o)]);
    SumAppend(Length<nat>, o.piles[..Shards(o)], o.piles[Shards(o)]);
    assert o.piles == o.piles[..Shards(o)] + [o.piles[Shards(o)]];
  }
}
