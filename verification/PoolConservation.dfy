/**
  Every buffer is in exactly one place at every moment of every run, and the two public
  counters say exactly what they can say about it.
 */
module PoolConservation {
  import opened Sums
  import opened PoolSteps

  // ---- how often a buffer occurs ----

  function InPile(b: nat): seq<nat> -> int
  {
    (pile: seq<nat>) => Occ(b, pile)
  }

  function InCall(b: nat): Call -> int
  {
    (c: Call) => Occ(b, Owned(c))
  }

  /** Occurrences of `b` over every pile, every call (guards included), the user's hands
      and the destroyed buffers. */
  function Copies(s: State, b: nat): int
  {
    Sum(InPile(b), s.piles) + Sum(InCall(b), s.calls) + Occ(b, s.hands) + Occ(b, s.gone)
  }

  ghost predicate Conserved(s: State)
  {
    forall b: nat :: Copies(s, b) == if b < s.made then 1 else 0
  }

  // ---- one step moves buffers, it never copies or forgets one ----

  /** What an effect does to the occurrences of `b` outside the user's reach. */
  function Shift(s: State, a: Action, b: nat): int
    requires InRange(s) && Target(a).Some? && Enabled(s, a)
  {
    PileChange(InPile(b), s, a) + Occ(b, Owned(EffectOf(s, a).call)) - Occ(b, Owned(s.calls[Target(a).value]))
  }

  lemma PopSplits(pile: seq<nat>, b: nat)
    requires pile != []
    ensures Occ(b, pile) == Occ(b, pile[..|pile| - 1]) + Occ(b, [pile[|pile| - 1]])
  {
    OccOne(b, pile[|pile| - 1]);
  }

  /** Taking one buffer off a pile. */
  lemma PopMoves(s: State, i: nat, b: nat)
    requires InRange(s) && Enabled(s, Step(i)) && (s.calls[i].PopShard? || s.calls[i].PopReserve?)
    ensures var e := EffectOf(s, Step(i)); Shift(s, Step(i), b) == 0 && e.kept == [] && e.lost == [] && e.born == 0
  {
    hide Occ;
    var c := s.calls[i];
    assert CallInRange(c, |s.piles|);
    OccOne(b, 0);
    var pile := s.piles[if c.PopShard? then c.shard else |s.piles| - 1];
    if pile != [] { PopSplits(pile, b); }
  }

  /** Pushing one on, or emptying a whole pile into a drain. */
  lemma PileMoves(s: State, i: nat, b: nat)
    requires InRange(s) && Enabled(s, Step(i)) && (s.calls[i].Push? || s.calls[i].Drain? || s.calls[i].Count?)
    ensures var e := EffectOf(s, Step(i)); Shift(s, Step(i), b) == 0 && e.kept == [] && e.lost == [] && e.born == 0
  {
    hide Occ;
    var c := s.calls[i];
    assert CallInRange(c, |s.piles|);
    OccOne(b, 0);
    match c
    case Push(p, x) => OccConcat(b, s.piles[p], [x]);
    case Drain(k, taken) => if k < |s.piles| { OccConcat(b, taken, s.piles[k]); }
    case _ =>
  }

  lemma AdvanceMoves(s: State, i: nat, b: nat)
    requires InRange(s) && Enabled(s, Step(i))
    ensures var e := EffectOf(s, Step(i));
            Shift(s, Step(i), b) + Occ(b, e.kept) + Occ(b, e.lost)
            == if e.born == 1 && b == s.made then 1 else 0
  {
    hide Occ;
    var c := s.calls[i];
    assert CallInRange(c, |s.piles|);
    OccOne(b, s.made);
    if c.PopShard? || c.PopReserve? {
      PopMoves(s, i, b);
    } else if c.Push? || c.Drain? || c.Count? {
      PileMoves(s, i, b);
    }
  }

  lemma EffectMoves(s: State, a: Action, b: nat)
    requires InRange(s) && Target(a).Some? && Enabled(s, a)
    ensures var e := EffectOf(s, a);
            Shift(s, a, b) + Occ(b, e.kept) + Occ(b, e.lost)
            == if e.born == 1 && b == s.made then 1 else 0
  {
    hide Occ, Advance;
    OccOne(b, s.made);
    if a.Step? {
      AdvanceMoves(s, a.call, b);
    }
  }

  lemma MovedCopies(s: State, a: Action, b: nat)
    requires InRange(s) && Target(a).Some? && Enabled(s, a)
    ensures Copies(Apply(s, a), b) == Copies(s, b) + if EffectOf(s, a).born == 1 && b == s.made then 1 else 0
  {
    hide Occ, EffectOf;
    var e := EffectOf(s, a);
    CallsMoved(InCall(b), s, a);
    PilesMoved(InPile(b), s, a);
    OccConcat(b, s.hands, e.kept);
    OccConcat(b, s.gone, e.lost);
    EffectMoves(s, a, b);
  }

  lemma BegunCopies(s: State, a: Action, b: nat)
    requires InRange(s) && Starts(a) && Enabled(s, a)
    ensures Copies(Apply(s, a), b) == Copies(s, b) + if a.StartForeign? && b == s.made then 1 else 0
  {
    hide Occ;
    CallsBegun(InCall(b), s, a);
    BegunOwns(s, a, b);
    if a.StartPut? { OccRemove(b, s.hands, a.at); }
  }

  lemma BegunOwns(s: State, a: Action, b: nat)
    requires |s.piles| > 1 && Starts(a) && Enabled(s, a)
    ensures InCall(b)(Begin(s, a))
            == if a.StartPut? then (if s.hands[a.at] == b then 1 else 0)
               else if a.StartForeign? && b == s.made then 1 else 0
  {
    OccOne(b, s.made);
    if a.StartPut? { OccOne(b, s.hands[a.at]); }
  }

  lemma SettledCopies(s: State, a: Action, b: nat)
    requires InRange(s) && Aside(a) && Enabled(s, a)
    ensures Copies(Apply(s, a), b) == Copies(s, b)
  {
    hide Occ;
    if a.Discard? {
      OccRemove(b, s.hands, a.at);
      OccConcat(b, s.gone, [s.hands[a.at]]);
      OccOne(b, s.hands[a.at]);
    }
  }

  lemma MadeGrows(s: State, a: Action)
    requires InRange(s) && Target(a).Some? && Enabled(s, a)
    ensures EffectOf(s, a).born <= 1 && Apply(s, a).made == s.made + EffectOf(s, a).born
  {
    assert CallInRange(s.calls[Target(a).value], |s.piles|);
  }

  lemma ApplyConserved(s: State, a: Action)
    requires InRange(s) && Conserved(s)
    ensures Conserved(Apply(s, a))
  {
    if Enabled(s, a) {
      forall b: nat ensures Copies(Apply(s, a), b) == if b < Apply(s, a).made then 1 else 0 {
        assert Copies(s, b) == if b < s.made then 1 else 0;
        if Target(a).Some? {
          MovedCopies(s, a, b);
          MadeGrows(s, a);
        } else if Starts(a) {
          BegunCopies(s, a, b);
        } else {
          SettledCopies(s, a, b);
        }
      }
    }
  }

  lemma {:induction false} ExecConserved(s: State, acts: seq<Action>)
    requires InRange(s) && Conserved(s)
    ensures InRange(Exec(s, acts)) && Conserved(Exec(s, acts))
  {
    ExecInRange(s, acts);
    if acts == [] {
    } else {
      ExecConserved(s, acts[..|acts| - 1]);
      ApplyConserved(Exec(s, acts[..|acts| - 1]), acts[|acts| - 1]);
    }
  }

  lemma NewConserved(n: nat)
    requires n > 0
    ensures InRange(New(n)) && Conserved(New(n))
  {
    forall b: nat ensures Copies(New(n), b) == 0 {
      SumZero(InPile(b), New(n).piles);
    }
  }

  /** In every reachable state each buffer ever made is in exactly one place, and nothing
      else is anywhere. */
  lemma Conservation(s: State)
    requires Reachable(s)
    ensures forall b: nat :: Copies(s, b) == if b < s.made then 1 else 0
  {
    var n: nat, acts: seq<Action> :| n > 0 && s == Exec(New(n), acts);
    NewConserved(n);
    ExecConserved(New(n), acts);
  }

  // ---- exclusivity ----

  /** Where one buffer can be found. */
  datatype Place = Pile(index: nat) | InFlight(call: nat) | Hands | Gone

  ghost predicate IsAt(s: State, b: nat, p: Place)
  {
    match p
    case Pile(i) => i < |s.piles| && b in s.piles[i]
    case InFlight(i) => i < |s.calls| && b in Owned(s.calls[i])
    case Hands => b in s.hands
    case Gone => b in s.gone
  }

  function Weigh(s: State, b: nat, p: Place): int
  {
    match p
    case Pile(i) => if i < |s.piles| then Occ(b, s.piles[i]) else 0
    case InFlight(i) => if i < |s.calls| then Occ(b, Owned(s.calls[i])) else 0
    case Hands => Occ(b, s.hands)
    case Gone => Occ(b, s.gone)
  }

  lemma TwoPlaces(s: State, b: nat, p: Place, q: Place)
    requires p != q
    ensures Weigh(s, b, p) + Weigh(s, b, q) <= Copies(s, b)
  {
    SumCovers(InPile(b), s.piles);
    SumCovers(InCall(b), s.calls);
    if p.Pile? && p.index < |s.piles| { assert InPile(b)(s.piles[p.index]) == Weigh(s, b, p); }
    if q.Pile? && q.index < |s.piles| { assert InPile(b)(s.piles[q.index]) == Weigh(s, b, q); }
    if p.InFlight? && p.call < |s.calls| { assert InCall(b)(s.calls[p.call]) == Weigh(s, b, p); }
    if q.InFlight? && q.call < |s.calls| { assert InCall(b)(s.calls[q.call]) == Weigh(s, b, q); }
    if p.Pile? && q.Pile? && p.index < |s.piles| && q.index < |s.piles| {
      if p.index < q.index { SumCoversTwo(InPile(b), s.piles, p.index, q.index); }
      else { SumCoversTwo(InPile(b), s.piles, q.index, p.index); }
    } else if p.InFlight? && q.InFlight? && p.call < |s.calls| && q.call < |s.calls| {
      if p.call < q.call { SumCoversTwo(InCall(b), s.calls, p.call, q.call); }
      else { SumCoversTwo(InCall(b), s.calls, q.call, p.call); }
    }
  }

  lemma WeighedIn(s: State, b: nat, p: Place)
    ensures IsAt(s, b, p) <==> Weigh(s, b, p) >= 1
  {
    match p
    case Pile(i) => if i < |s.piles| { OccIn(b, s.piles[i]); }
    case InFlight(i) => if i < |s.calls| { OccIn(b, Owned(s.calls[i])); }
    case Hands => OccIn(b, s.hands);
    case Gone => OccIn(b, s.gone);
  }

  /** No buffer is in two places at once, nor twice in the same place. In particular two
      leases never share a buffer, and a parked or drained buffer is out of every guard. */
  lemma Exclusivity(s: State, b: nat, p: Place, q: Place)
    requires Conserved(s) && IsAt(s, b, p) && IsAt(s, b, q)
    ensures p == q && Weigh(s, b, p) == 1 && b < s.made
  {
    WeighedIn(s, b, p);
    WeighedIn(s, b, q);
    assert Copies(s, b) == if b < s.made then 1 else 0;
    if p != q {
      TwoPlaces(s, b, p, q);
    }
    TwoPlaces(s, b, p, if p == Hands then Gone else Hands);
    assert Weigh(s, b, if p == Hands then Gone else Hands) >= 0;
  }

  /** The guard of a reachable state is the only holder of its buffer. */
  lemma GuardIsAlone(s: State, i: nat, p: Place)
    requires Reachable(s) && i < |s.calls| && s.calls[i].Held? && IsAt(s, s.calls[i].buf, p)
    ensures p == InFlight(i)
  {
    Conservation(s);
    assert s.calls[i].buf in Owned(s.calls[i]);
    Exclusivity(s, s.calls[i].buf, InFlight(i), p);
  }
}
