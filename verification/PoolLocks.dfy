/**
  The pile locks made visible. A call works through its statements: it acquires a pile's lock,
  visits that pile, releases the lock, and only then goes on; all else it does outside. What a
  call may do depends on where it is in its own code, and on the one lock it is waiting for.
 */
module PoolLocks {
  import opened Wrappers
  import opened Sums
  import opened PoolSteps

  datatype Lock = Open | Taken(holder: nat)

  /** Where a call is: between statements, in the locked statement before or after its visit. */
  datatype Section = Outside | Inside(pile: nat) | Leaving(pile: nat)

  /** One lock per pile, one section per call. */
  datatype Locked = Locked(core: State, locks: seq<Lock>, at: seq<Section>)

  datatype LockAction =
    | Acquire(call: nat)
    | Visit(call: nat)
    | Release(call: nat)
    | Plain(act: Action)

  predicate Shaped(l: Locked)
  {
    |l.core.piles| > 1 && |l.locks| == |l.core.piles| && |l.at| == |l.core.calls|
  }

  /** The pile the call's next statement visits. */
  function Wants(s: State, i: nat): Option<nat>
    requires |s.piles| > 1
  {
    if i < |s.calls| && Enabled(s, Step(i)) then PileOf(s.calls[i], |s.piles|) else None
  }

  /** The builder methods have the pool to themselves: every call has returned. */
  predicate NobodyInside(l: Locked)
  {
    forall i | 0 <= i < |l.at| :: l.at[i].Outside?
  }

  predicate CanDo(l: Locked, a: LockAction)
    requires Shaped(l)
  {
    match a
    case Acquire(i) =>
      && i < |l.at| && l.at[i].Outside? && Wants(l.core, i).Some?
      && Wants(l.core, i).value < |l.locks| && l.locks[Wants(l.core, i).value].Open?
    case Visit(i) => i < |l.at| && l.at[i].Inside?
    case Release(i) => i < |l.at| && l.at[i].Leaving? && l.at[i].pile < |l.locks|
    case Plain(act) =>
      && Enabled(l.core, act)
      && (Target(act).Some? ==> l.at[Target(act).value].Outside?)
      && (act.Step? ==> Wants(l.core, act.call).None?)
      && (act.SetCap? || act.SetReset? ==> NobodyInside(l))
  }

  function Do(l: Locked, a: LockAction): (r: Locked)
    requires Shaped(l)
    ensures Shaped(r) && |r.locks| == |l.locks|
  {
    if !CanDo(l, a) then l else
    match a
    case Acquire(i) =>
      var p := Wants(l.core, i).value;
      l.(locks := l.locks[p := Taken(i)], at := l.at[i := Inside(p)])
    case Visit(i) =>
      var next := Apply(l.core, Step(i));
      l.(core := next, at := Extended(l.at[i := Leaving(l.at[i].pile)], |next.calls|))
    case Release(i) => l.(locks := l.locks[l.at[i].pile := Open], at := l.at[i := Outside])
    case Plain(act) =>
      var next := Apply(l.core, act);
      l.(core := next, at := Extended(l.at, |next.calls|))
  }

  /** New calls begin outside. */
  function Extended(at: seq<Section>, n: nat): (r: seq<Section>)
    ensures |r| == n
  {
    seq(n, i requires 0 <= i < n => if i < |at| then at[i] else Outside)
  }

  function Run(l: Locked, acts: seq<LockAction>): (r: Locked)
    requires Shaped(l)
    ensures Shaped(r) && |r.locks| == |l.locks|
  {
    if acts == [] then l else Do(Run(l, acts[..|acts| - 1]), acts[|acts| - 1])
  }

  // ---- the lock table and the program counters agree ----

  predicate RunsUserCode(c: Call)
  {
    c.RunInit? || c.StockInit? || c.Reset? || c.Held?
  }

  /** The call is in the section that lock `p` protects. */
  predicate InSection(l: Locked, i: nat, p: nat)
  {
    i < |l.at| && (l.at[i] == Inside(p) || l.at[i] == Leaving(p))
  }

  /** A lock is taken by exactly the call that is in its section; a call inside is about to
      visit that pile, and none in a section runs user code. */
  ghost predicate Disciplined(l: Locked)
  {
    && Shaped(l) && InRange(l.core)
    && (forall i, p | 0 <= i < |l.at| && 0 <= p < |l.locks| :: l.locks[p] == Taken(i) <==> InSection(l, i, p))
    && (forall p | 0 <= p < |l.locks| && l.locks[p].Taken? :: l.locks[p].holder < |l.at|)
    && (forall i | 0 <= i < |l.at| :: SectionFits(l, i))
  }

  ghost predicate SectionFits(l: Locked, i: nat)
    requires Shaped(l) && i < |l.at|
  {
    match l.at[i]
    case Outside => true
    case Inside(p) => p < |l.locks| && Wants(l.core, i) == Some(p)
    case Leaving(p) => p < |l.locks| && !RunsUserCode(l.core.calls[i])
  }

  /** A visit touches one pile and leaves the call neither in user code nor with a guard. */
  lemma VisitEndsOutside(s: State, i: nat)
    requires InRange(s) && Wants(s, i).Some?
    ensures Wants(s, i).value < |s.piles| && !RunsUserCode(s.calls[i])
    ensures var t := Apply(s, Step(i));
            |t.calls| == |s.calls| && !RunsUserCode(t.calls[i])
            && forall j | 0 <= j < |s.calls| && j != i :: t.calls[j] == s.calls[j]
  {
    assert CallInRange(s.calls[i], |s.piles|);
  }

  /** Only the call an action targets changes. */
  lemma OthersStay(s: State, a: Action, j: nat)
    requires |s.piles| > 1 && j < |s.calls| && Target(a) != Some(j)
    ensures var t := Apply(s, a); j < |t.calls| && t.calls[j] == s.calls[j]
  {
  }

  lemma WantsStays(s: State, t: State, j: nat)
    requires |s.piles| > 1 && |t.piles| == |s.piles|
    requires j < |s.calls| && j < |t.calls| && t.calls[j] == s.calls[j]
    ensures Wants(t, j) == Wants(s, j)
  {
  }

  lemma VisitDisciplined(l: Locked, i: nat)
    requires Disciplined(l) && CanDo(l, Visit(i))
    ensures Disciplined(Do(l, Visit(i)))
  {
    var r := Do(l, Visit(i));
    assert SectionFits(l, i);
    VisitEndsOutside(l.core, i);
    ApplyInRange(l.core, Step(i));
    hide Apply;
    forall j | 0 <= j < |r.at| ensures SectionFits(r, j) {
      assert SectionFits(l, j);
      if j != i { WantsStays(l.core, r.core, j); }
    }
  }

  lemma PlainDisciplined(l: Locked, act: Action)
    requires Disciplined(l) && CanDo(l, Plain(act))
    ensures Disciplined(Do(l, Plain(act)))
  {
    hide Apply;
    var r := Do(l, Plain(act));
    ApplyInRange(l.core, act);
    CallsKept(l.core, act);
    forall j | 0 <= j < |r.at| ensures SectionFits(r, j) {
      if j < |l.at| && !l.at[j].Outside? {
        assert SectionFits(l, j);
        OthersStay(l.core, act, j);
        WantsStays(l.core, r.core, j);
      }
    }
  }

  lemma CallsKept(s: State, a: Action)
    requires |s.piles| > 1
    ensures |Apply(s, a).calls| >= |s.calls|
  {
  }

  lemma AcquireDisciplined(l: Locked, i: nat)
    requires Disciplined(l) && CanDo(l, Acquire(i))
    ensures Disciplined(Do(l, Acquire(i)))
  {
    var r := Do(l, Acquire(i));
    forall j | 0 <= j < |r.at| ensures SectionFits(r, j) { assert SectionFits(l, j); }
  }

  lemma ReleaseDisciplined(l: Locked, i: nat)
    requires Disciplined(l) && CanDo(l, Release(i))
    ensures Disciplined(Do(l, Release(i)))
  {
    var r := Do(l, Release(i));
    assert InSection(l, i, l.at[i].pile);
    forall j | 0 <= j < |r.at| ensures SectionFits(r, j) { assert SectionFits(l, j); }
  }

  lemma DoDisciplined(l: Locked, a: LockAction)
    requires Disciplined(l)
    ensures Disciplined(Do(l, a))
  {
    assert Shaped(l);
    hide Disciplined;
    if CanDo(l, a) {
      match a
      case Acquire(i) => AcquireDisciplined(l, i);
      case Visit(i) => VisitDisciplined(l, i);
      case Release(i) => ReleaseDisciplined(l, i);
      case Plain(act) => PlainDisciplined(l, act);
    }
  }

  lemma {:induction false} RunDisciplined(l: Locked, acts: seq<LockAction>)
    requires Disciplined(l)
    ensures Disciplined(Run(l, acts))
  {
    if acts == [] {
    } else {
      RunDisciplined(l, acts[..|acts| - 1]);
      DoDisciplined(Run(l, acts[..|acts| - 1]), acts[|acts| - 1]);
    }
  }

  function Unlocked(n: nat): Locked
  {
    Locked(New(n), seq(n + 1, _ => Open), [])
  }

  /** A lock is taken by a call exactly when the call is in its section. */
  predicate TableAgrees(l: Locked)
  {
    forall i, p | 0 <= i < |l.at| && 0 <= p < |l.locks| :: l.locks[p] == Taken(i) <==> InSection(l, i, p)
  }

  /** No two calls are in the same section. */
  ghost predicate MutuallyExclusive(l: Locked)
  {
    forall i: nat, j: nat, p | 0 <= p < |l.locks| && InSection(l, i, p) && InSection(l, j, p) :: i == j
  }

  /** No call holds two locks. */
  predicate NeverNested(l: Locked)
  {
    forall p, q | 0 <= p < |l.locks| && 0 <= q < |l.locks| && l.locks[p].Taken? && l.locks[p] == l.locks[q] :: p == q
  }

  /** Whoever holds a lock is not in user code, and about to visit that pile or done with it. */
  predicate HoldersVisit(l: Locked)
    requires Shaped(l)
  {
    forall p | 0 <= p < |l.locks| && l.locks[p].Taken? ::
      var i := l.locks[p].holder;
      i < |l.at| && !RunsUserCode(l.core.calls[i]) && (l.at[i].Inside? ==> Wants(l.core, i) == Some(p))
  }

  lemma DisciplineMeans(l: Locked)
    requires Disciplined(l)
    ensures TableAgrees(l) && MutuallyExclusive(l) && NeverNested(l)
  {
    forall i: nat, j: nat, p | 0 <= p < |l.locks| && InSection(l, i, p) && InSection(l, j, p) ensures i == j {
      assert l.locks[p] == Taken(i) && l.locks[p] == Taken(j);
    }
    forall p, q | 0 <= p < |l.locks| && 0 <= q < |l.locks| && l.locks[p].Taken? && l.locks[p] == l.locks[q]
      ensures p == q
    {
      var i := l.locks[p].holder;
      assert InSection(l, i, p) && InSection(l, i, q);
    }
  }

  lemma HoldersFit(l: Locked)
    requires Disciplined(l)
    ensures HoldersVisit(l)
  {
    forall p | 0 <= p < |l.locks| && l.locks[p].Taken?
      ensures var i := l.locks[p].holder;
              i < |l.at| && !RunsUserCode(l.core.calls[i]) && (l.at[i].Inside? ==> Wants(l.core, i) == Some(p))
    {
      var i := l.locks[p].holder;
      assert InSection(l, i, p) && SectionFits(l, i);
      if l.at[i].Inside? { VisitEndsOutside(l.core, i); }
    }
  }

  /** In every run from a new pool: lock table and calls agree, no two calls are in one section,
      no call holds two locks, a call visits only the pile it has locked, and no initializer,
      reset hook or lease runs under a lock. */
  lemma LockDiscipline(n: nat, acts: seq<LockAction>)
    requires n > 0
    ensures var l := Run(Unlocked(n), acts);
            TableAgrees(l) && MutuallyExclusive(l) && NeverNested(l) && HoldersVisit(l)
  {
    RunDisciplined(Unlocked(n), acts);
    var l := Run(Unlocked(n), acts);
    hide Disciplined, Run;
    DisciplineMeans(l);
    HoldersFit(l);
  }

  // ---- the atomic system is what remains when locks are forgotten ----

  function Forget(l: Locked, a: LockAction): seq<Action>
    requires Shaped(l)
  {
    if !CanDo(l, a) then [] else
    match a
    case Visit(i) => [Step(i)]
    case Plain(act) => [act]
    case _ => []
  }

  function ForgetAll(l: Locked, acts: seq<LockAction>): seq<Action>
    requires Shaped(l)
  {
    if acts == [] then [] else
    ForgetAll(l, acts[..|acts| - 1]) + Forget(Run(l, acts[..|acts| - 1]), acts[|acts| - 1])
  }

  lemma ForgetOne(l: Locked, a: LockAction)
    requires Shaped(l)
    ensures var step := Forget(l, a);
            |step| <= 1 && Do(l, a).core == if step == [] then l.core else Apply(l.core, step[0])
  {
    hide Apply;
  }

  /** Every run with locks is a run of the step system. */
  lemma {:induction false} LocksRefineSteps(l: Locked, acts: seq<LockAction>)
    requires Shaped(l)
    ensures Run(l, acts).core == Exec(l.core, ForgetAll(l, acts))
  {
    hide CanDo, Forget, Do, Apply;
    if acts == [] {
    } else {
      var n := |acts| - 1;
      ForgetOne(Run(l, acts[..n]), acts[n]);
      var before, step := ForgetAll(l, acts[..n]), Forget(Run(l, acts[..n]), acts[n]);
      LocksRefineSteps(l, acts[..n]);
      if step == [] {
        assert before + step == before;
      } else {
        ExecThen(l.core, before, step[0]);
        assert before + step == before + [step[0]];
      }
    }
  }

  // ---- progress and completion ----

  /** The pool's own steps; user code is assumed to return. */
  predicate Internal(a: LockAction)
  {
    a.Plain? ==> a.act.Step?
  }

  predicate AllOpen(l: Locked)
  {
    forall p | 0 <= p < |l.locks| :: l.locks[p].Open?
  }

  predicate Finished(l: Locked)
  {
    AllOpen(l) && AllAtRest(l.core)
  }

  lemma TakenMeansInside(l: Locked, p: nat)
    requires Disciplined(l) && p < |l.locks| && l.locks[p].Taken?
    ensures !NobodyInside(l)
  {
    assert InSection(l, l.locks[p].holder, p);
    assert !l.at[l.locks[p].holder].Outside?;
  }

  /** With nobody in a section every lock is open. */
  lemma OpenWhenOutside(l: Locked)
    requires Disciplined(l) && NobodyInside(l)
    ensures AllOpen(l)
  {
    hide Disciplined;
    forall p | 0 <= p < |l.locks| ensures l.locks[p].Open? {
      if l.locks[p].Taken? { TakenMeansInside(l, p); }
    }
  }

  /** As long as anything is unfinished, some call can take a step: no deadlock. */
  lemma SomeoneCanStep(l: Locked) returns (a: LockAction)
    requires Disciplined(l) && !Finished(l)
    ensures Internal(a) && CanDo(l, a)
  {
    if i :| 0 <= i < |l.at| && !l.at[i].Outside? {
      assert SectionFits(l, i);
      a := if l.at[i].Inside? then Visit(i) else Release(i);
    } else {
      OpenWhenOutside(l);
      var i :| 0 <= i < |l.core.calls| && !AtRest(l.core.calls[i]);
      assert CallInRange(l.core.calls[i], |l.core.piles|);
      if Wants(l.core, i).Some? {
        VisitEndsOutside(l.core, i);
        a := Acquire(i);
      } else {
        a := Plain(Step(i));
      }
    }
  }

  /** Atomic steps a call can still take. */
  function Remaining(piles: nat): Call -> int
  {
    (c: Call) => match c
      case PopShard(_) => 4
      case PopReserve(_) => 3
      case Unpark(_, _) => 1
      case CountAlloc(_) => 2
      case RunInit(_) => 1
      case Reset(_, _) => 3
      case Claim(_, _) => 2
      case Rollback(_, _) => 1
      case Push(_, _) => 1
      case StockCount => 5
      case StockInit => 4
      case Drain(k, _) => piles + 1 - k
      case Count(k, _) => piles + 1 - k
      case _ => 0
  }

  function SectionCost(at: Section): int
  {
    match at
    case Outside => 1
    case Inside(_) => 0
    case Leaving(_) => 2
  }

  function Work(l: Locked): int
  {
    3 * Sum(Remaining(|l.core.piles|), l.core.calls) + Sum(SectionCost, l.at)
  }

  lemma CallShrinks(s: State, i: nat)
    requires InRange(s) && Enabled(s, Step(i))
    ensures Remaining(|s.piles|)(EffectOf(s, Step(i)).call) <= Remaining(|s.piles|)(s.calls[i]) - 1
  {
    assert CallInRange(s.calls[i], |s.piles|);
  }

  lemma StepShrinks(s: State, i: nat)
    requires InRange(s) && Enabled(s, Step(i))
    ensures |Apply(s, Step(i)).calls| == |s.calls|
    ensures Sum(Remaining(|s.piles|), Apply(s, Step(i)).calls) <= Sum(Remaining(|s.piles|), s.calls) - 1
  {
    hide EffectOf, Remaining;
    CallShrinks(s, i);
    CallsMoved(Remaining(|s.piles|), s, Step(i));
  }

  lemma WorkShrinks(l: Locked, a: LockAction)
    requires Disciplined(l) && Internal(a) && CanDo(l, a)
    ensures Work(Do(l, a)) < Work(l)
  {
    hide Apply;
    match a
    case Acquire(i) => SumUpdate(SectionCost, l.at, i, Inside(Wants(l.core, i).value));
    case Visit(i) =>
      assert SectionFits(l, i);
      SumUpdate(SectionCost, l.at, i, Leaving(l.at[i].pile));
      StepShrinks(l.core, i);
      assert Extended(l.at[i := Leaving(l.at[i].pile)], |l.at|) == l.at[i := Leaving(l.at[i].pile)];
    case Release(i) => SumUpdate(SectionCost, l.at, i, Outside);
    case Plain(act) =>
      StepShrinks(l.core, act.call);
      assert Extended(l.at, |l.at|) == l.at;
  }

  lemma WorkPositive(l: Locked)
    requires Disciplined(l)
    ensures Work(l) >= 0
  {
    var w := Remaining(|l.core.piles|);
    forall c | c in l.core.calls ensures w(c) >= 0 {
      var i :| 0 <= i < |l.core.calls| && l.core.calls[i] == c;
      assert CallInRange(l.core.calls[i], |l.core.piles|);
    }
    SumCovers(w, l.core.calls);
    SumCovers(SectionCost, l.at);
  }

  /** Internal actions only, each of them enabled when its turn comes. */
  ghost predicate Busy(l: Locked, acts: seq<LockAction>)
    requires Shaped(l)
  {
    acts == [] || (Busy(l, acts[..|acts| - 1]) && Internal(acts[|acts| - 1])
                   && CanDo(Run(l, acts[..|acts| - 1]), acts[|acts| - 1]))
  }

  lemma NothingLeft(l: Locked, a: LockAction)
    requires Disciplined(l) && Finished(l) && Internal(a)
    ensures !CanDo(l, a)
  {
    if CanDo(l, a) && !a.Plain? && !a.Acquire? {
      assert SectionFits(l, a.call);
      assert InSection(l, a.call, l.at[a.call].pile);
    }
  }

  /** However the calls are scheduled, the pool's own steps run out after at most `Work` of
      them, and none is left exactly when every call has finished and every lock is open. */
  lemma {:induction false} BoundedCompletion(l: Locked, acts: seq<LockAction>)
    requires Disciplined(l) && Busy(l, acts)
    ensures |acts| <= Work(l) - Work(Run(l, acts)) <= Work(l)
    ensures (forall a | Internal(a) :: !CanDo(Run(l, acts), a)) <==> Finished(Run(l, acts))
  {
    hide Work, CanDo, Do, Finished;
    RunDisciplined(l, acts);
    var r := Run(l, acts);
    WorkPositive(r);
    if Finished(r) {
      forall a | Internal(a) ensures !CanDo(r, a) { NothingLeft(r, a); }
    } else {
      var a := SomeoneCanStep(r);
      assert Internal(a) && CanDo(r, a);
    }
    if acts == [] {
    } else {
      var n := |acts| - 1;
      BoundedCompletion(l, acts[..n]);
      RunDisciplined(l, acts[..n]);
      WorkShrinks(Run(l, acts[..n]), acts[n]);
    }
  }
}
