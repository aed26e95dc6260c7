/**
  How many buffers a thread-local pool allocates: one per thread that ever leases, as long
  as every lease is parked again on its own thread before that thread leases again.
  The count is read off what callers see, through the plain map of LocalRefinement.
 */
module LocalAllocation {
  import opened LocalSteps
  import opened LocalRefinement

  /** Leases of pool `p` that found nothing parked and ran the initializer. */
  function Allocations(evs: seq<Event>, p: nat): nat
  {
    if evs == [] then 0 else
    var ev := evs[|evs| - 1];
    Allocations(evs[..|evs| - 1], p) + if ev.Took? && ev.pool == p && ev.got.None? then 1 else 0
  }

  /** Threads that have leased from pool `p`. */
  function Lessees(evs: seq<Event>, p: nat): set<nat>
  {
    if evs == [] then {} else
    var ev := evs[|evs| - 1];
    Lessees(evs[..|evs| - 1], p) + if ev.Took? && ev.pool == p then {ev.thread} else {}
  }

  /** The last thing thread `t` did with pool `p` was to park. */
  function ParkedLast(evs: seq<Event>, t: nat, p: nat): bool
  {
    if evs == [] then false else
    match evs[|evs| - 1]
    case Parked(u, q, _) => if u == t && q == p then true else ParkedLast(evs[..|evs| - 1], t, p)
    case Took(u, q, _) => if u == t && q == p then false else ParkedLast(evs[..|evs| - 1], t, p)
    case _ => ParkedLast(evs[..|evs| - 1], t, p)
  }

  /** No nesting, migration, detaching or manual puts on pool `p`: a thread leases for the
      first time or after parking, and parks only what it has leased. */
  predicate TakesTurns(evs: seq<Event>, ev: Event, p: nat)
  {
    match ev
    case Took(t, q, _) => q == p ==> t !in Lessees(evs, p) || ParkedLast(evs, t, p)
    case Parked(t, q, _) => q == p ==> t in Lessees(evs, p) && !ParkedLast(evs, t, p)
    case Died(q) => q != p
    case _ => true
  }

  predicate TurnTaking(evs: seq<Event>, p: nat)
  {
    evs == [] || (TurnTaking(evs[..|evs| - 1], p) && TakesTurns(evs[..|evs| - 1], evs[|evs| - 1], p))
  }

  /** Threads that have exited. */
  function Gone(evs: seq<Event>): set<nat>
  {
    if evs == [] then {} else
    Gone(evs[..|evs| - 1]) + if evs[|evs| - 1].Left? then {evs[|evs| - 1].thread} else {}
  }

  /** A thread that has exited shows nothing any more. */
  predicate FromTheLiving(evs: seq<Event>)
  {
    evs == [] ||
    (FromTheLiving(evs[..|evs| - 1])
     && (evs[|evs| - 1].Took? || evs[|evs| - 1].Parked? ==> evs[|evs| - 1].thread !in Gone(evs[..|evs| - 1])))
  }

  /** Whoever shows something has not exited, unless that is what it shows. */
  lemma ShownByTheLiving(s: State, a: Action)
    requires Shows(s, a) != []
    ensures |Shows(s, a)| == 1
    ensures var ev := Shows(s, a)[0];
            && (ev.Took? || ev.Parked? ==> ev.thread < |s.threads| && !s.threads[ev.thread].pc.Exited?)
            && (ev.Left? ==> ev.thread < |s.threads| && |Apply(s, a).threads| == |s.threads|
                             && Apply(s, a).threads[ev.thread].pc.Exited?)
  {
  }

  /** Every thread that has left has exited for good. */
  ghost predicate GoneAreExited(s: State, evs: seq<Event>)
  {
    forall t | t in Gone(evs) :: t < |s.threads| && s.threads[t].pc.Exited?
  }

  lemma GoneStay(s: State, a: Action, evs: seq<Event>)
    requires FromTheLiving(evs) && GoneAreExited(s, evs)
    ensures FromTheLiving(evs + Shows(s, a)) && GoneAreExited(Apply(s, a), evs + Shows(s, a))
  {
    hide Apply, Shows;
    ExitedStays(s, a);
    var shown := Shows(s, a);
    if shown == [] {
      assert evs + shown == evs;
    } else {
      ShownByTheLiving(s, a);
      assert (evs + shown)[..|evs + shown| - 1] == evs;
      forall t | t in Gone(evs + shown) ensures t < |Apply(s, a).threads| && Apply(s, a).threads[t].pc.Exited? {
        assert t in Gone(evs) || (shown[0].Left? && t == shown[0].thread);
      }
    }
  }

  lemma {:induction false} TraceFromTheLiving(acts: seq<Action>)
    ensures FromTheLiving(Trace(START, acts)) && GoneAreExited(Exec(START, acts), Trace(START, acts))
  {
    if acts == [] {
    } else {
      hide Apply, Shows, FromTheLiving, GoneAreExited;
      var n := |acts| - 1;
      TraceFromTheLiving(acts[..n]);
      GoneStay(Exec(START, acts[..n]), acts[n], Trace(START, acts[..n]));
    }
  }

  lemma ExitedStays(s: State, a: Action)
    ensures |s.threads| <= |Apply(s, a).threads|
    ensures forall t | 0 <= t < |s.threads| && s.threads[t].pc.Exited? :: Apply(s, a).threads[t].pc.Exited?
  {
  }

  /** The map has a buffer of thread `t` exactly when it parked last and has not exited, and
      only lessees ever park. */
  lemma {:induction false} TurnsInTheMap(evs: seq<Event>, p: nat, t: nat)
    requires TurnTaking(evs, p) && FromTheLiving(evs)
    ensures At(EagerRun(evs), t, p).Some? <==> ParkedLast(evs, t, p) && t !in Gone(evs)
    ensures ParkedLast(evs, t, p) ==> t in Lessees(evs, p)
  {
    if evs == [] {
    } else {
      TurnsInTheMap(evs[..|evs| - 1], p, t);
    }
  }

  lemma {:induction false} TurnsCount(evs: seq<Event>, p: nat)
    requires TurnTaking(evs, p) && Explained(evs) && FromTheLiving(evs)
    ensures Allocations(evs, p) == |Lessees(evs, p)|
  {
    if evs == [] {
    } else {
      var before, ev := evs[..|evs| - 1], evs[|evs| - 1];
      TurnsCount(before, p);
      if ev.Took? && ev.pool == p {
        TurnsInTheMap(before, p, ev.thread);
        if ev.thread in Lessees(before, p) {
          assert Lessees(evs, p) == Lessees(before, p);
        }
      } else {
        assert Lessees(evs, p) == Lessees(before, p);
      }
    }
  }

  /** In every run of the lazy system in which pool `p` lives and its leases take turns, the
      initializer has run exactly once per thread that ever leased. */
  lemma AllocationsAreLessees(acts: seq<Action>, p: nat)
    requires TurnTaking(Trace(START, acts), p)
    ensures Allocations(Trace(START, acts), p) == |Lessees(Trace(START, acts), p)|
  {
    LazyIsEager(acts);
    TraceFromTheLiving(acts);
    TurnsCount(Trace(START, acts), p);
  }
}
