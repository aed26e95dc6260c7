/**
  The shared pool as a step system: any number of calls in flight, interleaved at the
  granularity of one lock section or one atomic operation (src/buffer.rs).

  A buffer is a token; what it holds lives in module PoolMemory, because no decision of
  the pool depends on contents. `calls` has one entry per activation of the public API and
  only ever grows, so a thread whose initializer or reset hook re-enters the pool simply
  has several entries. A `get` entry lives on as the guard it returned and, once the guard
  is dropped, as the return path: one entry is one lease from start to end.

  `Apply` is total: an action that is not enabled leaves the state alone, so every
  sequence of actions is a run.
 */
module PoolSteps {
  import opened Wrappers
  import opened Sums

  /** `parked` exists only while a cap is installed. It is an `int` so that a `fetch_sub`
      below zero would be visible. */
  datatype Cap = Uncapped | Capped(max: nat, parked: int)

  datatype Call =
    | PopShard(shard: nat)                 // lease counted; own shard not tried yet
    | PopReserve(shard: nat)               // own shard was empty
    | Unpark(shard: nat, buf: nat)         // popped; counter not yet adjusted
    | CountAlloc(shard: nat)               // both piles were empty
    | RunInit(shard: nat)                     // allocation counted; initializer running
    | Held(shard: nat, buf: nat)           // the guard is with the user
    | Reset(pile: nat, buf: nat)           // returning: reset hook running
    | Claim(pile: nat, buf: nat)           // about to claim a slot under the cap
    | Rollback(pile: nat, buf: nat)        // refused; claim not yet given back
    | Push(pile: nat, buf: nat)            // granted; not yet pushed
    | StockCount                           // one prefill iteration: about to count
    | StockInit                            // one prefill iteration: initializer running
    | Drain(next: nat, taken: seq<nat>)    // piles below `next` swept; past the last: subtract
    | Drained(taken: seq<nat>)             // drain returned; vector not yet picked up
    | Count(next: nat, seen: nat)          // count_idle: piles below `next` counted
    | Counted(seen: nat)                   // count_idle returned
    | Done

  /** What has happened so far; no step ever reads it. `dropped`, `detached` and `unwound`
      say how leases ended: by their guard's drop, by `into_inner`, in the initializer; `discarded`
      counts the buffers their owners destroyed. */
  datatype Log = Log(served: nat, stocked: nat, foreign: nat, initPanics: nat,
                     returned: nat, lost: nat, granted: nat, refused: nat,
                     dropped: nat, detached: nat, unwound: nat, discarded: nat)

  /** The last pile is the reserve, the others are the shards. `hands` holds buffers owned
      by the user, `gone` the destroyed ones, `made` the number of buffers ever created. */
  datatype State = State(piles: seq<seq<nat>>, cap: Cap, hook: bool, calls: seq<Call>,
                         hands: seq<nat>, gone: seq<nat>, made: nat,
                         leases: nat, allocations: nat, log: Log)

  datatype Action =
    | StartGet(tid: nat)
    | StartPut(tid: nat, at: nat)          // put a buffer the user already owns
    | StartForeign(tid: nat)               // put a buffer produced independently
    | StartStock                           // one iteration of prefill
    | StartDrain
    | StartCount
    | Step(call: nat)                      // next atomic step of that call
    | Panic(call: nat)                     // the user code it is running unwinds
    | Drop(call: nat, tid: nat)            // guard dropped on thread `tid`
    | Detach(call: nat)                    // into_inner
    | Collect(call: nat)                   // the caller picks the result up
    | Discard(at: nat)                     // the user destroys a buffer they own
    | SetCap(max: Option<nat>)             // with_max_idle; None is usize::MAX
    | SetReset                             // with_reset

  function New(shards: nat): State
  {
    State(seq(shards + 1, _ => []), Uncapped, false, [], [], [], 0, 0, 0, Log(0, 0, 0, 0, 0, 0, 0, 0, 0, 0, 0, 0))
  }

  function Shards(s: State): nat
    requires |s.piles| > 0
  {
    |s.piles| - 1
  }

  /** The sticky shard of a thread; module ShardIndex proves this is what the mask computes. */
  function ShardOf(s: State, tid: nat): nat
    requires |s.piles| > 1
  {
    tid % Shards(s)
  }

  // ---- what a call owns and whether it is at rest ----

  function Owned(c: Call): seq<nat>
  {
    match c
    case Unpark(_, b) => [b]
    case Held(_, b) => [b]
    case Reset(_, b) => [b]
    case Claim(_, b) => [b]
    case Rollback(_, b) => [b]
    case Push(_, b) => [b]
    case Drain(_, t) => t
    case Drained(t) => t
    case _ => []
  }

  /** No step of the pool's own code is pending. */
  predicate AtRest(c: Call)
  {
    c.Held? || c.Drained? || c.Counted? || c.Done?
  }

  /** No step of the pool's own code is pending in any call; guards may be out. */
  predicate AllAtRest(s: State)
  {
    forall i | 0 <= i < |s.calls| :: AtRest(s.calls[i])
  }

  /** No call is running and no guard is out: what the exclusive access of the builder
      methods implies. */
  predicate Quiet(s: State)
  {
    forall i | 0 <= i < |s.calls| :: AtRest(s.calls[i]) && !s.calls[i].Held?
  }

  predicate CallInRange(c: Call, piles: nat)
  {
    match c
    case PopShard(sh) => sh + 1 < piles
    case PopReserve(sh) => sh + 1 < piles
    case Unpark(sh, _) => sh + 1 < piles
    case CountAlloc(sh) => sh + 1 < piles
    case RunInit(sh) => sh + 1 < piles
    case Held(sh, _) => sh + 1 < piles
    case Reset(p, _) => p < piles
    case Claim(p, _) => p < piles
    case Rollback(p, _) => p < piles
    case Push(p, _) => p < piles
    case Drain(k, _) => k <= piles
    case Count(k, _) => k <= piles
    case _ => true
  }

  ghost predicate InRange(s: State)
  {
    && |s.piles| > 1
    && forall i | 0 <= i < |s.calls| :: CallInRange(s.calls[i], |s.piles|)
  }

  // ---- the atomic steps ----

  /** What one action does to the state around the call it moves. */
  datatype Effect = Effect(
    call: Call,         // what the call becomes
    pile: seq<nat>,     // new contents of the pile it touches, if it touches one
    parked: int,        // amount added to the capped pool's counter
    born: nat,          // buffers created
    lost: seq<nat>,     // buffers destroyed
    kept: seq<nat>,     // buffers handed to the user
    counted: nat,       // amount added to the allocation counter
    log: Log)

  /** Nothing but the call changes. */
  function Becomes(s: State, c: Call): Effect
  {
    Effect(c, [], 0, 0, [], [], 0, s.log)
  }

  /** The return path after the hook decision: the start of `recycle` and `stock_reserve`. */
  function Return(hook: bool, pile: nat, b: nat): Call
  {
    if hook then Reset(pile, b) else Claim(pile, b)
  }

  function Pop(s: State, pile: seq<nat>, shard: nat): Effect
    requires pile != []
  {
    var n := |pile| - 1;
    Becomes(s, Unpark(shard, pile[n])).(pile := pile[..n], log := s.log.(served := s.log.served + 1))
  }

  predicate Full(cap: Cap)
  {
    cap.Capped? && cap.parked >= cap.max
  }

  /** The next atomic step of a running call. */
  function Advance(s: State, c: Call): Effect
    requires |s.piles| > 0 && CallInRange(c, |s.piles|)
  {
    match c
    case PopShard(sh) =>
      if s.piles[sh] == [] then Becomes(s, PopReserve(sh)) else Pop(s, s.piles[sh], sh)
    case PopReserve(sh) =>
      var reserve := s.piles[|s.piles| - 1];
      if reserve == [] then Becomes(s, CountAlloc(sh)) else Pop(s, reserve, sh)
    case Unpark(sh, b) => Becomes(s, Held(sh, b)).(parked := -1)
    case CountAlloc(sh) => Becomes(s, RunInit(sh)).(counted := 1)
    case RunInit(sh) => Becomes(s, Held(sh, s.made)).(born := 1)
    case Reset(p, b) => Becomes(s, Claim(p, b))
    case Claim(p, b) =>
      if Full(s.cap) then
        Becomes(s, Rollback(p, b)).(parked := 1, log := s.log.(refused := s.log.refused + 1))
      else
        Becomes(s, Push(p, b)).(parked := 1, log := s.log.(granted := s.log.granted + 1))
    case Rollback(_, b) => Becomes(s, Done).(parked := -1, lost := [b])
    case Push(p, b) => Becomes(s, Done).(pile := s.piles[p] + [b])
    case StockCount =>
      Becomes(s, StockInit).(counted := 1, log := s.log.(stocked := s.log.stocked + 1))
    case StockInit =>
      var reserve: nat := |s.piles| - 1;
      Becomes(s, Return(s.hook, reserve, s.made)).(born := 1, log := s.log.(returned := s.log.returned + 1))
    case Drain(k, taken) =>
      if k < |s.piles| then
        Becomes(s, Drain(k + 1, taken + s.piles[k])).(pile := [])
      else
        Becomes(s, Drained(taken)).(parked := -|taken|)
    case Count(k, n) =>
      if k < |s.piles| then
        Becomes(s, Count(k + 1, n + |s.piles[k]|)).(pile := s.piles[k])
      else
        Becomes(s, Counted(n))
    case _ => Becomes(s, c)
  }

  /** User code unwinds: an initializer leaves nothing behind, a reset hook takes its
      buffer with it before any slot was claimed. */
  function Unwind(s: State, c: Call): Effect
  {
    if c.Reset? then
      Becomes(s, Done).(lost := [c.buf], log := s.log.(lost := s.log.lost + 1))
    else
      Becomes(s, Done).(log := s.log.(initPanics := s.log.initPanics + 1,
                                      unwound := s.log.unwound + if c.RunInit? then 1 else 0))
  }

  /** The call an action moves, for the actions that move an existing call. */
  function Target(a: Action): Option<nat>
  {
    match a
    case Step(i) => Some(i)
    case Panic(i) => Some(i)
    case Drop(i, _) => Some(i)
    case Detach(i) => Some(i)
    case Collect(i) => Some(i)
    case _ => None
  }

  /** The pile a call's next step touches, if it touches one. */
  function PileOf(c: Call, piles: nat): Option<nat>
    requires piles > 1
  {
    match c
    case PopShard(sh) => Some(sh)
    case PopReserve(_) => Some((piles - 1) as nat)
    case Push(p, _) => Some(p)
    case Drain(k, _) => if k < piles then Some(k) else None
    case Count(k, _) => if k < piles then Some(k) else None
    case _ => None
  }

  /** Counting touches a pile without changing it; a pop that misses leaves it empty. */
  function EffectOf(s: State, a: Action): Effect
    requires |s.piles| > 1 && Target(a).Some? && Enabled(s, a)
  {
    var c := s.calls[Target(a).value];
    match a
    case Step(_) => Advance(s, c)
    case Panic(_) => Unwind(s, c)
    case Drop(_, tid) =>
      Becomes(s, Return(s.hook, ShardOf(s, tid), c.buf)).(
        log := s.log.(returned := s.log.returned + 1, dropped := s.log.dropped + 1))
    case Detach(_) => Becomes(s, Done).(kept := [c.buf], log := s.log.(detached := s.log.detached + 1))
    case _ => Becomes(s, Done).(kept := Owned(c))
  }

  function AddParked(cap: Cap, n: int): Cap
  {
    if cap.Capped? then cap.(parked := cap.parked + n) else cap
  }

  function PileTouched(s: State, a: Action): Option<nat>
    requires |s.piles| > 1
  {
    if a.Step? && a.call < |s.calls| then PileOf(s.calls[a.call], |s.piles|) else None
  }

  function Commit(s: State, i: nat, p: Option<nat>, e: Effect): State
    requires i < |s.calls| && (p.Some? ==> p.value < |s.piles|)
  {
    State(if p.Some? then s.piles[p.value := e.pile] else s.piles,
          AddParked(s.cap, e.parked), s.hook, s.calls[i := e.call],
          s.hands + e.kept, s.gone + e.lost, s.made + e.born,
          s.leases, s.allocations + e.counted, e.log)
  }

  /** The entry a start action appends. */
  function Begin(s: State, a: Action): Call
    requires |s.piles| > 1 && Enabled(s, a)
  {
    match a
    case StartGet(tid) => PopShard(ShardOf(s, tid))
    case StartPut(tid, at) => Return(s.hook, ShardOf(s, tid), s.hands[at])
    case StartForeign(tid) => Return(s.hook, ShardOf(s, tid), s.made)
    case StartDrain => Drain(0, [])
    case StartCount => Count(0, 0)
    case _ => StockCount
  }

  function Append(s: State, a: Action, c: Call): State
    requires Enabled(s, a)
  {
    match a
    case StartGet(_) => s.(calls := s.calls + [c], leases := s.leases + 1)
    case StartPut(_, at) =>
      s.(calls := s.calls + [c], hands := s.hands[..at] + s.hands[at + 1..],
         log := s.log.(returned := s.log.returned + 1))
    case StartForeign(_) =>
      s.(calls := s.calls + [c], made := s.made + 1,
         log := s.log.(returned := s.log.returned + 1, foreign := s.log.foreign + 1))
    case _ => s.(calls := s.calls + [c])
  }

  /** Buffers parked in the piles. */
  function Idle(piles: seq<seq<nat>>): int
  {
    Sum(Length<nat>, piles)
  }

  predicate Enabled(s: State, a: Action)
  {
    match a
    case StartPut(_, at) => at < |s.hands|
    case Discard(at) => at < |s.hands|
    case Step(i) => i < |s.calls| && CallInRange(s.calls[i], |s.piles|) && !AtRest(s.calls[i])
    case Panic(i) => i < |s.calls| && (s.calls[i].RunInit? || s.calls[i].StockInit? || s.calls[i].Reset?)
    case Drop(i, _) => i < |s.calls| && s.calls[i].Held?
    case Detach(i) => i < |s.calls| && s.calls[i].Held?
    case Collect(i) => i < |s.calls| && (s.calls[i].Drained? || s.calls[i].Counted?)
    case SetCap(_) => Quiet(s)
    case SetReset => Quiet(s)
    case _ => true
  }

  /** Actions of the users that no call is part of. */
  predicate Aside(a: Action)
  {
    a.SetCap? || a.SetReset? || a.Discard?
  }

  function Settle(s: State, a: Action): State
    requires Aside(a) && Enabled(s, a)
  {
    match a
    case SetCap(max) => s.(cap := if max.Some? then Capped(max.value, Idle(s.piles)) else Uncapped)
    case SetReset => s.(hook := true)
    case Discard(at) =>
      s.(hands := s.hands[..at] + s.hands[at + 1..], gone := s.gone + [s.hands[at]],
         log := s.log.(discarded := s.log.discarded + 1))
  }

  function Apply(s: State, a: Action): (t: State)
    requires |s.piles| > 1
    ensures |t.piles| == |s.piles|
  {
    if !Enabled(s, a) then s
    else if Aside(a) then Settle(s, a)
    else if Target(a).Some? then Commit(s, Target(a).value, PileTouched(s, a), EffectOf(s, a))
    else Append(s, a, Begin(s, a))
  }

  function Exec(s: State, acts: seq<Action>): State
    requires |s.piles| > 1
    ensures |Exec(s, acts).piles| == |s.piles|
  {
    if acts == [] then s else Apply(Exec(s, acts[..|acts| - 1]), acts[|acts| - 1])
  }

  /** The states the pool can be in: any builder calls and any interleaving since `new`. */
  ghost predicate Reachable(s: State)
  {
    exists n: nat, acts: seq<Action> :: n > 0 && s == Exec(New(n), acts)
  }

  // ---- one step keeps every index in range ----

  lemma MovedInRange(s: State, a: Action)
    requires InRange(s) && Target(a).Some? && Enabled(s, a)
    ensures CallInRange(EffectOf(s, a).call, |s.piles|)
  {
    var c := s.calls[Target(a).value];
    assert CallInRange(c, |s.piles|);
    if a.Step? {
      assert CallInRange(Advance(s, c).call, |s.piles|);
    }
  }

  lemma ApplyInRange(s: State, a: Action)
    requires InRange(s)
    ensures InRange(Apply(s, a))
  {
    if Enabled(s, a) && Target(a).Some? {
      MovedInRange(s, a);
    } else if Enabled(s, a) && !Aside(a) {
      assert CallInRange(Begin(s, a), |s.piles|);
    }
  }

  lemma {:induction false} ReachableInRange(s: State)
    requires Reachable(s)
    ensures InRange(s)
  {
    var n: nat, acts: seq<Action> :| n > 0 && s == Exec(New(n), acts);
    ExecInRange(New(n), acts);
  }

  lemma {:induction false} ExecInRange(s: State, acts: seq<Action>)
    requires InRange(s)
    ensures InRange(Exec(s, acts))
  {
    if acts == [] {
    } else {
      ExecInRange(s, acts[..|acts| - 1]);
      ApplyInRange(Exec(s, acts[..|acts| - 1]), acts[|acts| - 1]);
    }
  }

  lemma ExecThen(s: State, acts: seq<Action>, a: Action)
    requires |s.piles| > 1
    ensures Exec(s, acts + [a]) == Apply(Exec(s, acts), a)
  {
    assert (acts + [a])[..|acts|] == acts;
  }

  lemma ExecTwo(s: State, a: Action, b: Action)
    requires |s.piles| > 1
    ensures Exec(s, [a, b]) == Apply(Apply(s, a), b)
  {
    ExecThen(s, [], a);
    ExecThen(s, [a], b);
    assert [] + [a] == [a] && [a] + [b] == [a, b];
  }

  /** A run that starts in a reachable state stays among them. */
  lemma ReachableOn(s: State, acts: seq<Action>)
    requires Reachable(s) && |s.piles| > 1
    ensures Reachable(Exec(s, acts))
  {
    var n: nat, before: seq<Action> :| n > 0 && s == Exec(New(n), before);
    ExecConcat(New(n), before, acts);
    assert Exec(New(n), before + acts) == Exec(s, acts);
  }

  /** Runs compose. */
  lemma {:induction false} ExecConcat(s: State, xs: seq<Action>, ys: seq<Action>)
    requires |s.piles| > 1
    ensures Exec(s, xs + ys) == Exec(Exec(s, xs), ys)
  {
    if ys == [] {
      assert xs + ys == xs;
    } else {
      var n := |ys| - 1;
      assert (xs + ys)[..|xs + ys| - 1] == xs + ys[..n];
      ExecConcat(s, xs, ys[..n]);
    }
  }

  // ---- how one action changes a sum over calls or piles ----

  function PileChange(w: seq<nat> -> int, s: State, a: Action): int
    requires InRange(s) && Target(a).Some? && Enabled(s, a)
  {
    match PileTouched(s, a)
    case Some(p) => w(EffectOf(s, a).pile) - w(s.piles[p])
    case None => 0
  }

  lemma CallsMoved(w: Call -> int, s: State, a: Action)
    requires InRange(s) && Target(a).Some? && Enabled(s, a)
    ensures Sum(w, Apply(s, a).calls)
            == Sum(w, s.calls) - w(s.calls[Target(a).value]) + w(EffectOf(s, a).call)
  {
    SumUpdate(w, s.calls, Target(a).value, EffectOf(s, a).call);
  }

  lemma PilesMoved(w: seq<nat> -> int, s: State, a: Action)
    requires InRange(s) && Target(a).Some? && Enabled(s, a)
    ensures Sum(w, Apply(s, a).piles) == Sum(w, s.piles) + PileChange(w, s, a)
  {
    match PileTouched(s, a)
    case Some(p) => SumUpdate(w, s.piles, p, EffectOf(s, a).pile);
    case None =>
  }

  predicate Starts(a: Action)
  {
    Target(a).None? && !Aside(a)
  }

  // ---- what one action leaves alone ----

  lemma Disabled(s: State, a: Action)
    requires |s.piles| > 1 && !Enabled(s, a)
    ensures Apply(s, a) == s
  {
  }

  lemma MovedState(s: State, a: Action)
    requires InRange(s) && Target(a).Some? && Enabled(s, a)
    ensures var t, e := Apply(s, a), EffectOf(s, a);
            && t.cap == AddParked(s.cap, e.parked) && t.hook == s.hook
            && t.hands == s.hands + e.kept && t.gone == s.gone + e.lost && t.made == s.made + e.born
            && t.leases == s.leases && t.allocations == s.allocations + e.counted && t.log == e.log
  {
  }

  lemma BegunState(s: State, a: Action)
    requires |s.piles| > 1 && Starts(a) && Enabled(s, a)
    ensures var t := Apply(s, a);
            && t.piles == s.piles && t.cap == s.cap && t.hook == s.hook
            && t.gone == s.gone && t.allocations == s.allocations
            && |t.hands| == |s.hands| - (if a.StartPut? then 1 else 0)
            && t.made == s.made + (if a.StartForeign? then 1 else 0)
            && t.leases == s.leases + (if a.StartGet? then 1 else 0)
            && t.log == s.log.(foreign := s.log.foreign + (if a.StartForeign? then 1 else 0),
                               returned := s.log.returned + (if a.StartPut? || a.StartForeign? then 1 else 0))
  {
  }

  lemma SettledState(s: State, a: Action)
    requires |s.piles| > 1 && Aside(a) && Enabled(s, a)
    ensures var t := Apply(s, a);
            && t == s.(cap := t.cap, hook := t.hook, hands := t.hands, gone := t.gone, log := t.log)
            && t.log == s.log.(discarded := s.log.discarded + (if a.Discard? then 1 else 0))
            && |t.hands| == |s.hands| - (if a.Discard? then 1 else 0)
            && |t.gone| == |s.gone| + (if a.Discard? then 1 else 0)
            && (!a.SetCap? ==> t.cap == s.cap)
  {
  }

  lemma CallsBegun(w: Call -> int, s: State, a: Action)
    requires |s.piles| > 1 && Starts(a) && Enabled(s, a)
    ensures Sum(w, Apply(s, a).calls) == Sum(w, s.calls) + w(Begin(s, a))
  {
    SumAppend(w, s.calls, Begin(s, a));
  }
}
