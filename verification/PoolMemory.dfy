/**
  What the buffers hold. The step system moves tokens; this layer gives every token its
  contents. Contents change only through the user code the pool calls (initializer and
  reset hook), through a guard, and through a buffer the user owns outright.
 */
module PoolMemory {
  import opened PoolSteps
  import opened PoolConservation

  /** `heap[b]` is what buffer `b` holds (or held, once destroyed). */
  datatype Mem<V> = Mem(ctl: State, heap: seq<V>)

  /** `v` is what the initializer yields, what the reset hook leaves, or what the user
      stores; the actions that run no such code ignore it. */
  datatype MemAction<V> =
    | Run(act: Action, v: V)
    | Write(call: nat, v: V)       // through the guard
    | WriteOwned(at: nat, v: V)    // to a buffer in the user's hands

  ghost predicate Sound<V>(m: Mem<V>)
  {
    InRange(m.ctl) && Conserved(m.ctl) && |m.heap| == m.ctl.made
  }

  /** The action lets a reset hook finish. */
  predicate Resets(s: State, a: Action)
  {
    a.Step? && a.call < |s.calls| && s.calls[a.call].Reset? && Enabled(s, a)
  }

  function ApplyMem<V>(m: Mem<V>, a: MemAction<V>): (r: Mem<V>)
    requires |m.ctl.piles| > 1
    ensures |r.ctl.piles| == |m.ctl.piles|
  {
    match a
    case Run(act, v) =>
      var t := Apply(m.ctl, act);
      if t.made > m.ctl.made then Mem(t, m.heap + [v])
      else if Resets(m.ctl, act) && m.ctl.calls[act.call].buf < |m.heap| then
        Mem(t, m.heap[m.ctl.calls[act.call].buf := v])
      else Mem(t, m.heap)
    case Write(i, v) =>
      if i < |m.ctl.calls| && m.ctl.calls[i].Held? && m.ctl.calls[i].buf < |m.heap| then
        m.(heap := m.heap[m.ctl.calls[i].buf := v])
      else m
    case WriteOwned(at, v) =>
      if at < |m.ctl.hands| && m.ctl.hands[at] < |m.heap| then m.(heap := m.heap[m.ctl.hands[at] := v]) else m
  }

  function ExecMem<V>(m: Mem<V>, acts: seq<MemAction<V>>): Mem<V>
    requires |m.ctl.piles| > 1
    ensures |ExecMem(m, acts).ctl.piles| == |m.ctl.piles|
  {
    if acts == [] then m else ApplyMem(ExecMem(m, acts[..|acts| - 1]), acts[|acts| - 1])
  }

  lemma MadeSteps(s: State, a: Action)
    requires InRange(s)
    ensures s.made <= Apply(s, a).made <= s.made + 1
    ensures Resets(s, a) ==> Apply(s, a).made == s.made
  {
    if Enabled(s, a) && Target(a).Some? {
      MadeGrows(s, a);
      assert CallInRange(s.calls[Target(a).value], |s.piles|);
    }
  }

  lemma ApplySound<V>(m: Mem<V>, a: MemAction<V>)
    requires Sound(m)
    ensures Sound(ApplyMem(m, a))
  {
    if a.Run? {
      ApplyInRange(m.ctl, a.act);
      ApplyConserved(m.ctl, a.act);
      MadeSteps(m.ctl, a.act);
    }
  }

  lemma {:induction false} ExecSound<V>(m: Mem<V>, acts: seq<MemAction<V>>)
    requires Sound(m)
    ensures Sound(ExecMem(m, acts))
  {
    if acts == [] {
    } else {
      ExecSound(m, acts[..|acts| - 1]);
      ApplySound(ExecMem(m, acts[..|acts| - 1]), acts[|acts| - 1]);
    }
  }

  lemma NewSound<V>(n: nat)
    requires n > 0
    ensures Sound(Mem<V>.Mem(New(n), []))
  {
    NewConserved(n);
  }

  // ---- contents never decide what the pool does ----

  function Control<V>(acts: seq<MemAction<V>>): seq<Action>
  {
    if acts == [] then [] else
    Control(acts[..|acts| - 1]) + if acts[|acts| - 1].Run? then [acts[|acts| - 1].act] else []
  }

  /** Forgetting the contents of a run gives a run of the pool. */
  lemma {:induction false} ControlIndependent<V>(m: Mem<V>, acts: seq<MemAction<V>>)
    requires |m.ctl.piles| > 1
    ensures ExecMem(m, acts).ctl == Exec(m.ctl, Control(acts))
  {
    if acts == [] {
    } else {
      var n := |acts| - 1;
      ControlIndependent(m, acts[..n]);
      if acts[n].Run? {
        ExecThen(m.ctl, Control(acts[..n]), acts[n].act);
      } else {
        assert Control(acts) == Control(acts[..n]);
      }
    }
  }

  // ---- a lease owns its contents ----

  /** While a guard is out, nothing that happens through any other call, and nothing the
      user does with other buffers, changes what it holds. */
  lemma LeaseOwnsContents<V>(m: Mem<V>, i: nat, a: MemAction<V>)
    requires Sound(m) && i < |m.ctl.calls| && m.ctl.calls[i].Held?
    requires !(a.Write? && a.call == i)
    ensures var b := m.ctl.calls[i].buf;
            b < |m.heap| && b < |ApplyMem(m, a).heap| && ApplyMem(m, a).heap[b] == m.heap[b]
  {
    var b := m.ctl.calls[i].buf;
    var here := InFlight(i);
    Exclusivity(m.ctl, b, here, here);
    match a
    case Run(act, v) =>
      MadeSteps(m.ctl, act);
      if Resets(m.ctl, act) {
        var c := m.ctl.calls[act.call].buf;
        if c == b { Exclusivity(m.ctl, b, here, InFlight(act.call)); }
      }
    case Write(j, v) =>
      if j < |m.ctl.calls| && m.ctl.calls[j].Held? && m.ctl.calls[j].buf == b {
        Exclusivity(m.ctl, b, here, InFlight(j));
      }
    case WriteOwned(at, v) =>
      if at < |m.ctl.hands| && m.ctl.hands[at] == b { Exclusivity(m.ctl, b, here, Hands); }
  }

  /** What the users write is there: through a guard, or in a buffer they own; and no other
      buffer changes. */
  lemma WritesTakeEffect<V>(m: Mem<V>, a: MemAction<V>, b: nat)
    requires Sound(m)
    requires a.Write? ==> a.call < |m.ctl.calls| && m.ctl.calls[a.call].Held? && m.ctl.calls[a.call].buf == b
    requires a.WriteOwned? ==> a.at < |m.ctl.hands| && m.ctl.hands[a.at] == b
    requires !a.Run?
    ensures var t := ApplyMem(m, a); b < |m.heap| && t == m.(heap := m.heap[b := a.v])
  {
    var here := if a.Write? then InFlight(a.call) else Hands;
    assert IsAt(m.ctl, b, here);
    Exclusivity(m.ctl, b, here, here);
  }
}
