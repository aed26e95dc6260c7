/**
  Pooling is invisible to a lease when the reset hook restores what the initializer yields
  (src/buffer.rs:280-285, examples/non_static_init.rs).
 */
module PoolFresh {
  import opened Wrappers
  import opened PoolSteps
  import opened PoolConservation
  import opened PoolMemory

  /** Initializers yield `first`, and the reset hook turns every value into `first`. What
      is put from outside, and what users write, is arbitrary. */
  predicate Restores<V(==)>(m: Mem<V>, a: MemAction<V>, first: V)
    requires |m.ctl.piles| > 1
  {
    a.Run? ==>
      ((Apply(m.ctl, a.act).made > m.ctl.made && !a.act.StartForeign?) || Resets(m.ctl, a.act) ==> a.v == first)
  }

  ghost predicate RestoringRun<V>(m: Mem<V>, acts: seq<MemAction<V>>, first: V)
    requires |m.ctl.piles| > 1
  {
    acts == [] ||
    (RestoringRun(m, acts[..|acts| - 1], first) && Restores(ExecMem(m, acts[..|acts| - 1]), acts[|acts| - 1], first))
  }

  /** The call holds a buffer on its way out of or into a pile, past the reset hook. */
  predicate Between(c: Call)
  {
    c.Unpark? || c.Claim? || c.Rollback? || c.Push?
  }

  /** `b` is parked, or about to be handed out, or has been reset. */
  ghost predicate Settled(s: State, b: nat)
  {
    || (exists p :: 0 <= p < |s.piles| && b in s.piles[p])
    || (exists i :: 0 <= i < |s.calls| && Between(s.calls[i]) && s.calls[i].buf == b)
  }

  ghost predicate Clean<V(!new)>(m: Mem<V>, first: V)
  {
    && m.ctl.hook
    && forall b: nat | Settled(m.ctl, b) :: b < |m.heap| && m.heap[b] == first
  }

  /** With the hook installed a buffer becomes settled only by being reset. */
  lemma SettledFrom(s: State, a: Action, b: nat)
    requires InRange(s) && s.hook && Settled(Apply(s, a), b)
    ensures Settled(s, b) || (Resets(s, a) && s.calls[a.call].buf == b)
  {
    var t := Apply(s, a);
    if p :| 0 <= p < |t.piles| && b in t.piles[p] {
      PileFrom(s, a, p, b);
    } else {
      var i :| 0 <= i < |t.calls| && Between(t.calls[i]) && t.calls[i].buf == b;
      CallFrom(s, a, i, b);
    }
  }

  lemma PileFrom(s: State, a: Action, p: nat, b: nat)
    requires InRange(s) && p < |Apply(s, a).piles| && b in Apply(s, a).piles[p]
    ensures Settled(s, b)
  {
    if a.Step? && Enabled(s, a) && PileTouched(s, a) == Some(p) {
      var c := s.calls[a.call];
      assert CallInRange(c, |s.piles|);
      if b !in s.piles[p] {
        assert c.Push? && Between(c) && c.buf == b;
      }
    } else {
      assert b in s.piles[p];
    }
  }

  lemma CallFrom(s: State, a: Action, i: nat, b: nat)
    requires InRange(s) && s.hook
    requires i < |Apply(s, a).calls| && Between(Apply(s, a).calls[i]) && Apply(s, a).calls[i].buf == b
    ensures Settled(s, b) || (Resets(s, a) && s.calls[a.call].buf == b)
  {
    if i < |s.calls| && Apply(s, a).calls[i] == s.calls[i] {
    } else if Enabled(s, a) && Target(a).Some? {
      MovedBetween(s, a);
    }
  }

  lemma MovedBetween(s: State, a: Action)
    requires InRange(s) && s.hook && Target(a).Some? && Enabled(s, a)
    requires Between(EffectOf(s, a).call)
    ensures var c, b := s.calls[Target(a).value], EffectOf(s, a).call.buf;
            (Between(c) && c.buf == b) || (c.Reset? && c.buf == b && a.Step?)
            || (PileTouched(s, a).Some? && PileTouched(s, a).value < |s.piles|
                && b in s.piles[PileTouched(s, a).value])
  {
    assert CallInRange(s.calls[Target(a).value], |s.piles|);
  }

  /** A settled buffer is out of the user's reach. */
  lemma SettledUnwritable(s: State, b: nat)
    requires Conserved(s) && Settled(s, b)
    ensures b < s.made && b !in s.hands
    ensures forall i | 0 <= i < |s.calls| && s.calls[i].Held? :: s.calls[i].buf != b
  {
    var place :| IsAt(s, b, place) && !place.Hands?
                 && (place.InFlight? ==> place.call < |s.calls| && !s.calls[place.call].Held?) by {
      SettledPlace(s, b);
    }
    Exclusivity(s, b, place, place);
    if b in s.hands { Exclusivity(s, b, place, Hands); }
    forall i | 0 <= i < |s.calls| && s.calls[i].Held? ensures s.calls[i].buf != b {
      if s.calls[i].buf == b { Exclusivity(s, b, place, InFlight(i)); }
    }
  }

  lemma SettledPlace(s: State, b: nat)
    requires Settled(s, b)
    ensures exists place :: IsAt(s, b, place) && !place.Hands?
              && (place.InFlight? ==> place.call < |s.calls| && !s.calls[place.call].Held?)
  {
    if p :| 0 <= p < |s.piles| && b in s.piles[p] {
      assert IsAt(s, b, Pile(p));
    } else {
      var i :| 0 <= i < |s.calls| && Between(s.calls[i]) && s.calls[i].buf == b;
      assert IsAt(s, b, InFlight(i));
    }
  }

  lemma ApplyClean<V(!new)>(m: Mem<V>, a: MemAction<V>, first: V)
    requires Sound(m) && Clean(m, first) && Restores(m, a, first)
    ensures Clean(ApplyMem(m, a), first)
  {
    var t := ApplyMem(m, a);
    forall b: nat | Settled(t.ctl, b) ensures b < |t.heap| && t.heap[b] == first {
      if a.Run? {
        SettledFrom(m.ctl, a.act, b);
        MadeSteps(m.ctl, a.act);
        if Resets(m.ctl, a.act) && m.ctl.calls[a.act.call].buf == b {
          Exclusivity(m.ctl, b, InFlight(a.act.call), InFlight(a.act.call));
        }
      } else {
        SettledUnwritable(m.ctl, b);
      }
    }
  }

  lemma {:induction false} ExecClean<V(!new)>(m: Mem<V>, acts: seq<MemAction<V>>, first: V)
    requires Sound(m) && Clean(m, first) && RestoringRun(m, acts, first)
    ensures Sound(ExecMem(m, acts)) && Clean(ExecMem(m, acts), first)
  {
    ExecSound(m, acts);
    if acts == [] {
    } else {
      var n := |acts| - 1;
      ExecClean(m, acts[..n], first);
      ApplyClean(ExecMem(m, acts[..n]), acts[n], first);
    }
  }

  // ---- what leases see ----

  /** The action turns a `get` into a guard. */
  predicate Serves(s: State, a: Action)
    requires |s.piles| > 1
  {
    a.Step? && a.call < |s.calls| && !s.calls[a.call].Held? && Enabled(s, a)
    && a.call < |Apply(s, a).calls| && Apply(s, a).calls[a.call].Held?
  }

  /** The contents a lease starts with, if the action serves one. */
  function LeaseStart<V>(m: Mem<V>, a: MemAction<V>): seq<V>
    requires |m.ctl.piles| > 1
  {
    if a.Run? && Serves(m.ctl, a.act) then
      var t := ApplyMem(m, a);
      var b := t.ctl.calls[a.act.call].buf;
      if b < |t.heap| then [t.heap[b]] else []
    else []
  }

  /** The initial contents of every lease of the run, in the order they were served. */
  function LeaseValues<V>(m: Mem<V>, acts: seq<MemAction<V>>): seq<V>
    requires |m.ctl.piles| > 1
  {
    if acts == [] then [] else
    LeaseValues(m, acts[..|acts| - 1]) + LeaseStart(ExecMem(m, acts[..|acts| - 1]), acts[|acts| - 1])
  }

  /** What the same leases would start with if each ran the initializer. */
  function Unpooled<V>(m: Mem<V>, acts: seq<MemAction<V>>, first: V): seq<V>
    requires |m.ctl.piles| > 1
  {
    if acts == [] then [] else
    var a := acts[|acts| - 1];
    Unpooled(m, acts[..|acts| - 1], first)
    + if a.Run? && Serves(ExecMem(m, acts[..|acts| - 1]).ctl, a.act) then [first] else []
  }

  /** A call becomes a guard from a popped buffer or from an initializer. */
  lemma HeldFrom(s: State, i: nat)
    requires InRange(s) && Enabled(s, Step(i)) && Apply(s, Step(i)).calls[i].Held?
    ensures var t, c := Apply(s, Step(i)), s.calls[i];
            || (c.Unpark? && t.calls[i].buf == c.buf && t.made == s.made)
            || (c.RunInit? && t.calls[i].buf == s.made && t.made == s.made + 1)
  {
    assert CallInRange(s.calls[i], |s.piles|);
  }

  lemma CleanLease<V(!new)>(m: Mem<V>, a: MemAction<V>, first: V)
    requires Sound(m) && Clean(m, first) && Restores(m, a, first)
    ensures LeaseStart(m, a) == if a.Run? && Serves(m.ctl, a.act) then [first] else []
  {
    if a.Run? && Serves(m.ctl, a.act) {
      var i := a.act.call;
      HeldFrom(m.ctl, i);
      var c := m.ctl.calls[i];
      if c.Unpark? { assert Between(c) && Settled(m.ctl, c.buf); }
    }
  }

  /** From any state in which the hook is installed and whatever is parked is as the
      initializer makes it (an empty pool, say), and over every interleaving, each lease
      starts with what a fresh initializer call would have given it. */
  lemma {:induction false} PoolingIsInvisible<V(!new)>(m: Mem<V>, acts: seq<MemAction<V>>, first: V)
    requires Sound(m) && Clean(m, first) && RestoringRun(m, acts, first)
    ensures LeaseValues(m, acts) == Unpooled(m, acts, first)
  {
    if acts == [] {
    } else {
      var n := |acts| - 1;
      PoolingIsInvisible(m, acts[..n], first);
      ExecClean(m, acts[..n], first);
      CleanLease(ExecMem(m, acts[..n]), acts[n], first);
    }
  }

  /** Installing the hook on a quiet pool whose piles are empty is such a state. */
  lemma HookOnEmptyPool<V(!new)>(m: Mem<V>, first: V)
    requires Sound(m) && Quiet(m.ctl)
    requires forall p | 0 <= p < |m.ctl.piles| :: m.ctl.piles[p] == []
    ensures var t := ApplyMem(m, Run(SetReset, first)); Sound(t) && Clean(t, first)
  {
    ApplySound(m, Run(SetReset, first));
  }
}
