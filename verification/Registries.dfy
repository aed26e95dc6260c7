/**
  The per-thread registry of the thread-local pool: a dense vector of slots indexed by pool
  id, swept lazily when some pool has died (src/local.rs:58-152, 302-400).

  A liveness flag is named by the pool it was made for, so comparing the flags two slots
  point to is comparing those names.
 */
module Registries {
  import opened Wrappers

  /** A type-erased buffer: its element type and its identity. */
  datatype Erased = Erased(ty: nat, id: nat)

  /** `live` is the pool whose flag the slot points to. */
  datatype Slot = Slot(live: nat, buf: Option<Erased>)

  // ---- the map a registry stands for ----

  function Lookup(slots: seq<Slot>, id: nat): Option<Erased>
  {
    if id < |slots| then slots[id].buf else None
  }

  /** An occupied slot points to its own pool's flag. */
  ghost predicate Tagged(slots: seq<Slot>)
  {
    forall i | 0 <= i < |slots| && slots[i].buf.Some? :: slots[i].live == i
  }

  /** An occupied slot holds a buffer of its own pool's element type. */
  ghost predicate Typed(slots: seq<Slot>, types: seq<nat>)
  {
    && |slots| <= |types|
    && forall i | 0 <= i < |slots| && slots[i].buf.Some? :: slots[i].buf.value.ty == types[i]
  }

  // ---- growth and repair ----

  /** The registry after `slot_for(id)`: grown to the id, gaps filled with this pool's flag,
      or the flag repaired. */
  function SlotFor(slots: seq<Slot>, id: nat): (r: seq<Slot>)
    ensures id < |r| && |r| >= |slots|
  {
    if |slots| <= id then slots + seq(id + 1 - |slots|, _ => Slot(id, None))
    else if slots[id].live != id then slots[id := Slot(id, slots[id].buf)]
    else slots
  }

  /** The `debug_assert`: a slot whose flag needs repair is empty. */
  predicate RepairIsSafe(slots: seq<Slot>, id: nat)
  {
    id < |slots| && slots[id].live != id ==> slots[id].buf == None
  }

  /** Growth, gap filling and repair change no buffer, the repaired slot is the pool's own,
      and the assertion about repaired slots never fires. */
  lemma SlotForKeepsMap(slots: seq<Slot>, id: nat)
    requires Tagged(slots)
    ensures var r := SlotFor(slots, id);
            && Tagged(r) && r[id].live == id && RepairIsSafe(slots, id)
            && forall j: nat :: Lookup(r, j) == Lookup(slots, j)
  {
  }

  function Take(slots: seq<Slot>, id: nat): (seq<Slot>, Option<Erased>)
  {
    var r := SlotFor(slots, id);
    (r[id := Slot(r[id].live, None)], r[id].buf)
  }

  function Park(slots: seq<Slot>, id: nat, b: Erased): seq<Slot>
  {
    var r := SlotFor(slots, id);
    r[id := Slot(r[id].live, Some(b))]
  }

  /** Taking and parking are removal and update of the map, and keep it well tagged. */
  lemma TakeAndParkAreMapUpdates(slots: seq<Slot>, id: nat, b: Erased)
    requires Tagged(slots)
    ensures var (t, r) := Take(slots, id);
            && Tagged(t) && r == Lookup(slots, id)
            && forall j: nat :: Lookup(t, j) == if j == id then None else Lookup(slots, j)
    ensures var t := Park(slots, id, b);
            && Tagged(t)
            && forall j: nat :: Lookup(t, j) == if j == id then Some(b) else Lookup(slots, j)
  {
    SlotForKeepsMap(slots, id);
  }

  // ---- the sweep ----

  function SweptSlot(slot: Slot, alive: bool): Slot
  {
    if slot.buf.Some? && !alive then Slot(slot.live, None) else slot
  }

  function FlagOf(flags: seq<bool>, id: nat): bool
  {
    id < |flags| && flags[id]
  }

  function Swept(slots: seq<Slot>, flags: seq<bool>): seq<Slot>
  {
    seq(|slots|, i requires 0 <= i < |slots| => SweptSlot(slots[i], FlagOf(flags, slots[i].live)))
  }

  /** A sweep removes exactly the buffers of dead pools. A live pool's buffer survives, even
      in a slot that once carried a dead pool's flag. */
  lemma SweepRemovesTheDead(slots: seq<Slot>, flags: seq<bool>)
    requires Tagged(slots)
    ensures var r := Swept(slots, flags);
            && Tagged(r) && |r| == |slots|
            && forall j: nat :: Lookup(r, j) == if FlagOf(flags, j) then Lookup(slots, j) else None
  {
  }

  /** What the live pools have in a registry. */
  ghost function LiveIn(slots: seq<Slot>, flags: seq<bool>): map<nat, Erased>
  {
    map i | 0 <= i < |slots| && slots[i].buf.Some? && FlagOf(flags, i) :: slots[i].buf.value
  }

  /** A pool whose flag is cleared vanishes from every registry at once, and nothing else does. */
  lemma DeathEmptiesEntry(slots: seq<Slot>, flags: seq<bool>, id: nat)
    requires id < |flags|
    ensures LiveIn(slots, flags[id := false]) == LiveIn(slots, flags) - {id}
  {
  }

  // ---- as the source writes it ----

  /** The process-wide statics and the liveness flags. */
  class Globals {
    var flags: seq<bool>      // one per pool ever made; the next id is its length
    var types: seq<nat>       // element type of each pool
    var dropEpoch: nat

    ghost predicate Valid()
      reads this
    {
      |types| == |flags|
    }

    constructor ()
      ensures Valid() && flags == [] && dropEpoch == 0
    {
      flags, types, dropEpoch := [], [], 0;
    }

    /** `ThreadLocalPool::new`: ids are never reused. */
    method NewPool(ty: nat) returns (id: nat)
      requires Valid()
      modifies this
      ensures Valid() && id == |old(flags)| && dropEpoch == old(dropEpoch)
      ensures flags == old(flags) + [true] && types == old(types) + [ty]
      ensures FlagOf(flags, id) && !FlagOf(old(flags), id) && types[id] == ty
      ensures forall j: nat | j != id :: FlagOf(flags, j) == FlagOf(old(flags), j)
    {
      id := |flags|;
      flags := flags + [true];
      types := types + [ty];
    }

    /** The last handle is gone: clear the flag, then bump the epoch. */
    method DropPool(id: nat)
      requires Valid() && id < |flags|
      modifies this`flags, this`dropEpoch
      ensures Valid() && flags == old(flags)[id := false] && dropEpoch == old(dropEpoch) + 1
      ensures forall slots :: LiveIn(slots, flags) == LiveIn(slots, old(flags)) - {id}
    {
      forall slots ensures LiveIn(slots, flags[id := false]) == LiveIn(slots, flags) - {id} {
        DeathEmptiesEntry(slots, flags, id);
      }
      flags := flags[id := false];
      dropEpoch := dropEpoch + 1;
    }
  }

  /** One thread's registry. */
  class Registry {
    var seenEpoch: nat
    var slots: seq<Slot>

    ghost predicate Valid(g: Globals)
      reads this, g
    {
      g.Valid() && Tagged(slots) && Typed(slots, g.types)
    }

    /** What the live pools have parked on this thread. */
    ghost function Live(g: Globals): map<nat, Erased>
      reads this, g
    {
      LiveIn(slots, g.flags)
    }

    constructor ()
      ensures seenEpoch == 0 && slots == []
    {
      seenEpoch, slots := 0, [];
    }

    /** The epoch check in front of every access, and the sweep when it is out of date. */
    method Refresh(g: Globals)
      requires Valid(g)
      modifies this
      ensures Valid(g) && seenEpoch == g.dropEpoch && Live(g) == old(Live(g))
      ensures slots == if old(seenEpoch) == g.dropEpoch then old(slots) else Swept(old(slots), g.flags)
    {
      var epoch := g.dropEpoch;
      if epoch != seenEpoch {
        seenEpoch := epoch;
        ghost var before := slots;
        for k := 0 to |slots|
          invariant |slots| == |before| && seenEpoch == epoch
          invariant forall j | 0 <= j < k :: slots[j] == Swept(before, g.flags)[j]
          invariant forall j | k <= j < |slots| :: slots[j] == before[j]
        {
          if slots[k].buf.Some? && !FlagOf(g.flags, slots[k].live) {
            slots := slots[k := Slot(slots[k].live, None)];
          }
        }
        assert slots == Swept(before, g.flags);
        SweepRemovesTheDead(before, g.flags);
        assert forall j: nat {:trigger slots[j]} :: j < |slots| && FlagOf(g.flags, j) ==>
            Lookup(slots, j) == Lookup(before, j);
      }
    }

    /** `slot_for`, the branch structure of the source. */
    method EnsureSlot(id: nat)
      requires Tagged(slots)
      modifies this`slots
      ensures slots == SlotFor(old(slots), id)
      ensures Tagged(slots) && slots[id].live == id
      ensures forall j: nat :: Lookup(slots, j) == Lookup(old(slots), j)
    {
      SlotForKeepsMap(slots, id);
      if |slots| <= id {
        slots := slots + seq(id + 1 - |slots|, _ => Slot(id, None));
        return;
      }
      if slots[id].live != id {
        assert slots[id].buf == None;
        slots := slots[id := Slot(id, slots[id].buf)];
      }
    }

    /** The thread's parked buffer for a live pool leaves the registry. */
    method TakeFor(g: Globals, id: nat) returns (leased: Option<Erased>)
      requires Valid(g) && FlagOf(g.flags, id)
      modifies this
      ensures Valid(g) && (leased.Some? ==> leased.value.ty == g.types[id])
      ensures Live(g) == old(Live(g)) - {id}
      ensures leased == if id in old(Live(g)) then Some(old(Live(g))[id]) else None
    {
      Refresh(g);
      ghost var before := slots;
      TakeAndParkAreMapUpdates(slots, id, Erased(0, 0));
      EnsureSlot(id);
      leased := slots[id].buf;
      slots := slots[id := Slot(slots[id].live, None)];
      assert slots == Take(before, id).0;
      LiveIs(g, before, old(Live(g)), old(Live(g)) - {id});
    }

    /** A live pool's buffer parks, over whatever it had parked here. */
    method ParkFor(g: Globals, id: nat, buffer: Erased)
      requires Valid(g) && FlagOf(g.flags, id) && buffer.ty == g.types[id]
      modifies this
      ensures Valid(g) && Live(g) == old(Live(g))[id := buffer]
    {
      Refresh(g);
      ghost var before := slots;
      TakeAndParkAreMapUpdates(slots, id, buffer);
      EnsureSlot(id);
      slots := slots[id := Slot(slots[id].live, Some(buffer))];
      assert slots == Park(before, id, buffer);
      LiveIs(g, before, old(Live(g)), old(Live(g))[id := buffer]);
    }

    /** Zero or one: what this thread has parked for the pool. */
    method IdleLen(g: Globals, id: nat) returns (n: nat)
      requires Valid(g) && FlagOf(g.flags, id)
      modifies this
      ensures Valid(g) && Live(g) == old(Live(g))
      ensures n == if id in Live(g) then 1 else 0
    {
      Refresh(g);
      n := if id < |slots| && slots[id].buf.Some? then 1 else 0;
    }

    /** Two maps agree with the slots before and after, so the update is the map's. */
    lemma LiveIs(g: Globals, before: seq<Slot>, was: map<nat, Erased>, now: map<nat, Erased>)
      requires forall j: nat :: j in was <==> FlagOf(g.flags, j) && Lookup(before, j).Some?
      requires forall j: nat | j in was :: Lookup(before, j) == Some(was[j])
      requires forall j: nat :: FlagOf(g.flags, j) && Lookup(slots, j).Some? <==> j in now
      requires forall j: nat | j in now :: Lookup(slots, j) == Some(now[j])
      ensures Live(g) == now
    {
      assert forall j: nat :: j in Live(g) <==> FlagOf(g.flags, j) && Lookup(slots, j).Some?;
    }
  }

  /** A thread-local pool handle; only the counters of the shared part change. */
  class ThreadLocalPool {
    const id: nat
    const ty: nat
    var leases: nat
    var allocations: nat

    constructor (id: nat, ty: nat)
      ensures this.id == id && this.ty == ty && leases == 0 && allocations == 0
    {
      this.id, this.ty := id, ty;
      leases, allocations := 0, 0;
    }

    /** The pool is alive and known to the process under its own type. */
    ghost predicate Registered(g: Globals)
      reads g
    {
      g.Valid() && FlagOf(g.flags, id) && g.types[id] == ty
    }

    /** Leases the thread's parked buffer, or `made` by the initializer. The downcast of what
        the slot held cannot fail. */
    method Get(reg: Registry, g: Globals, made: nat) returns (guard: LocalPooled)
      requires Registered(g) && reg.Valid(g)
      modifies this`leases, this`allocations, reg
      ensures reg.Valid(g) && fresh(guard) && guard.pool == this
      ensures reg.Live(g) == old(reg.Live(g)) - {id} && leases == old(leases) + 1
      ensures if id in old(reg.Live(g)) then
                guard.buffer == Some(old(reg.Live(g))[id]) && allocations == old(allocations)
              else guard.buffer == Some(Erased(ty, made)) && allocations == old(allocations) + 1
    {
      leases := leases + 1;
      var leased := reg.TakeFor(g, id);
      var buffer: Erased;
      if leased.Some? {
        if leased.value.ty != ty {
          assert false;
        }
        buffer := leased.value;
      } else {
        allocations := allocations + 1;
        buffer := Erased(ty, made);
      }
      guard := new LocalPooled(this, buffer);
    }

    /** Parks on the calling thread, dropping whatever was parked there for this pool. */
    method Put(reg: Registry, g: Globals, buffer: Erased)
      requires Registered(g) && reg.Valid(g) && buffer.ty == ty
      modifies reg
      ensures reg.Valid(g) && reg.Live(g) == old(reg.Live(g))[id := buffer]
    {
      reg.ParkFor(g, id, buffer);
    }
  }

  /** The guard of a thread-local lease. */
  class LocalPooled {
    const pool: ThreadLocalPool
    var buffer: Option<Erased>

    constructor (pool: ThreadLocalPool, buffer: Erased)
      ensures this.pool == pool && this.buffer == Some(buffer)
    {
      this.pool := pool;
      this.buffer := Some(buffer);
    }

    method IntoInner() returns (x: Erased)
      requires buffer.Some?
      modifies this
      ensures Some(x) == old(buffer) && buffer == None
    {
      x := buffer.value;
      buffer := None;
    }

    /** Parks in the slot of the thread that drops the guard, wherever the lease began. */
    method Drop(reg: Registry, g: Globals)
      requires pool.Registered(g) && reg.Valid(g) && (buffer.Some? ==> buffer.value.ty == pool.ty)
      modifies this, reg
      ensures reg.Valid(g) && buffer == None
      ensures reg.Live(g) == if old(buffer).Some? then old(reg.Live(g))[pool.id := old(buffer).value]
                             else old(reg.Live(g))
    {
      if buffer.Some? {
        var x := buffer.value;
        buffer := None;
        pool.Put(reg, g, x);
      }
    }
  }
}
