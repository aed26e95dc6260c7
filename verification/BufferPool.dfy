/**
  The shared pool as the source writes it: an array of shard piles, a reserve, the optional
  counter, and the guards. One operation runs at a time here; module PoolSteps interleaves
  them. `tid` is the dense id of the calling thread.
 */
module BufferPools {
  import opened Wrappers
  import opened Sums
  import opened ShardIndex
  import opened PoolModel

  /** `usize::MAX` on a 64-bit target: the idle cap that means "no cap". */
  const USIZE_MAX: nat := 0xFFFF_FFFF_FFFF_FFFF

  class BufferPool<T> {
    const shards: array<seq<T>>
    const shardMask: nat
    var reserve: seq<T>
    const init: () -> T
    var reset: Option<T -> T>
    var maxIdle: nat
    var parked: Option<nat>
    var leases: nat
    var allocations: nat
    var strong: nat    // handles and owning guards sharing this state

    /** Fixed once built: a power-of-two shard array and its mask, and a counter exactly
        while a cap is installed. */
    ghost predicate Shape()
      reads this
    {
      && (exists k: nat :: shards.Length == Pow2(k))
      && shardMask == shards.Length - 1
      && (parked.None? <==> maxIdle == USIZE_MAX)
    }

    ghost predicate Valid()
      reads this, shards
    {
      Shape() && (parked.Some? ==> parked.value == Parked(Contents()))
    }

    ghost function Contents(): Model<T>
      reads this, shards
    {
      Model(shards[..], reserve, if parked.Some? then Some(maxIdle) else None, leases, allocations)
    }

    /** `new`, on a machine of the given parallelism. */
    constructor (init: () -> T, parallelism: Option<nat>)
      ensures Valid() && fresh(shards) && this.init == init && reset == None && strong == 1
      ensures shards.Length == ShardCount(parallelism) && parked == None
      ensures Contents() == Emptied(Contents()) && leases == 0 && allocations == 0
    {
      ShardCountFits(parallelism);
      var count := ShardCount(parallelism);
      shards := new seq<T>[count](_ => []);
      shardMask := count - 1;
      reserve := [];
      this.init := init;
      reset, maxIdle, parked := None, USIZE_MAX, None;
      leases, allocations, strong := 0, 0, 1;
    }

    /** The calling thread's shard. */
    function Shard(tid: nat): nat
    {
      And(tid, shardMask)
    }

    lemma ShardInRange(tid: nat)
      requires Shape()
      ensures Shard(tid) < shards.Length && Shard(tid) == tid % shards.Length
    {
      var k: nat :| shards.Length == Pow2(k);
      MaskIsRemainder(tid, k);
    }

    /** What a returned buffer holds once the hook, if there is one, has run. */
    ghost function ResetOf(x: T): (r: T)
      reads this
      ensures reset.Some? ==> r == reset.value(x)
      ensures reset.None? ==> r == x
    {
      if reset.Some? then reset.value(x) else x
    }

    method Unpark(n: nat)
      requires parked.Some? ==> n <= parked.value
      modifies this`parked
      ensures parked == if old(parked).Some? then Some(old(parked).value - n) else None
    {
      if parked.Some? {
        parked := Some(parked.value - n);
      }
    }

    /** Pops from the calling thread's shard. */
    method PopShard(tid: nat) returns (popped: Option<T>)
      requires Valid()
      modifies this`parked, shards
      ensures Valid() && Shard(tid) < shards.Length
      ensures var m, sh := old(Contents()), Shard(tid);
              if m.stacks[sh] == [] then popped == None && Contents() == m
              else popped == Some(Last(m.stacks[sh]))
                   && Contents() == m.(stacks := m.stacks[sh := PoolModel.Front(m.stacks[sh])])
    {
      ShardInRange(tid);
      var sh := Shard(tid);
      var pile := shards[sh];
      if pile == [] {
        popped := None;
      } else {
        popped := Some(pile[|pile| - 1]);
        ParkedUpdate(Contents(), sh, pile[..|pile| - 1]);
        SumCovers(Length<T>, shards[..]);
        shards[sh] := pile[..|pile| - 1];
        assert shards[..] == old(shards[..])[sh := pile[..|pile| - 1]];
        Unpark(1);
      }
    }

    method PopReserve() returns (popped: Option<T>)
      requires Valid()
      modifies this`parked, this`reserve
      ensures Valid()
      ensures var m := old(Contents());
              if m.reserve == [] then popped == None && Contents() == m
              else popped == Some(Last(m.reserve)) && Contents() == m.(reserve := PoolModel.Front(m.reserve))
    {
      if reserve == [] {
        popped := None;
      } else {
        SumCovers(Length<T>, shards[..]);
        popped := Some(reserve[|reserve| - 1]);
        reserve := reserve[..|reserve| - 1];
        Unpark(1);
      }
    }

    /** Claims a slot under the cap, and gives it back if there is none. */
    method CapAllows() returns (allowed: bool)
      requires Valid()
      modifies this`parked
      ensures allowed <==> !AtCap(Contents())
      ensures parked == if old(parked).Some? && allowed then Some(old(parked).value + 1) else old(parked)
    {
      if parked.Some? {
        var before := parked.value;
        parked := Some(before + 1);
        if before >= maxIdle {
          parked := Some(parked.value - 1);
          return false;
        }
      }
      allowed := true;
    }

    /** The return path: reset first, then the cap, then the calling thread's shard. */
    method Recycle(tid: nat, buffer: T)
      requires Valid()
      modifies this`parked, shards
      ensures Valid() && Shard(tid) < shards.Length
      ensures Contents() == Return(old(Contents()), Shard(tid), ResetOf(buffer))
      ensures !AtCap(old(Contents())) ==>
                shards[Shard(tid)] == old(shards[Shard(tid)]) + [if reset.Some? then reset.value(buffer) else buffer]
    {
      var x := if reset.Some? then reset.value(buffer) else buffer;
      ShardInRange(tid);
      var sh := Shard(tid);
      var allowed := CapAllows();
      if allowed {
        ParkedUpdate(Contents(), sh, shards[sh] + [x]);
        shards[sh] := shards[sh] + [x];
        assert shards[..] == old(shards[..])[sh := old(shards[sh]) + [x]];
      }
    }

    /** The prefill path: the same checks, but the reserve. */
    method StockReserve(buffer: T)
      requires Valid()
      modifies this`parked, this`reserve
      ensures Valid()
      ensures Contents() == if AtCap(old(Contents())) then old(Contents())
                            else old(Contents()).(reserve := old(reserve) + [ResetOf(buffer)])
      ensures !AtCap(old(Contents())) ==>
                reserve == old(reserve) + [if reset.Some? then reset.value(buffer) else buffer]
    {
      var x := if reset.Some? then reset.value(buffer) else buffer;
      var allowed := CapAllows();
      if allowed {
        reserve := reserve + [x];
      }
    }

    /** Runs the initializer eagerly, `n` times. */
    method Prefill(n: nat)
      requires Valid()
      modifies this`parked, this`reserve, this`allocations
      ensures Valid()
      ensures Contents() == StockAll(old(Contents()), n, ResetOf(init()))
      ensures allocations == old(allocations) + n && old(reserve) <= reserve
      ensures forall i | |old(reserve)| <= i < |reserve| ::
                reserve[i] == if reset.Some? then reset.value(init()) else init()
    {
      for i := 0 to n
        invariant Valid() && reset == old(reset)
        invariant Contents() == StockAll(old(Contents()), i, ResetOf(init()))
      {
        allocations := allocations + 1;
        var buffer := init();
        StockReserve(buffer);
      }
      PrefillKeeps(old(Contents()), n, ResetOf(init()));
    }

    /** Sums the piles one at a time. */
    method CountIdle() returns (idle: nat)
      ensures idle == Parked(Contents())
    {
      idle := 0;
      for i := 0 to shards.Length
        invariant idle == Sum(Length<T>, shards[..i])
      {
        assert shards[..i + 1] == shards[..i] + [shards[i]];
        SumAppend(Length<T>, shards[..i], shards[i]);
        SumCovers(Length<T>, shards[..i]);
        idle := idle + |shards[i]|;
      }
      assert shards[..shards.Length] == shards[..];
      idle := idle + |reserve|;
    }

    /** Installs the cap over a recount; panics (`installed` is false) if the state is shared. */
    method WithMaxIdle(max: nat) returns (installed: bool)
      requires Valid()
      modifies this`maxIdle, this`parked
      ensures Valid() && (installed <==> strong == 1)
      ensures installed && max < 0xFFFF_FFFF_FFFF_FFFF ==> parked.Some? && maxIdle == max
      ensures Contents() == if !installed then old(Contents())
                            else old(Contents()).(max := if max == USIZE_MAX then None else Some(max))
    {
      if strong != 1 {
        return false;
      }
      maxIdle := max;
      if max == USIZE_MAX {
        parked := None;
      } else {
        var idle := CountIdle();
        parked := Some(idle);
      }
      installed := true;
    }

    /** Installs the hook; what is already parked is left as it is. */
    method WithReset(hook: T -> T) returns (installed: bool)
      requires Valid()
      modifies this`reset
      ensures Valid() && Contents() == old(Contents()) && (installed <==> strong == 1)
      ensures reset == if installed then Some(hook) else old(reset)
    {
      if strong != 1 {
        return false;
      }
      reset := Some(hook);
      installed := true;
    }

    /** Leases a buffer: own shard, then the reserve, then the initializer. */
    method Get(tid: nat) returns (guard: SharedPooled<T>)
      requires Valid()
      modifies this`parked, this`reserve, this`leases, this`allocations, shards
      ensures Valid() && Shard(tid) < shards.Length
      ensures fresh(guard) && guard.pool == this
      ensures var (m, x) := Lease(old(Contents()), Shard(tid), init());
              Contents() == m && guard.buffer == Some(x)
    {
      leases := leases + 1;
      var popped := PopShard(tid);
      if popped == None {
        popped := PopReserve();
      }
      var buffer: T;
      if popped.Some? {
        buffer := popped.value;
      } else {
        allocations := allocations + 1;
        buffer := init();
      }
      guard := new SharedPooled(this, buffer);
    }

    /** The same lease behind a guard that shares ownership of the pool. The borrowing guard
        is left empty, so dropping it returns nothing. */
    method GetOwned(tid: nat) returns (guard: SharedPooledOwned<T>)
      requires Valid()
      modifies this`parked, this`reserve, this`leases, this`allocations, this`strong, shards
      ensures Valid() && Shard(tid) < shards.Length && strong == old(strong) + 1
      ensures fresh(guard) && guard.pool == this
      ensures var (m, x) := Lease(old(Contents()), Shard(tid), init());
              Contents() == m && guard.buffer == Some(x)
    {
      var lease := Get(tid);
      var taken := lease.buffer;
      lease.buffer := None;
      strong := strong + 1;
      guard := new SharedPooledOwned(this, taken);
      lease.Drop(tid);
    }

    method Put(tid: nat, buffer: T)
      requires Valid()
      modifies this`parked, shards
      ensures Valid() && Shard(tid) < shards.Length
      ensures Contents() == Return(old(Contents()), Shard(tid), ResetOf(buffer))
      ensures !AtCap(old(Contents())) ==>
                shards[Shard(tid)] == old(shards[Shard(tid)]) + [if reset.Some? then reset.value(buffer) else buffer]
    {
      Recycle(tid, buffer);
    }

    /** Takes every pile, shards in index order and the reserve last, then adjusts the
        counter once by what was taken. */
    method Drain() returns (drained: seq<T>)
      requires Valid()
      modifies this`parked, this`reserve, shards
      ensures Valid()
      ensures drained == Drained(old(Contents())) && Contents() == Emptied(old(Contents()))
    {
      drained := [];
      var taken := 0;
      ghost var before := shards[..];
      for i := 0 to shards.Length
        modifies shards
        invariant forall j | 0 <= j < i :: shards[j] == []
        invariant forall j | i <= j < shards.Length :: shards[j] == before[j]
        invariant drained == Flatten(before[..i]) && taken == |drained|
      {
        var pile := shards[i];
        shards[i] := [];
        taken := taken + |pile|;
        drained := drained + pile;
        assert PoolModel.Front(before[..i + 1]) == before[..i];
      }
      assert before[..shards.Length] == before;
      assert shards[..] == seq(shards.Length, _ => []);
      var pile := reserve;
      reserve := [];
      taken := taken + |pile|;
      drained := drained + pile;
      DrainTakesAll(old(Contents()));
      if parked.Some? {
        parked := Some(parked.value - taken);
      }
    }

    /** Another handle to the same state; from now on the builder methods refuse. */
    method Clone()
      requires Valid() && strong > 0
      modifies this`strong
      ensures Valid() && Contents() == old(Contents()) && strong == old(strong) + 1 && strong != 1
    {
      strong := strong + 1;
    }
  }

  /** The state after `n` prefill iterations, each stocking `x`. */
  function StockAll<T>(m: Model<T>, n: nat, x: T): Model<T>
  {
    if n == 0 then m else Stock(StockAll(m, n - 1, x), x)
  }

  /** A prefill always counts `n` allocations and keeps as many buffers as fit. */
  lemma {:induction false} PrefillKeeps<T>(m: Model<T>, n: nat, x: T)
    ensures var r := StockAll(m, n, x);
            && r.allocations == m.allocations + n && r.leases == m.leases && r.stacks == m.stacks
            && |r.reserve| == |m.reserve|
                 + (if m.max.None? || n < Room(m) then n else Room(m))
            && m.reserve <= r.reserve && forall i | |m.reserve| <= i < |r.reserve| :: r.reserve[i] == x
  {
    if n == 0 {
    } else {
      PrefillKeeps(m, n - 1, x);
      StockAllMax(m, n - 1, x);
    }
  }

  lemma {:induction false} StockAllMax<T>(m: Model<T>, n: nat, x: T)
    ensures StockAll(m, n, x).max == m.max
  {
    if n == 0 {
    } else {
      StockAllMax(m, n - 1, x);
    }
  }

  /** Install a hook, put a buffer and lease on the same thread: the lease starts with what the
      hook made of the buffer. */
  method ResetThenLease<T>(pool: BufferPool<T>, hook: T -> T, tid: nat, x: T) returns (guard: SharedPooled<T>)
    requires pool.Valid() && pool.strong == 1 && !AtCap(pool.Contents())
    modifies pool, pool.shards
    ensures pool.Valid() && guard.pool == pool && guard.buffer == Some(hook(x))
  {
    var installed := pool.WithReset(hook);
    pool.Put(tid, x);
    guard := pool.Get(tid);
  }

  /** The borrowing guard. */
  class SharedPooled<T> {
    const pool: BufferPool<T>
    var buffer: Option<T>

    constructor (pool: BufferPool<T>, buffer: T)
      ensures this.pool == pool && this.buffer == Some(buffer)
    {
      this.pool := pool;
      this.buffer := Some(buffer);
    }

    /** Detaches the buffer; the drop that follows finds nothing to return. */
    method IntoInner() returns (x: T)
      requires buffer.Some?
      modifies this`buffer
      ensures Some(x) == old(buffer) && buffer == None
    {
      x := buffer.value;
      buffer := None;
    }

    /** Returns the buffer through the dropping thread's shard, once. */
    method Drop(tid: nat)
      requires pool.Valid()
      modifies this`buffer, pool`parked, pool.shards
      ensures pool.Valid() && buffer == None && pool.Shard(tid) < pool.shards.Length
      ensures pool.Contents() == if old(buffer).None? then old(pool.Contents())
              else Return(old(pool.Contents()), pool.Shard(tid), pool.ResetOf(old(buffer).value))
      ensures old(buffer).Some? && !AtCap(old(pool.Contents())) ==>
                pool.shards[pool.Shard(tid)] == old(pool.shards[pool.Shard(tid)])
                  + [if pool.reset.Some? then pool.reset.value(old(buffer).value) else old(buffer).value]
    {
      pool.ShardInRange(tid);
      if buffer.Some? {
        var x := buffer.value;
        buffer := None;
        pool.Recycle(tid, x);
      }
    }
  }

  /** The owning guard: the pool lives as long as the lease. */
  class SharedPooledOwned<T> {
    const pool: BufferPool<T>
    var buffer: Option<T>

    constructor (pool: BufferPool<T>, buffer: Option<T>)
      ensures this.pool == pool && this.buffer == buffer
    {
      this.pool := pool;
      this.buffer := buffer;
    }

    method IntoInner() returns (x: T)
      requires buffer.Some? && pool.strong > 0
      modifies this`buffer, pool`strong
      ensures Some(x) == old(buffer) && buffer == None && pool.strong == old(pool.strong) - 1
    {
      x := buffer.value;
      buffer := None;
      pool.strong := pool.strong - 1;
    }

    method Drop(tid: nat)
      requires pool.Valid() && pool.strong > 0
      modifies this`buffer, pool`parked, pool`strong, pool.shards
      ensures pool.Valid() && buffer == None && pool.Shard(tid) < pool.shards.Length
      ensures pool.strong == old(pool.strong) - 1
      ensures pool.Contents() == if old(buffer).None? then old(pool.Contents())
              else Return(old(pool.Contents()), pool.Shard(tid), pool.ResetOf(old(buffer).value))
      ensures old(buffer).Some? && !AtCap(old(pool.Contents())) ==>
                pool.shards[pool.Shard(tid)] == old(pool.shards[pool.Shard(tid)])
                  + [if pool.reset.Some? then pool.reset.value(old(buffer).value) else old(buffer).value]
    {
      pool.ShardInRange(tid);
      if buffer.Some? {
        var x := buffer.value;
        buffer := None;
        pool.Recycle(tid, x);
      }
      pool.strong := pool.strong - 1;
    }
  }
}
