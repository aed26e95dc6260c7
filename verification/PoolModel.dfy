/**
  The pool when one operation runs at a time: one LIFO stack per shard, a LIFO reserve,
  and a bound on the total. The class BufferPool is proved against these functions and
  module PoolSolo proves that the step system, run one call at a time, computes them.
 */
module PoolModel {
  import opened Wrappers
  import opened Sums

  datatype Model<T> = Model(stacks: seq<seq<T>>, reserve: seq<T>, max: Option<nat>,
                            leases: nat, allocations: nat)

  function Parked<T>(m: Model<T>): int
  {
    Sum(Length<T>, m.stacks) + |m.reserve|
  }

  predicate AtCap<T>(m: Model<T>)
  {
    m.max.Some? && Parked(m) >= m.max.value
  }

  function Last<T>(s: seq<T>): T
    requires s != []
  {
    s[|s| - 1]
  }

  function Front<T>(s: seq<T>): seq<T>
    requires s != []
  {
    s[..|s| - 1]
  }

  /** Own shard first, then the reserve, then the initializer. */
  function Lease<T>(m: Model<T>, shard: nat, made: T): (r: (Model<T>, T))
    requires shard < |m.stacks|
  {
    var n := m.(leases := m.leases + 1);
    if m.stacks[shard] != [] then
      (n.(stacks := m.stacks[shard := Front(m.stacks[shard])]), Last(m.stacks[shard]))
    else if m.reserve != [] then (n.(reserve := Front(m.reserve)), Last(m.reserve))
    else (n.(allocations := m.allocations + 1), made)
  }

  /** A return parks in the shard, or is refused at the cap. */
  function Return<T>(m: Model<T>, shard: nat, x: T): Model<T>
    requires shard < |m.stacks|
  {
    if AtCap(m) then m else m.(stacks := m.stacks[shard := m.stacks[shard] + [x]])
  }

  /** One prefill iteration: always counted, parked in the reserve below the cap. */
  function Stock<T>(m: Model<T>, x: T): Model<T>
  {
    var n := m.(allocations := m.allocations + 1);
    if AtCap(m) then n else n.(reserve := m.reserve + [x])
  }

  function Flatten<T>(stacks: seq<seq<T>>): seq<T>
  {
    if stacks == [] then [] else Flatten(Front(stacks)) + Last(stacks)
  }

  /** Shards in index order, then the reserve, each in parking order. */
  function Drained<T>(m: Model<T>): seq<T>
  {
    Flatten(m.stacks) + m.reserve
  }

  function Emptied<T>(m: Model<T>): Model<T>
  {
    m.(stacks := seq(|m.stacks|, _ => []), reserve := [])
  }

  // ---- what the model promises ----

  lemma ParkedUpdate<T>(m: Model<T>, shard: nat, x: seq<T>)
    requires shard < |m.stacks|
    ensures Parked(m.(stacks := m.stacks[shard := x])) == Parked(m) - |m.stacks[shard]| + |x|
  {
    SumUpdate(Length<T>, m.stacks, shard, x);
  }

  /** A lease takes one parked buffer, or else the shard and the reserve were both empty
      and exactly one allocation is counted. */
  lemma LeaseTakesOrAllocates<T>(m: Model<T>, shard: nat, made: T)
    requires shard < |m.stacks|
    ensures var (n, x) := Lease(m, shard, made);
            && n.leases == m.leases + 1
            && Parked(n) + 1 - Parked(m) == n.allocations - m.allocations
            && (n.allocations == m.allocations + 1 <==> m.stacks[shard] == [] && m.reserve == [])
            && (n.allocations == m.allocations + 1 || n.allocations == m.allocations)
  {
    if m.stacks[shard] != [] {
      ParkedUpdate(m, shard, Front(m.stacks[shard]));
    }
  }

  /** What a thread returns is what it leases next, and the lease undoes the return. */
  lemma ReturnThenLease<T>(m: Model<T>, shard: nat, x: T, made: T)
    requires shard < |m.stacks| && !AtCap(m)
    ensures Lease(Return(m, shard, x), shard, made) == (m.(leases := m.leases + 1), x)
  {
    var n := Return(m, shard, x);
    assert Front(n.stacks[shard]) == m.stacks[shard];
    assert n.stacks[shard := m.stacks[shard]] == m.stacks;
  }

  /** What a prefill stocked last is what a lease that misses its shard gets, and the lease
      undoes the stocking but for the counters. */
  lemma StockThenLease<T>(m: Model<T>, shard: nat, x: T, made: T)
    requires shard < |m.stacks| && m.stacks[shard] == [] && !AtCap(m)
    ensures Lease(Stock(m, x), shard, made) == (m.(leases := m.leases + 1, allocations := m.allocations + 1), x)
  {
    assert Front(Stock(m, x).reserve) == m.reserve;
  }

  /** A lease of a parked buffer is undone by returning it to the shard it came from. */
  lemma LeaseThenReturn<T>(m: Model<T>, shard: nat, made: T)
    requires shard < |m.stacks| && m.stacks[shard] != []
    requires m.max.Some? ==> Parked(m) <= m.max.value
    ensures var (n, x) := Lease(m, shard, made); Return(n, shard, x) == m.(leases := m.leases + 1)
  {
    var stack := m.stacks[shard];
    var (n, x) := Lease(m, shard, made);
    ParkedUpdate(m, shard, Front(stack));
    assert Parked(n) == Parked(m) - 1;
    assert Front(stack) + [x] == stack;
    assert n.stacks[shard := stack] == m.stacks;
  }

  function ReturnAll<T>(m: Model<T>, shard: nat, xs: seq<T>): Model<T>
    requires shard < |m.stacks|
    ensures |ReturnAll(m, shard, xs).stacks| == |m.stacks|
  {
    if xs == [] then m else Return(ReturnAll(m, shard, Front(xs)), shard, Last(xs))
  }

  function Room<T>(m: Model<T>): nat
    requires m.max.Some?
  {
    if Parked(m) < m.max.value then m.max.value - Parked(m) else 0
  }

  /** Under a cap, a batch of returns parks exactly its first `Room` buffers, in order. */
  lemma {:induction false} ReturnAllFills<T>(m: Model<T>, shard: nat, xs: seq<T>)
    requires shard < |m.stacks| && m.max.Some?
    ensures var fit := if |xs| < Room(m) then |xs| else Room(m);
            && ReturnAll(m, shard, xs) == m.(stacks := m.stacks[shard := m.stacks[shard] + xs[..fit]])
            && Parked(ReturnAll(m, shard, xs)) == Parked(m) + fit
  {
    var fit := if |xs| < Room(m) then |xs| else Room(m);
    ParkedUpdate(m, shard, m.stacks[shard] + xs[..fit]);
    if xs == [] {
      assert m.stacks[shard] + xs[..0] == m.stacks[shard];
      assert m.stacks[shard := m.stacks[shard]] == m.stacks;
    } else {
      ReturnAllFills(m, shard, Front(xs));
      if fit == |xs| {
        assert m.stacks[shard] + Front(xs)[..|xs| - 1] + [Last(xs)] == m.stacks[shard] + xs[..fit];
      } else {
        assert Front(xs)[..fit] == xs[..fit];
      }
    }
  }

  lemma {:induction false} FlattenLength<T>(stacks: seq<seq<T>>)
    ensures |Flatten(stacks)| == Sum(Length<T>, stacks)
  {
    if stacks == [] {
    } else {
      FlattenLength(Front(stacks));
    }
  }

  /** A drain hands over exactly what was parked and leaves nothing behind. */
  lemma DrainTakesAll<T>(m: Model<T>)
    ensures |Drained(m)| == Parked(m) && Parked(Emptied(m)) == 0 && Drained(Emptied(m)) == []
  {
    FlattenLength(m.stacks);
    SumZero(Length<T>, Emptied(m).stacks);
    FlattenLength(Emptied(m).stacks);
  }

  /** How many buffers a drain returns before it gets to a shard. */
  function Before<T>(m: Model<T>, shard: nat): int
    requires shard <= |m.stacks|
  {
    Sum(Length<T>, m.stacks[..shard])
  }

  lemma {:induction false} FlattenAt<T>(stacks: seq<seq<T>>, shard: nat, i: nat)
    requires shard < |stacks| && i < |stacks[shard]|
    ensures var k := Sum(Length<T>, stacks[..shard]) + i;
            0 <= k < |Flatten(stacks)| && Flatten(stacks)[k] == stacks[shard][i]
  {
    FlattenLength(stacks);
    FlattenLength(Front(stacks));
    if shard == |stacks| - 1 {
      assert stacks[..shard] == Front(stacks);
    } else {
      FlattenAt(Front(stacks), shard, i);
      assert Front(stacks)[..shard] == stacks[..shard];
    }
  }

  /** In a drain's result each parked buffer is where its place says: after the shards before
      its own and the buffers parked before it in its shard; the reserve comes after all shards. */
  lemma DrainInOrder<T>(m: Model<T>, shard: nat, i: nat)
    ensures shard < |m.stacks| && i < |m.stacks[shard]| ==>
              0 <= Before(m, shard) + i < |Drained(m)| && Drained(m)[Before(m, shard) + i] == m.stacks[shard][i]
    ensures i < |m.reserve| ==>
              0 <= Before(m, |m.stacks|) + i < |Drained(m)| && Drained(m)[Before(m, |m.stacks|) + i] == m.reserve[i]
  {
    if shard < |m.stacks| && i < |m.stacks[shard]| { FlattenAt(m.stacks, shard, i); }
    FlattenLength(m.stacks);
    assert m.stacks[..|m.stacks|] == m.stacks;
  }
}
