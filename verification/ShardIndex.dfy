/**
  Which shard a thread uses: the sizing of the shard array, the dense thread ids, and the
  mask that maps one to the other (src/buffer.rs:92-145, 211-217, 605-607).
 */
module ShardIndex {
  import opened Wrappers

  const MIN_SHARDS: nat := 128

  function Pow2(k: nat): (r: nat)
    ensures r >= 1
  {
    if k == 0 then 1 else 2 * Pow2(k - 1)
  }

  /** The exponent of the least power of two that is at least `n`. */
  function Log2Ceil(n: nat): nat
  {
    if n <= 1 then 0 else 1 + Log2Ceil((n + 1) / 2)
  }

  /** `usize::next_power_of_two`; zero gives one. */
  function NextPowerOfTwo(n: nat): nat
  {
    Pow2(Log2Ceil(n))
  }

  /** `usize::trailing_zeros` of a positive number. */
  function TrailingZeros(n: nat): nat
    requires n > 0
  {
    if n % 2 == 1 then 0 else 1 + TrailingZeros(n / 2)
  }

  lemma {:induction false} TrailingZerosOfPow2(k: nat)
    ensures TrailingZeros(Pow2(k)) == k
  {
    if k == 0 {
    } else {
      assert Pow2(k) / 2 == Pow2(k - 1);
      TrailingZerosOfPow2(k - 1);
    }
  }

  lemma {:induction false} Pow2Monotone(j: nat, k: nat)
    requires j <= k
    ensures Pow2(j) <= Pow2(k)
  {
    if j == k {
    } else {
      Pow2Monotone(j, k - 1);
    }
  }

  /** `n` rounded up stays below twice `n`, and no smaller power of two will do. */
  lemma {:induction false} NextPowerOfTwoIsLeast(n: nat)
    ensures n <= NextPowerOfTwo(n)
    ensures n >= 1 ==> NextPowerOfTwo(n) < 2 * n
    ensures forall k: nat :: n <= Pow2(k) ==> NextPowerOfTwo(n) <= Pow2(k)
  {
    if n <= 1 {
    } else {
      NextPowerOfTwoIsLeast((n + 1) / 2);
      forall k: nat | n <= Pow2(k) ensures NextPowerOfTwo(n) <= Pow2(k) {
        assert k > 0;
        assert (n + 1) / 2 <= Pow2(k - 1);
      }
    }
  }

  /** Shards of a new pool; `None` when the parallelism cannot be determined. */
  function ShardCount(parallelism: Option<nat>): nat
  {
    match parallelism
    case None => MIN_SHARDS
    case Some(n) => if NextPowerOfTwo(n) < MIN_SHARDS then MIN_SHARDS else NextPowerOfTwo(n)
  }

  /** The shard count is the least power of two that is at least 128 and at least the
      machine's parallelism. */
  lemma ShardCountFits(parallelism: Option<nat>)
    ensures var n := ShardCount(parallelism);
            && (exists k: nat :: n == Pow2(k))
            && n >= 128 && (parallelism.Some? ==> n >= parallelism.value)
            && forall k: nat :: Pow2(k) >= 128 && (parallelism.Some? ==> Pow2(k) >= parallelism.value)
                 ==> n <= Pow2(k)
  {
    assert Pow2(7) == 128 by { assert Pow2(4) == 16; }
    if parallelism.Some? {
      NextPowerOfTwoIsLeast(parallelism.value);
    }
  }

  // ---- the mask ----

  /** Bitwise and. */
  function And(a: nat, b: nat): nat
  {
    if a == 0 || b == 0 then 0 else (a % 2) * (b % 2) + 2 * And(a / 2, b / 2)
  }

  lemma MulGap(n: nat, d: int)
    ensures d >= 1 ==> n * d >= n
    ensures d <= -1 ==> n * d + n <= 0
  {
    if d >= 1 { assert n * d == n + n * (d - 1); assert n * (d - 1) >= 0; }
    if d <= -1 { assert n * d + n == n * (d + 1); assert n * (d + 1) <= 0; }
  }

  lemma RemainderIs(t: nat, n: nat, q: nat, r: nat)
    requires n > 0 && r < n && t == n * q + r
    ensures t % n == r
  {
    assert t == n * (t / n) + t % n;
    assert n * (t / n - q) == n * (t / n) - n * q;
    MulGap(n, t / n - q);
  }

  lemma DoubleRemainder(t: nat, n: nat)
    requires n > 0
    ensures t % (2 * n) == t % 2 + 2 * ((t / 2) % n)
  {
    var q, r := (t / 2) / n, (t / 2) % n;
    assert t / 2 == n * q + r;
    assert 2 * (n * q) == (2 * n) * q;
    RemainderIs(t, 2 * n, q, t % 2 + 2 * r);
  }

  lemma AndOdd(a: nat, b: nat)
    requires b % 2 == 1
    ensures And(a, b) == a % 2 + 2 * And(a / 2, b / 2)
  {
    if a == 0 {
    } else {
      assert (a % 2) * (b % 2) == a % 2;
    }
  }

  /** Masking with one less than a power of two is the remainder. */
  lemma {:induction false} MaskIsRemainder(tid: nat, k: nat)
    ensures And(tid, Pow2(k) - 1) == tid % Pow2(k)
  {
    if k == 0 {
    } else {
      var n := Pow2(k - 1);
      MaskIsRemainder(tid / 2, k - 1);
      AndOdd(tid, 2 * n - 1);
      DoubleRemainder(tid, n);
    }
  }

  /** The mask of a new pool always selects an existing shard, and it is the remainder. */
  lemma MaskSelectsShard(parallelism: Option<nat>, tid: nat)
    ensures var n := ShardCount(parallelism); n > 0 && And(tid, n - 1) == tid % n && And(tid, n - 1) < n
  {
    ShardCountFits(parallelism);
    var k: nat :| ShardCount(parallelism) == Pow2(k);
    MaskIsRemainder(tid, k);
  }

  lemma SameRemainderFarApart(n: nat, t: nat, u: nat)
    requires n > 0 && t % n == u % n && t < u
    ensures u - t >= n
  {
    assert t == n * (t / n) + t % n && u == n * (u / n) + u % n;
    assert n * (u / n - t / n) == n * (u / n) - n * (t / n);
    MulGap(n, u / n - t / n);
  }

  /** Any `n` consecutive thread ids cover the shards, each exactly once. */
  lemma ConsecutiveIdsCover(n: nat, from: nat, shard: nat)
    requires shard < n
    ensures exists tid: nat :: from <= tid < from + n && tid % n == shard
    ensures forall t: nat, u: nat :: from <= t < from + n && from <= u < from + n && t % n == u % n ==> t == u
  {
    var base, over := from / n, from % n;
    var q := if shard >= over then base else base + 1;
    var tid := n * q + shard;
    assert n * (base + 1) == n * base + n;
    assert from == n * base + over;
    RemainderIs(tid, n, q, shard);
    forall t: nat, u: nat | from <= t < from + n && from <= u < from + n && t % n == u % n ensures t == u {
      if t < u { SameRemainderFarApart(n, t, u); }
      if u < t { SameRemainderFarApart(n, u, t); }
    }
  }

  // ---- dense thread ids ----

  /** The thread-local ids and the counter they are drawn from; a thread without an entry
      has not asked yet. */
  class ThreadIds {
    var next: nat
    var idOf: map<nat, nat>

    ghost predicate Valid()
      reads this
    {
      && (forall t | t in idOf :: idOf[t] < next)
      && (forall t, u | t in idOf && u in idOf && idOf[t] == idOf[u] :: t == u)
      && (forall id | 0 <= id < next :: id in idOf.Values)
    }

    constructor ()
      ensures Valid() && next == 0 && idOf == map[]
    {
      next, idOf := 0, map[];
    }

    /** The id sticks; a new one is the next number. Ids are dense and never shared. */
    method Tid(thread: nat) returns (id: nat)
      requires Valid()
      modifies this
      ensures Valid() && thread in idOf && idOf[thread] == id
      ensures if thread in old(idOf) then idOf == old(idOf) && next == old(next)
              else idOf == old(idOf)[thread := old(next)] && next == old(next) + 1
    {
      if thread in idOf {
        id := idOf[thread];
      } else {
        ghost var before := idOf;
        id := next;
        idOf := idOf[thread := id];
        next := next + 1;
        forall k | 0 <= k < next ensures k in idOf.Values {
          if k < id {
            assert k in before.Values;
            var t :| t in before && before[t] == k;
            assert t in idOf && idOf[t] == k;
          } else {
            assert idOf[thread] == k;
          }
        }
      }
    }

    /** Until there are more threads than shards, no two threads share a shard. */
    lemma NoSharing(n: nat, t: nat, u: nat)
      requires Valid() && next <= n && t in idOf && u in idOf && t != u
      ensures idOf[t] % n != idOf[u] % n
    {
      var a, b := idOf[t], idOf[u];
      ConsecutiveIdsCover(n, 0, 0);
      assert a % n == b % n ==> a == b;
    }
  }
}
