/**
  Variable-size scratch on top of the pool (examples/size_buckets.rs): one grow-only pool,
  or one pool per power-of-two capacity class.
 */
module SizeClasses {
  import opened Sums
  import opened ShardIndex
  import opened PoolSteps
  import opened PoolMemory
  import PoolConservation

  // ---- the class arithmetic ----

  const SMALLEST_CLASS: nat := 4

  function MaxClass(maxN: nat): nat
  {
    TrailingZeros(NextPowerOfTwo(maxN))
  }

  /** `ClassScratch::new` builds one pool per class from 16 elements up. */
  function Pools(maxN: nat): nat
  {
    if MaxClass(maxN) < SMALLEST_CLASS then 0 else MaxClass(maxN) - SMALLEST_CLASS + 1
  }

  function ClassOf(n: nat): nat
  {
    TrailingZeros(NextPowerOfTwo(if n < 1 then 1 else n))
  }

  /** The subtraction does not wrap and the pool exists; otherwise `get` panics. */
  predicate Indexable(n: nat, maxN: nat)
  {
    ClassOf(n) >= SMALLEST_CLASS && ClassOf(n) - SMALLEST_CLASS < Pools(maxN)
  }

  lemma ClassIsLog(n: nat)
    ensures ClassOf(n) == Log2Ceil(if n < 1 then 1 else n) && MaxClass(n) == Log2Ceil(n)
  {
    TrailingZerosOfPow2(Log2Ceil(if n < 1 then 1 else n));
    TrailingZerosOfPow2(Log2Ceil(n));
  }

  /** `n` rounds up to at most `2^k` exactly when its exponent is at most `k`. */
  lemma LogOrder(n: nat, k: nat)
    ensures Log2Ceil(n) <= k <==> n <= Pow2(k)
  {
    NextPowerOfTwoIsLeast(n);
    if Log2Ceil(n) <= k {
      Pow2Monotone(Log2Ceil(n), k);
    } else {
      Pow2Monotone(k, Log2Ceil(n) - 1);
      assert NextPowerOfTwo(n) == 2 * Pow2(Log2Ceil(n) - 1);
      if n <= Pow2(k) { assert NextPowerOfTwo(n) <= Pow2(k); }
    }
  }

  /** A lease of `n` elements finds its pool exactly for sizes above 8 and up to the
      largest class built. Smaller sizes wrap the index even though 16 would hold them. */
  lemma IndexableIff(n: nat, maxN: nat)
    ensures Indexable(n, maxN) <==> 9 <= n <= NextPowerOfTwo(maxN)
  {
    ClassIsLog(n);
    ClassIsLog(maxN);
    var m := if n < 1 then 1 else n;
    LogOrder(m, 3);
    assert Pow2(3) == 8;
    LogOrder(m, Log2Ceil(maxN));
  }

  /** The class of `n` is the tightest: it holds `n` and less than twice `n`. */
  lemma ClassIsTight(n: nat)
    requires n >= 1
    ensures n <= Pow2(ClassOf(n)) < 2 * n
  {
    ClassIsLog(n);
    NextPowerOfTwoIsLeast(n);
  }

  // ---- capacities over any lease history ----

  datatype Vec = Vec(len: nat, cap: nat)

  /** `clear` followed by `resize`; `grown` is the capacity the allocator would give. */
  function Resized(v: Vec, n: nat, grown: nat): Vec
  {
    Vec(n, if n <= v.cap then v.cap else grown)
  }

  /** What the scratch and its users do: `cap` is what an initializer reserves if it runs, and
      writes to elements change neither length nor capacity. */
  datatype Use =
    | Pool(act: Action, cap: nat)
    | Serve(call: nat, n: nat, grown: nat)
    | Fill(call: nat)

  predicate IsLeased(m: Mem<Vec>, i: nat)
  {
    i < |m.ctl.calls| && m.ctl.calls[i].Held? && m.ctl.calls[i].buf < |m.heap|
  }

  function Holding(m: Mem<Vec>, i: nat): Vec
    requires IsLeased(m, i)
  {
    m.heap[m.ctl.calls[i].buf]
  }

  function AsMem(m: Mem<Vec>, u: Use): MemAction<Vec>
  {
    match u
    case Pool(act, cap) => Run(act, Vec(0, cap))
    case Serve(i, n, grown) => Write(i, if IsLeased(m, i) then Resized(Holding(m, i), n, grown) else Vec(0, 0))
    case Fill(i) => Write(i, if IsLeased(m, i) then Holding(m, i) else Vec(0, 0))
  }

  /** The initializer reserves at least `cap`, the allocator gives what it is asked for, no
      hook is installed and no vector comes from elsewhere. */
  predicate Fits(u: Use, cap: nat)
  {
    match u
    case Pool(act, reserved) => !act.StartForeign? && !act.SetReset? && reserved >= cap
    case Serve(_, n, grown) => grown >= n
    case Fill(_) => true
  }

  predicate AllFit(us: seq<Use>, cap: nat)
  {
    forall u | u in us :: Fits(u, cap)
  }

  function Perform(m: Mem<Vec>, us: seq<Use>): (r: Mem<Vec>)
    requires |m.ctl.piles| > 1
    ensures |r.ctl.piles| == |m.ctl.piles|
  {
    if us == [] then m else
    var t := Perform(m, us[..|us| - 1]);
    ApplyMem(t, AsMem(t, us[|us| - 1]))
  }

  /** The use resizes buffer `b`. */
  predicate Resizes(m: Mem<Vec>, u: Use, b: nat)
  {
    u.Serve? && IsLeased(m, u.call) && m.ctl.calls[u.call].buf == b
  }

  /** The largest size buffer `b` has served during the run. */
  function HighWater(m: Mem<Vec>, us: seq<Use>, b: nat): nat
    requires |m.ctl.piles| > 1
  {
    if us == [] then 0 else
    var before, u := HighWater(m, us[..|us| - 1], b), us[|us| - 1];
    if Resizes(Perform(m, us[..|us| - 1]), u, b) && u.n > before then u.n else before
  }

  ghost predicate Roomy(m: Mem<Vec>, cap: nat)
  {
    && Sound(m) && !m.ctl.hook
    && (forall i | 0 <= i < |m.ctl.calls| :: !m.ctl.calls[i].Reset?)
    && forall b | 0 <= b < |m.heap| :: m.heap[b].cap >= cap
  }

  /** Without a hook no call ever runs one. */
  lemma NoHookNoReset(s: State, a: Action)
    requires InRange(s) && !s.hook && !a.SetReset?
    requires forall i | 0 <= i < |s.calls| :: !s.calls[i].Reset?
    ensures var t := Apply(s, a); !t.hook && forall i | 0 <= i < |t.calls| :: !t.calls[i].Reset?
  {
    if Enabled(s, a) && Target(a).Some? {
      assert CallInRange(s.calls[Target(a).value], |s.piles|);
      assert !EffectOf(s, a).call.Reset?;
    }
  }

  /** A resize reallocates if and only if the size exceeds the capacity there is. */
  lemma ReallocatesIff(v: Vec, n: nat, grown: nat)
    requires grown >= n
    ensures Resized(v, n, grown).cap != v.cap <==> n > v.cap
    ensures Resized(v, n, grown).cap >= Max(v.cap, n)
  {
  }

  lemma UseKeepsRoom(m: Mem<Vec>, u: Use, cap: nat)
    requires Roomy(m, cap) && Fits(u, cap)
    ensures var t := ApplyMem(m, AsMem(m, u));
            && Roomy(t, cap) && |m.heap| <= |t.heap|
            && forall b | 0 <= b < |m.heap| ::
                 t.heap[b].cap >= m.heap[b].cap && (Resizes(m, u, b) ==> t.heap[b].cap >= u.n)
  {
    hide Apply;
    ApplySound(m, AsMem(m, u));
    if u.Pool? { NoHookNoReset(m.ctl, u.act); }
  }

  /** Over any run from a new pool: every buffer has at least the reserved capacity, and at
      least the largest size it has ever served. */
  lemma {:induction false} CapacityCoversHighWater(shards: nat, us: seq<Use>, cap: nat)
    requires shards > 0 && AllFit(us, cap)
    ensures var m: Mem<Vec> := Mem(New(shards), []); var t := Perform(m, us);
            Roomy(t, cap) && forall b | 0 <= b < |t.heap| :: t.heap[b].cap >= HighWater(m, us, b)
    ensures var m: Mem<Vec> := Mem(New(shards), []);
            forall b: nat | b >= |Perform(m, us).heap| :: HighWater(m, us, b) == 0
  {
    var m: Mem<Vec> := Mem(New(shards), []);
    if us == [] {
      NewSound<Vec>(shards);
    } else {
      CapacityCoversHighWater(shards, us[..|us| - 1], cap);
      UseKeepsRoom(Perform(m, us[..|us| - 1]), us[|us| - 1], cap);
    }
  }

  /** And it never falls. */
  lemma {:induction false} CapacityOnlyGrows(m: Mem<Vec>, us: seq<Use>, cap: nat)
    requires Roomy(m, cap) && AllFit(us, cap)
    ensures var t := Perform(m, us);
            Roomy(t, cap) && |m.heap| <= |t.heap| && forall b | 0 <= b < |m.heap| :: t.heap[b].cap >= m.heap[b].cap
  {
    if us == [] {
    } else {
      CapacityOnlyGrows(m, us[..|us| - 1], cap);
      UseKeepsRoom(Perform(m, us[..|us| - 1]), us[|us| - 1], cap);
    }
  }

  lemma LeasedIsMade(t: Mem<Vec>, i: nat)
    requires Sound(t) && i < |t.ctl.calls| && t.ctl.calls[i].Held?
    ensures IsLeased(t, i)
  {
    PoolConservation.Exclusivity(t.ctl, t.ctl.calls[i].buf,
                                 PoolConservation.InFlight(i), PoolConservation.InFlight(i));
  }

  /** Grow-only scratch: over every concurrent history, a lease of `n` elements reallocates if
      and only if `n` exceeds the vector's capacity, so never for a size up to the largest
      that vector has served. */
  lemma OnlyGrowthAllocates(shards: nat, us: seq<Use>, i: nat, n: nat, grown: nat)
    requires shards > 0 && AllFit(us, 0) && grown >= n
    requires var t := Perform(Mem(New(shards), []), us); i < |t.ctl.calls| && t.ctl.calls[i].Held?
    ensures var m: Mem<Vec> := Mem(New(shards), []); var t := Perform(m, us);
            && IsLeased(t, i)
            && (Resized(Holding(t, i), n, grown).cap != Holding(t, i).cap <==> n > Holding(t, i).cap)
            && (n <= HighWater(m, us, t.ctl.calls[i].buf) ==> Resized(Holding(t, i), n, grown) == Vec(n, Holding(t, i).cap))
  {
    var m: Mem<Vec> := Mem(New(shards), []);
    CapacityCoversHighWater(shards, us, 0);
    LeasedIsMade(Perform(m, us), i);
    ReallocatesIff(Holding(Perform(m, us), i), n, grown);
  }

  /** A lease served: the vector behind the guard has exactly the length asked for, grown or
      not, and room for it; and nothing else about the pool has changed. */
  lemma ServedHasLength(shards: nat, us: seq<Use>, i: nat, n: nat, grown: nat)
    requires shards > 0 && AllFit(us, 0) && grown >= n
    requires var t := Perform(Mem(New(shards), []), us); i < |t.ctl.calls| && t.ctl.calls[i].Held?
    ensures var t, r := Perform(Mem(New(shards), []), us), Perform(Mem(New(shards), []), us + [Serve(i, n, grown)]);
            && IsLeased(r, i) && Holding(r, i).len == n && Holding(r, i).cap >= n
            && r.ctl == t.ctl && |r.heap| == |t.heap|
            && forall b | 0 <= b < |t.heap| && b != t.ctl.calls[i].buf :: r.heap[b] == t.heap[b]
  {
    var m: Mem<Vec> := Mem(New(shards), []);
    var t := Perform(m, us);
    CapacityCoversHighWater(shards, us, 0);
    LeasedIsMade(t, i);
    assert (us + [Serve(i, n, grown)])[..|us|] == us;
    ReallocatesIff(Holding(t, i), n, grown);
  }

  /** What the constructor reserves in the pools it builds, class by class. */
  function Reservations(maxN: nat): seq<nat>
  {
    seq<nat>(Pools(maxN), k requires 0 <= k < Pools(maxN) => Pow2(k + SMALLEST_CLASS))
  }

  /** A size that finds its pool finds one whose vectors are reserved large enough, and less
      than twice as large as needed. */
  lemma ReservedEnough(n: nat, maxN: nat)
    requires Indexable(n, maxN)
    ensures ClassOf(n) >= 4 && ClassOf(n) - 4 < |Reservations(maxN)|
    ensures n <= Reservations(maxN)[ClassOf(n) - 4] < 2 * n
  {
    IndexableIff(n, maxN);
    ClassIsTight(n);
  }

  /** In the pool that `get` picks for `n`, whose initializer reserves what the constructor said,
      over every concurrent lease history, `clear` and `resize` to `n`, or to any other size
      with the same pool, leave the leased vector's capacity alone: no reallocation. */
  lemma ClassNeverReallocates(shards: nat, us: seq<Use>, i: nat, n: nat, maxN: nat, grown: nat)
    requires shards > 0 && Indexable(n, maxN) && AllFit(us, Reservations(maxN)[ClassOf(n) - SMALLEST_CLASS])
    requires var t := Perform(Mem(New(shards), []), us); i < |t.ctl.calls| && t.ctl.calls[i].Held?
    ensures var t := Perform(Mem(New(shards), []), us);
            IsLeased(t, i) && Resized(Holding(t, i), n, grown) == Vec(n, Holding(t, i).cap)
  {
    CapacityCoversHighWater(shards, us, Reservations(maxN)[ClassOf(n) - SMALLEST_CLASS]);
    ReservedEnough(n, maxN);
    LeasedIsMade(Perform(Mem(New(shards), []), us), i);
  }
}
