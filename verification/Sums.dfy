/**
  Weighted sums over sequences. Every counting invariant of the pool protocols is a
  sum over piles plus a sum over the calls in flight, so one update law serves them all.
 */
module Sums {

  function Sum<T>(w: T -> int, s: seq<T>): int
  {
    if s == [] then 0 else Sum(w, s[..|s| - 1]) + w(s[|s| - 1])
  }

  /** The weight of a pile: how many buffers are in it. */
  function Length<T>(s: seq<T>): int
  {
    |s|
  }

  function Max(a: int, b: int): int
  {
    if a < b then b else a
  }

  lemma SumOne<T>(w: T -> int, x: T)
    ensures Sum(w, [x]) == w(x)
  {
    var one := [x];
    assert one[..0] == [];
  }

  lemma SumAppend<T>(w: T -> int, s: seq<T>, x: T)
    ensures Sum(w, s + [x]) == Sum(w, s) + w(x)
  {
    assert (s + [x])[..|s|] == s;
  }

  /** Replacing one element changes the sum by the difference of the two weights. */
  lemma {:induction false} SumUpdate<T>(w: T -> int, s: seq<T>, i: nat, x: T)
    requires i < |s|
    ensures Sum(w, s[i := x]) == Sum(w, s) - w(s[i]) + w(x)
  {
    var n := |s| - 1;
    if i == n {
      assert s[i := x][..n] == s[..n];
    } else {
      assert s[i := x][..n] == s[..n][i := x];
      SumUpdate(w, s[..n], i, x);
    }
  }

  lemma {:induction false} SumConcat<T>(w: T -> int, s: seq<T>, t: seq<T>)
    ensures Sum(w, s + t) == Sum(w, s) + Sum(w, t)
  {
    if t == [] {
      assert s + t == s;
    } else {
      var n := |t| - 1;
      assert (s + t)[..|s + t| - 1] == s + t[..n];
      SumConcat(w, s, t[..n]);
    }
  }

  /** A sum of non-negative weights is at least any one of them, hence non-negative. */
  lemma {:induction false} SumCovers<T>(w: T -> int, s: seq<T>)
    requires forall x | x in s :: w(x) >= 0
    ensures Sum(w, s) >= 0
    ensures forall i | 0 <= i < |s| :: w(s[i]) <= Sum(w, s)
  {
    if s == [] {
    } else {
      var n := |s| - 1;
      SumCovers(w, s[..n]);
      forall i | 0 <= i < |s| ensures w(s[i]) <= Sum(w, s) {
        if i < n { assert s[i] == s[..n][i]; }
      }
    }
  }

  lemma {:induction false} SumZero<T>(w: T -> int, s: seq<T>)
    requires forall x | x in s :: w(x) == 0
    ensures Sum(w, s) == 0
  {
    if s == [] {
    } else {
      SumZero(w, s[..|s| - 1]);
    }
  }

  /** Pointwise comparison of two weights. */
  lemma {:induction false} SumMonotone<T>(w: T -> int, v: T -> int, s: seq<T>)
    requires forall x | x in s :: w(x) <= v(x)
    ensures Sum(w, s) <= Sum(v, s)
  {
    if s == [] {
    } else {
      SumMonotone(w, v, s[..|s| - 1]);
    }
  }

  /** Two different positions are both covered at once. */
  lemma {:induction false} SumCoversTwo<T>(w: T -> int, s: seq<T>, i: nat, j: nat)
    requires i < j < |s|
    requires forall x | x in s :: w(x) >= 0
    ensures w(s[i]) + w(s[j]) <= Sum(w, s)
  {
    var n := |s| - 1;
    if j == n {
      SumCovers(w, s[..n]);
      assert s[..n][i] == s[i];
    } else {
      SumCoversTwo(w, s[..n], i, j);
    }
  }

  // ---- how often a number occurs in a sequence ----

  function Occ(b: nat, s: seq<nat>): nat
  {
    if s == [] then 0 else Occ(b, s[..|s| - 1]) + if s[|s| - 1] == b then 1 else 0
  }

  lemma OccOne(b: nat, x: nat)
    ensures Occ(b, []) == 0
    ensures Occ(b, [x]) == if x == b then 1 else 0
  {
    assert [x][..0] == [];
  }

  lemma {:induction false} OccConcat(b: nat, s: seq<nat>, t: seq<nat>)
    ensures Occ(b, s + t) == Occ(b, s) + Occ(b, t)
  {
    if t == [] {
      assert s + t == s;
    } else {
      assert (s + t)[..|s + t| - 1] == s + t[..|t| - 1];
      OccConcat(b, s, t[..|t| - 1]);
    }
  }

  lemma OccRemove(b: nat, s: seq<nat>, i: nat)
    requires i < |s|
    ensures Occ(b, s[..i] + s[i + 1..]) == Occ(b, s) - if s[i] == b then 1 else 0
  {
    hide Occ;
    assert s == s[..i] + ([s[i]] + s[i + 1..]);
    OccConcat(b, s[..i], [s[i]] + s[i + 1..]);
    OccConcat(b, [s[i]], s[i + 1..]);
    OccConcat(b, s[..i], s[i + 1..]);
    OccOne(b, s[i]);
  }

  lemma {:induction false} OccIn(b: nat, s: seq<nat>)
    ensures b in s <==> Occ(b, s) >= 1
  {
    if s == [] {
    } else {
      assert s == s[..|s| - 1] + [s[|s| - 1]];
      OccIn(b, s[..|s| - 1]);
    }
  }
}
