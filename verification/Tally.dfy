/** Sums over threads and over the entries of a map. */
module Tally {

  /** The multiset union of `f` over a sequence. */
  ghost function Gather<T, K>(xs: seq<T>, f: T -> multiset<K>): multiset<K> {
    if xs == [] then multiset{} else Gather(xs[..|xs| - 1], f) + f(xs[|xs| - 1])
  }

  lemma {:induction false} GatherUpdate<T, K>(xs: seq<T>, i: nat, x: T, f: T -> multiset<K>)
    requires i < |xs|
    ensures f(xs[i]) <= Gather(xs, f)
    ensures Gather(xs[i := x], f) == Gather(xs, f) - f(xs[i]) + f(x)
  {
    var n := |xs| - 1;
    if i < n {
      GatherUpdate(xs[..n], i, x, f);
      assert xs[i := x][..n] == xs[..n][i := x];
    } else {
      assert xs[i := x][..n] == xs[..n];
    }
  }

  /** `GatherUpdate`, for an element that keeps, gains or loses one key. */
  lemma GatherMove<T, K>(xs: seq<T>, i: nat, x: T, f: T -> multiset<K>, gain: multiset<K>, loss: multiset<K>)
    requires i < |xs| && f(x) + loss == f(xs[i]) + gain
    ensures Gather(xs[i := x], f) + loss == Gather(xs, f) + gain
  {
    GatherUpdate(xs, i, x, f);
    Rearrange(Gather(xs, f), f(xs[i]), f(x), gain, loss);
  }

  lemma Rearrange<K>(all: multiset<K>, was: multiset<K>, now: multiset<K>, gain: multiset<K>, loss: multiset<K>)
    requires was <= all && now + loss == was + gain
    ensures all - was + now + loss == all + gain
  {
    forall k ensures (all - was + now + loss)[k] == (all + gain)[k] {
      assert (now + loss)[k] == (was + gain)[k];
    }
  }

  lemma {:induction false} GatherTwo<T, K>(xs: seq<T>, i: nat, j: nat, f: T -> multiset<K>)
    requires i < |xs| && j < |xs| && i != j
    ensures f(xs[i]) + f(xs[j]) <= Gather(xs, f)
  {
    var n := |xs| - 1;
    if i == n {
      GatherUpdate(xs[..n], j, xs[j], f);
    } else if j == n {
      GatherUpdate(xs[..n], i, xs[i], f);
    } else {
      GatherTwo(xs[..n], i, j, f);
    }
  }

  lemma {:induction false} GatherWitness<T, K>(xs: seq<T>, k: K, f: T -> multiset<K>) returns (i: nat)
    requires k in Gather(xs, f)
    ensures i < |xs| && k in f(xs[i])
  {
    var n := |xs| - 1;
    if k in f(xs[n]) {
      i := n;
    } else {
      i := GatherWitness(xs[..n], k, f);
    }
  }

  lemma {:induction false} GatherWithin<T, K>(xs: seq<T>, f: T -> multiset<K>, g: T -> multiset<K>)
    requires forall i :: 0 <= i < |xs| ==> f(xs[i]) <= g(xs[i])
    ensures Gather(xs, f) <= Gather(xs, g)
  {
    if xs != [] {
      GatherWithin(xs[..|xs| - 1], f, g);
    }
  }

  lemma {:induction false} TotalZero<T>(xs: seq<T>, f: T -> nat)
    ensures Total(xs, f) == 0 <==> forall i :: 0 <= i < |xs| ==> f(xs[i]) == 0
  {
    if xs != [] {
      TotalZero(xs[..|xs| - 1], f);
      assert forall i :: 0 <= i < |xs| - 1 ==> xs[..|xs| - 1][i] == xs[i];
      assert f(xs[|xs| - 1]) == 0 || exists i :: 0 <= i < |xs| && f(xs[i]) != 0;
    }
  }

  lemma {:induction false} GatherNone<T, K>(xs: seq<T>, f: T -> multiset<K>)
    requires forall i :: 0 <= i < |xs| ==> f(xs[i]) == multiset{}
    ensures Gather(xs, f) == multiset{}
  {
    if xs != [] {
      GatherNone(xs[..|xs| - 1], f);
    }
  }

  ghost function Total<T>(xs: seq<T>, f: T -> nat): nat {
    if xs == [] then 0 else Total(xs[..|xs| - 1], f) + f(xs[|xs| - 1])
  }

  lemma {:induction false} TotalUpdate<T>(xs: seq<T>, i: nat, x: T, f: T -> nat)
    requires i < |xs|
    ensures f(xs[i]) <= Total(xs, f)
    ensures Total(xs[i := x], f) == Total(xs, f) - f(xs[i]) + f(x)
  {
    var n := |xs| - 1;
    if i < n {
      TotalUpdate(xs[..n], i, x, f);
      assert xs[i := x][..n] == xs[..n][i := x];
    } else {
      assert xs[i := x][..n] == xs[..n];
    }
  }

  /** The sum of all values of a map. */
  ghost function Sum<K>(m: map<K, nat>): nat
    decreases |m|
  {
    if m == map[] then 0
    else
      var k :| k in m;
      m[k] + Sum(m - {k})
  }

  lemma {:induction false} SumRemove<K>(m: map<K, nat>, k: K)
    requires k in m
    ensures Sum(m) == m[k] + Sum(m - {k})
    decreases |m|
  {
    var p :| p in m && Sum(m) == m[p] + Sum(m - {p});
    if p != k {
      SumRemove(m - {p}, k);
      SumRemove(m - {k}, p);
      assert m - {p} - {k} == m - {k} - {p};
    }
  }

  lemma SumUpdate<K>(m: map<K, nat>, k: K, v: nat)
    ensures Sum(m[k := v]) == Sum(m) - (if k in m then m[k] else 0) + v
  {
    SumRemove(m[k := v], k);
    if k in m {
      SumRemove(m, k);
      assert m[k := v] - {k} == m - {k};
    } else {
      assert m[k := v] - {k} == m;
    }
  }

  lemma {:induction false} SumBound<K>(m: map<K, nat>, bound: nat)
    requires forall k :: k in m ==> m[k] <= bound
    ensures Sum(m) <= |m| * bound
    decreases |m|
  {
    if m != map[] {
      var k :| k in m;
      SumRemove(m, k);
      SumBound(m - {k}, bound);
      assert |m - {k}| == |m| - 1;
      assert |m| * bound == (|m| - 1) * bound + bound;
    }
  }

  /** Every value raised by the number of times its key occurs in `extra`. */
  ghost function Shift<K>(m: map<K, nat>, extra: multiset<K>): map<K, nat> {
    map k | k in m :: m[k] + extra[k]
  }

  lemma ShiftMore<K>(m: map<K, nat>, extra: multiset<K>, k: K)
    requires k in m
    ensures Shift(m, extra + multiset{k}) == Shift(m, extra)[k := m[k] + extra[k] + 1]
  {}

  lemma {:induction false} SumShift<K>(m: map<K, nat>, extra: multiset<K>)
    requires forall k :: k in extra ==> k in m
    ensures Sum(Shift(m, extra)) == Sum(m) + |extra|
    decreases |extra|
  {
    if extra == multiset{} {
      assert Shift(m, extra) == m;
    } else {
      var k :| k in extra;
      var less := extra - multiset{k};
      assert extra == less + multiset{k};
      SumShift(m, less);
      ShiftMore(m, less, k);
      SumUpdate(Shift(m, less), k, m[k] + less[k] + 1);
    }
  }

  /** A multiset without repetition is as large as the set of its elements. */
  lemma {:induction false} DistinctSize<K>(m: multiset<K>, keys: set<K>)
    requires forall k :: m[k] <= 1
    requires forall k :: k in m ==> k in keys
    ensures |m| <= |keys|
    ensures (forall k :: k in keys ==> k in m) ==> |m| == |keys|
    decreases |keys|
  {
    if keys == {} {
      assert m == multiset{};
    } else {
      var k :| k in keys;
      var less := m[k := 0];
      DistinctSize(less, keys - {k});
      assert m == less + multiset{k} || m == less;
    }
  }

  lemma {:induction false} SubsetSize<K>(a: set<K>, b: set<K>)
    requires a <= b
    ensures |a| <= |b|
  {
    if a != {} {
      var x :| x in a;
      SubsetSize(a - {x}, b - {x});
    }
  }

  lemma {:induction false} SubsetSame<K>(a: set<K>, b: set<K>)
    requires a <= b && |b| <= |a|
    ensures a == b
  {
    if a != {} {
      var x :| x in a;
      SubsetSame(a - {x}, b - {x});
      assert a == (a - {x}) + {x} && b == (b - {x}) + {x};
    }
  }
}
