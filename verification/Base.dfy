/** Bytes, optional values, and small facts about finite sets, maps and byte totals. */
module Base {

  datatype Option<+T> = None | Some(value: T)

  datatype Result<+T, +E> = Ok(value: T) | Err(error: E)

  newtype byte = x: int | 0 <= x < 256

  type Bytes = seq<byte>

  const USIZE_MAX: nat := 0xffff_ffff_ffff_ffff
  const U64_MAX: nat := 0xffff_ffff_ffff_ffff

  /** `usize::saturating_add`. */
  function SaturatingAdd(a: int, b: int): int {
    if a + b > USIZE_MAX then USIZE_MAX else a + b
  }

  function Lookup<K, V>(m: map<K, V>, k: K): Option<V> {
    if k in m then Some(m[k]) else None
  }

  predicate Distinct<T(==)>(xs: seq<T>) {
    forall i, j :: 0 <= i < j < |xs| ==> xs[i] != xs[j]
  }

  // ---- least and greatest members ----

  lemma {:induction false} Extremes(s: set<nat>) returns (least: nat, most: nat)
    requires s != {}
    ensures least in s && forall x :: x in s ==> least <= x
    ensures most in s && forall x :: x in s ==> x <= most
    decreases s
  {
    var x :| x in s;
    least, most := x, x;
    var rest := s - {x};
    if rest != {} {
      var l, m := Extremes(rest);
      least, most := if x < l then x else l, if x > m then x else m;
    }
    forall y | y in s
      ensures least <= y <= most
    {
      assert y == x || y in rest;
    }
  }

  lemma ExtremesExist(s: set<nat>)
    requires s != {}
    ensures exists m :: m in s && forall x :: x in s ==> m <= x
    ensures exists m :: m in s && forall x :: x in s ==> x <= m
  {
    var _, _ := Extremes(s);
  }

  function Min(s: set<nat>): (m: nat)
    requires s != {}
    ensures m in s && forall x :: x in s ==> m <= x
  {
    ExtremesExist(s);
    var m :| m in s && forall x :: x in s ==> m <= x;
    m
  }

  function Max(s: set<nat>): (m: nat)
    requires s != {}
    ensures m in s && forall x :: x in s ==> x <= m
  {
    ExtremesExist(s);
    var m :| m in s && forall x :: x in s ==> x <= m;
    m
  }

  /** The first key at or after `cursor`: what a forward seek finds. */
  function LeastFrom(keys: set<nat>, cursor: nat): (r: Option<nat>)
    ensures r.None? ==> forall q :: q in keys ==> q < cursor
    ensures r.Some? ==> r.value in keys && cursor <= r.value
    ensures r.Some? ==> forall q :: q in keys && cursor <= q ==> r.value <= q
  {
    var above := set q | q in keys && cursor <= q;
    if above == {} then
      assert forall q :: q in keys && cursor <= q ==> q in above;
      None
    else
      assert forall q :: q in keys && cursor <= q ==> q in above;
      Some(Min(above))
  }

  lemma LeastIs(keys: set<nat>, cursor: nat, k: nat)
    requires k in keys && cursor <= k && forall q :: q in keys && cursor <= q ==> k <= q
    ensures LeastFrom(keys, cursor) == Some(k)
  {
  }

  lemma LeastNone(keys: set<nat>, cursor: nat)
    requires forall q :: q in keys ==> q < cursor
    ensures LeastFrom(keys, cursor) == None
  {
  }

  // ---- byte totals ----

  /** The summed length of the values stored under keys below `n`. */
  function SumTo(m: map<nat, Bytes>, n: nat): nat {
    if n == 0 then 0
    else SumTo(m, n - 1) + (if n - 1 in m then |m[n - 1]| else 0)
  }

  lemma {:induction false} SumToSame(m: map<nat, Bytes>, m': map<nat, Bytes>, n: nat)
    requires forall k :: k < n ==> Lookup(m, k) == Lookup(m', k)
    ensures SumTo(m, n) == SumTo(m', n)
  {
    if n > 0 {
      SumToSame(m, m', n - 1);
      assert Lookup(m, n - 1) == Lookup(m', n - 1);
    }
  }

  lemma {:induction false} SumToAdd(m: map<nat, Bytes>, k: nat, v: Bytes, n: nat)
    requires k !in m && k < n
    ensures SumTo(m[k := v], n) == SumTo(m, n) + |v|
  {
    if n - 1 == k {
      SumToSame(m, m[k := v], n - 1);
    } else {
      SumToAdd(m, k, v, n - 1);
    }
  }

  lemma SumToRemove(m: map<nat, Bytes>, k: nat, n: nat)
    requires k in m && k < n
    ensures SumTo(m - {k}, n) == SumTo(m, n) - |m[k]|
  {
    SumToAdd(m - {k}, k, m[k], n);
    assert (m - {k})[k := m[k]] == m;
  }

  lemma {:induction false} SumToBeyond(m: map<nat, Bytes>, low: nat, n: nat)
    requires low <= n && forall k :: k in m ==> k < low
    ensures SumTo(m, n) == SumTo(m, low)
  {
    if low < n {
      SumToBeyond(m, low, n - 1);
    }
  }

  lemma {:induction false} SumToCovers(m: map<nat, Bytes>, k: nat, n: nat)
    requires k in m && k < n
    ensures |m[k]| <= SumTo(m, n)
  {
    if n - 1 != k {
      SumToCovers(m, k, n - 1);
    }
  }

  lemma {:induction false} SumToEmpty(n: nat)
    ensures SumTo(map[], n) == 0
  {
    if n > 0 {
      SumToEmpty(n - 1);
    }
  }

  // ---- cardinalities ----

  lemma {:induction false} SubsetSize<T>(a: set<T>, b: set<T>)
    requires a <= b
    ensures |a| <= |b|
  {
    assert b == a + (b - a);
  }

  lemma MapRemoveSize<K, V>(m: map<K, V>, k: K)
    requires k in m
    ensures |m - {k}| == |m| - 1
  {
    assert (m - {k}).Keys == m.Keys - {k};
  }

  lemma FourParts<T>(a: set<T>, b: set<T>, c: set<T>, d: set<T>)
    requires a !! b !! c !! d
    ensures |a + b + c + d| == |a| + |b| + |c| + |d|
  {
    assert |a + b| == |a| + |b|;
    assert |a + b + c| == |a + b| + |c|;
  }

  function One(b: bool): nat { if b then 1 else 0 }

  /** Two sets that agree except on `x`. */
  lemma SizesDiffer<T(!new)>(a: set<T>, a': set<T>, x: T)
    requires forall y :: y != x ==> (y in a <==> y in a')
    ensures |a'| == |a| - One(x in a) + One(x in a')
  {
    assert a - {x} == a' - {x};
    assert x in a ==> a == (a - {x}) + {x};
    assert x !in a ==> a == a - {x};
    assert x in a' ==> a' == (a' - {x}) + {x};
    assert x !in a' ==> a' == a' - {x};
  }
}
