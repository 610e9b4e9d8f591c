/**
 Facts about sequences, finite maps of counters and counted sub-populations that the
 queue, admission, context and buffer models share.
 */
module Collections {

  // ----- sequences without repetition -----

  predicate NoDup<T(==)>(s: seq<T>) {
    forall i, j :: 0 <= i < j < |s| ==> s[i] != s[j]
  }

  /** `VecDeque::retain(|y| y != x)` and `Set.delete(x)`. */
  function Without<T(==,!new)>(s: seq<T>, x: T): (r: seq<T>)
    ensures forall y :: y in r <==> y in s && y != x
    ensures |r| <= |s|
    ensures x !in s ==> r == s
  {
    if s == [] then [] else
    var rest := Without(s[1..], x);
    assert s == [s[0]] + s[1..];
    if s[0] == x then rest else [s[0]] + rest
  }

  lemma {:induction false} WithoutNoDup<T(!new)>(s: seq<T>, x: T)
    requires NoDup(s)
    ensures NoDup(Without(s, x)) && |Without(s, x)| == |s| - (if x in s then 1 else 0)
  {
    if s != [] {
      assert s == [s[0]] + s[1..];
      WithoutNoDup(s[1..], x);
      assert s[0] !in s[1..];
    }
  }

  lemma NoDupAppend<T>(s: seq<T>, x: T)
    requires NoDup(s) && x !in s
    ensures NoDup(s + [x])
  {
  }

  function IndexOf<T(==)>(s: seq<T>, x: T): (i: nat)
    requires x in s
    ensures i < |s| && s[i] == x && forall j :: 0 <= j < i ==> s[j] != x
  {
    if s[0] == x then 0 else 1 + IndexOf(s[1..], x)
  }

  /** Removing other elements never moves an element back. */
  lemma IndexOfWithout<T(!new)>(s: seq<T>, x: T, y: T)
    requires y in s && y != x
    ensures IndexOf(Without(s, x), y) <= IndexOf(s, y)
  {
    if s[0] != y {
      assert s == [s[0]] + s[1..];
      IndexOfWithout(s[1..], x, y);
    }
  }

  /** Every element of the duplicate-free `s` lies in `t`. */
  lemma NoDupBounded<T>(s: seq<T>, t: set<T>)
    requires NoDup(s) && forall x :: x in s ==> x in t
    ensures |s| <= |t|
  {
    if s != [] {
      forall x | x in s[1..] ensures x in t - {s[0]} { }
      NoDupBounded(s[1..], t - {s[0]});
    }
  }

  lemma SubsetSize<T>(a: set<T>, b: set<T>)
    requires a <= b
    ensures |a| <= |b|
  {
    assert b == a + (b - a);
  }

  // ----- totals of a map of counters -----

  /** A counter that is absent at zero. */
  function Get<K(==)>(m: map<K, nat>, k: K): nat {
    if k in m then m[k] else 0
  }

  ghost function Sum<K(!new)>(m: map<K, nat>): nat
    decreases m.Keys
  {
    if m == map[] then 0 else var k :| k in m; m[k] + Sum(m - {k})
  }

  lemma {:induction false} SumRemove<K(!new)>(m: map<K, nat>, k: K)
    requires k in m
    ensures Sum(m) == m[k] + Sum(m - {k})
    decreases m.Keys
  {
    var c :| c in m && Sum(m) == m[c] + Sum(m - {c});
    if c != k {
      SumRemove(m - {c}, k);
      SumRemove(m - {k}, c);
      assert (m - {c}) - {k} == (m - {k}) - {c};
    }
  }

  lemma SumUpdate<K(!new)>(m: map<K, nat>, k: K, v: nat)
    ensures Sum(m[k := v]) == Sum(m) - (if k in m then m[k] else 0) + v
  {
    SumRemove(m[k := v], k);
    assert m[k := v] - {k} == m - {k};
    if k in m { SumRemove(m, k); } else { assert m - {k} == m; }
  }

  lemma SumDelete<K(!new)>(m: map<K, nat>, k: K)
    ensures Sum(m - {k}) == Sum(m) - (if k in m then m[k] else 0)
  {
    if k in m { SumRemove(m, k); } else { assert m - {k} == m; }
  }

  /** A total is at least the number of keys whose counter is positive. */
  lemma {:induction false} SumCoversSupport<K(!new)>(m: map<K, nat>, support: set<K>)
    requires forall k :: k in support ==> k in m && m[k] > 0
    ensures |support| <= Sum(m)
    decreases support
  {
    if support != {} {
      var k :| k in support;
      SumRemove(m, k);
      SumCoversSupport(m - {k}, support - {k});
    }
  }

  // ----- how many entries of a table satisfy a predicate -----

  ghost function Chosen<K(!new), V>(m: map<K, V>, p: V -> bool): set<K> {
    set h | h in m && p(m[h])
  }

  ghost function Count<K(!new), V>(m: map<K, V>, p: V -> bool): nat {
    |Chosen(m, p)|
  }

  lemma CountDelete<K(!new), V>(m: map<K, V>, p: V -> bool, h: K)
    ensures Count(m - {h}, p) == Count(m, p) - (if h in m && p(m[h]) then 1 else 0)
  {
    var rest := Chosen(m - {h}, p);
    assert h !in rest;
    if h in m && p(m[h]) {
      assert Chosen(m, p) == rest + {h};
    } else {
      assert Chosen(m, p) == rest;
    }
  }

  lemma CountPut<K(!new), V>(m: map<K, V>, p: V -> bool, h: K, v: V)
    ensures Count(m[h := v], p)
         == Count(m, p) - (if h in m && p(m[h]) then 1 else 0) + (if p(v) then 1 else 0)
  {
    CountDelete(m, p, h);
    CountDelete(m[h := v], p, h);
    assert m[h := v] - {h} == m - {h};
  }
}
