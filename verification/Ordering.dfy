/**
 Byte order on text, and sorting by a strict order: what a sort returns is fixed by the elements
 alone whenever the order decides between any two of them.
 */
module Ordering {
  import opened Collections

  predicate Less(s: string, t: string) {
    t != [] && (s == [] || s[0] < t[0] || (s[0] == t[0] && Less(s[1..], t[1..])))
  }

  /** `s` and `t` agree up to `n`, where `s` ends or has the smaller byte. */
  predicate SmallerAt(s: string, t: string, n: nat) {
    n <= |s| && n < |t| && s[..n] == t[..n] && (n == |s| || s[n] < t[n])
  }

  lemma SmallerAtTail(s: string, t: string, n: nat)
    requires s != [] && t != [] && n > 0
    ensures SmallerAt(s, t, n) <==> s[0] == t[0] && SmallerAt(s[1..], t[1..], n - 1)
  {
    if n <= |s| && n <= |t| {
      assert s[..n] == [s[0]] + s[1..][..n - 1] && t[..n] == [t[0]] + t[1..][..n - 1];
      assert s[..n][0] == s[0] && t[..n][0] == t[0] && s[..n][1..] == s[1..][..n - 1] && t[..n][1..] == t[1..][..n - 1];
    }
  }

  /** Dictionary order: at the first difference the smaller byte, or the end, comes first. */
  lemma {:induction false} LessMeans(s: string, t: string)
    ensures Less(s, t) <==> exists n :: SmallerAt(s, t, n)
  {
    if s == [] || t == [] {
      assert t != [] ==> SmallerAt(s, t, 0);
    } else {
      forall n: nat | n > 0 ensures SmallerAt(s, t, n) <==> s[0] == t[0] && SmallerAt(s[1..], t[1..], n - 1) {
        SmallerAtTail(s, t, n);
      }
      LessMeans(s[1..], t[1..]);
      assert SmallerAt(s, t, 0) <==> s[0] < t[0];
      if s[0] == t[0] && Less(s[1..], t[1..]) {
        var n: nat :| SmallerAt(s[1..], t[1..], n);
        assert SmallerAt(s, t, n + 1) <==> SmallerAt(s[1..], t[1..], n + 1 - 1);
      }
    }
  }

  lemma {:induction false} LessDecides(s: string, t: string)
    ensures !(Less(s, t) && Less(t, s))
    ensures s == t || Less(s, t) || Less(t, s)
  {
    if s != [] && t != [] {
      LessDecides(s[1..], t[1..]);
      if s[0] == t[0] && s[1..] == t[1..] { assert s == [s[0]] + s[1..] && t == [t[0]] + t[1..]; }
    }
  }

  lemma {:induction false} LessChains(s: string, t: string, u: string)
    requires Less(s, t) && Less(t, u)
    ensures Less(s, u)
  {
    if s != [] && s[0] == t[0] && t[0] == u[0] { LessChains(s[1..], t[1..], u[1..]); }
  }

  // ----- sorting -----

  ghost predicate Decides<T(!new)>(less: (T, T) -> bool, s: seq<T>) {
    && (forall x, y :: x in s && y in s && x != y ==> less(x, y) || less(y, x))
    && (forall x, y :: x in s && y in s ==> !(less(x, y) && less(y, x)))
    && (forall x, y, z :: x in s && y in s && z in s && less(x, y) && less(y, z) ==> less(x, z))
  }

  predicate Ordered<T>(less: (T, T) -> bool, s: seq<T>) {
    forall i, j :: 0 <= i < j < |s| ==> less(s[i], s[j])
  }

  ghost predicate SameElements<T(!new)>(s: seq<T>, t: seq<T>) {
    |s| == |t| && forall x :: x in s <==> x in t
  }

  function Insert<T>(less: (T, T) -> bool, x: T, s: seq<T>): seq<T> {
    if s == [] then [x] else if less(s[0], x) then [s[0]] + Insert(less, x, s[1..]) else [x] + s
  }

  function Sort<T>(less: (T, T) -> bool, s: seq<T>): seq<T> {
    if s == [] then [] else Insert(less, s[0], Sort(less, s[1..]))
  }

  lemma {:induction false} InsertElements<T(!new)>(less: (T, T) -> bool, x: T, s: seq<T>)
    ensures |Insert(less, x, s)| == |s| + 1 && forall y :: y in Insert(less, x, s) <==> y == x || y in s
  {
    if s != [] && less(s[0], x) {
      InsertElements(less, x, s[1..]);
      assert s == [s[0]] + s[1..];
    }
  }

  lemma {:induction false} InsertOrdered<T(!new)>(less: (T, T) -> bool, x: T, s: seq<T>)
    requires Ordered(less, s) && x !in s && Decides(less, [x] + s)
    ensures Ordered(less, Insert(less, x, s))
  {
    if s != [] {
      assert [x] + s == [x] + ([s[0]] + s[1..]);
      assert x in [x] + s && s[0] in [x] + s;
      if less(s[0], x) {
        forall y | y in [x] + s[1..] ensures y in [x] + s { }
        InsertOrdered(less, x, s[1..]);
        InsertElements(less, x, s[1..]);
        var r := Insert(less, x, s[1..]);
        forall y | y in r ensures less(s[0], y) {
          if y != x { assert y in s[1..]; }
        }
      } else {
        forall i | 0 <= i < |s| ensures less(x, s[i]) {
          assert s[i] in [x] + s;
          assert less(x, s[0]);
          assert i == 0 || less(s[0], s[i]);
        }
      }
    }
  }

  /** Sorting keeps the elements and orders them. */
  lemma {:induction false} SortSorts<T(!new)>(less: (T, T) -> bool, s: seq<T>)
    requires NoDup(s) && Decides(less, s)
    ensures Ordered(less, Sort(less, s)) && SameElements(Sort(less, s), s)
  {
    if s != [] {
      assert s == [s[0]] + s[1..];
      SortSorts(less, s[1..]);
      var rest := Sort(less, s[1..]);
      InsertElements(less, s[0], rest);
      forall y | y in [s[0]] + rest ensures y in s { }
      InsertOrdered(less, s[0], rest);
    }
  }

  lemma FirstIsLeast<T(!new)>(less: (T, T) -> bool, s: seq<T>, x: T)
    requires x in s && Ordered(less, s)
    ensures x == s[0] || less(s[0], x)
  {
    var i :| 0 <= i < |s| && s[i] == x;
    assert i == 0 || less(s[0], s[i]);
  }

  lemma FirstOnlyOnce<T(!new)>(less: (T, T) -> bool, s: seq<T>)
    requires s != [] && Ordered(less, s) && !less(s[0], s[0])
    ensures s[0] !in s[1..]
  {
    forall i | 1 <= i < |s| ensures s[i] != s[0] { assert less(s[0], s[i]); }
  }

  lemma TailsAgree<T(!new)>(less: (T, T) -> bool, s: seq<T>, t: seq<T>)
    requires s != [] && Ordered(less, s) && Ordered(less, t) && SameElements(s, t) && s[0] == t[0] && !less(s[0], s[0])
    ensures SameElements(s[1..], t[1..])
  {
    FirstOnlyOnce(less, s);
    FirstOnlyOnce(less, t);
    assert s == [s[0]] + s[1..] && t == [t[0]] + t[1..];
    forall x ensures x in s[1..] <==> x in t[1..] {
      assert x in s <==> x in t;
    }
  }

  /** Two ordered sequences with the same elements are the same sequence. */
  lemma {:induction false} OrderedUnique<T(!new)>(less: (T, T) -> bool, s: seq<T>, t: seq<T>)
    requires Ordered(less, s) && Ordered(less, t) && SameElements(s, t) && Decides(less, s)
    ensures s == t
  {
    if s != [] {
      assert s[0] in t && t[0] in s && s[0] in s;
      FirstIsLeast(less, s, t[0]);
      FirstIsLeast(less, t, s[0]);
      TailsAgree(less, s, t);
      OrderedUnique(less, s[1..], t[1..]);
      assert s == [s[0]] + s[1..] && t == [t[0]] + t[1..];
    }
  }

  /** Hence the order in which elements arrive does not matter. */
  lemma SortForgetsOrder<T(!new)>(less: (T, T) -> bool, s: seq<T>, t: seq<T>)
    requires NoDup(s) && NoDup(t) && SameElements(s, t) && Decides(less, s)
    ensures Sort(less, s) == Sort(less, t)
  {
    SortSorts(less, s);
    SortSorts(less, t);
    OrderedUnique(less, Sort(less, s), Sort(less, t));
  }
}
