/** Go's order on strings and the stable sort that cmpopts.SortSlices applies before
    two slices are compared, with an exact account of when two sorted slices agree. */
module Sorting {

  /** Go's `<` on strings. */
  predicate StringLess(a: string, b: string) {
    b != [] && (a == [] || a[0] < b[0] || (a[0] == b[0] && StringLess(a[1..], b[1..])))
  }

  lemma {:induction false} LessIsTotal(a: string, b: string)
    ensures a != b ==> StringLess(a, b) || StringLess(b, a)
    ensures !(StringLess(a, b) && StringLess(b, a))
  {
    if a != [] && b != [] && a[0] == b[0] {
      LessIsTotal(a[1..], b[1..]);
      assert a == [a[0]] + a[1..] && b == [b[0]] + b[1..];
    }
  }

  lemma {:induction false} LessIsTransitive(a: string, b: string, c: string)
    requires StringLess(a, b) && StringLess(b, c)
    ensures StringLess(a, c)
  {
    if a != [] && a[0] == b[0] && b[0] == c[0] {
      LessIsTransitive(a[1..], b[1..], c[1..]);
    }
  }

  /** The order a slice is sorted in: descending for IAM policies, ascending elsewhere. */
  predicate Before(desc: bool, a: string, b: string) {
    if desc then StringLess(b, a) else StringLess(a, b)
  }

  lemma BeforeIsTotal(desc: bool, a: string, b: string)
    ensures a != b ==> Before(desc, a, b) || Before(desc, b, a)
    ensures !(Before(desc, a, b) && Before(desc, b, a))
  {
    LessIsTotal(a, b);
  }

  lemma BeforeIsTransitive(desc: bool, a: string, b: string, c: string)
    requires !Before(desc, b, a) && !Before(desc, c, b)
    ensures !Before(desc, c, a)
  {
    BeforeIsTotal(desc, a, b);
    BeforeIsTotal(desc, b, c);
    BeforeIsTotal(desc, a, c);
    if Before(desc, a, b) && Before(desc, b, c) {
      if desc {
        LessIsTransitive(c, b, a);
      } else {
        LessIsTransitive(a, b, c);
      }
    }
  }

  // ---- stable sort ----

  function Insert<T>(key: T -> string, desc: bool, x: T, s: seq<T>): seq<T> {
    if s == [] then [x]
    else if Before(desc, key(s[0]), key(x)) then [s[0]] + Insert(key, desc, x, s[1..])
    else [x] + s
  }

  function Sort<T>(key: T -> string, desc: bool, s: seq<T>): seq<T> {
    if s == [] then [] else Insert(key, desc, s[0], Sort(key, desc, s[1..]))
  }

  /** Every element comes no later than the ones after it. */
  ghost predicate Sorted<T>(key: T -> string, desc: bool, s: seq<T>) {
    s != [] ==>
      && (forall i :: 0 <= i < |s| ==> !Before(desc, key(s[i]), key(s[0])))
      && Sorted(key, desc, s[1..])
  }

  /** The elements with a given key, in order. */
  function WithKey<T>(key: T -> string, s: seq<T>, k: string): seq<T> {
    if s == [] then []
    else (if key(s[0]) == k then [s[0]] else []) + WithKey(key, s[1..], k)
  }

  lemma {:induction false} InsertElements<T>(key: T -> string, desc: bool, x: T, s: seq<T>, y: T)
    ensures y in Insert(key, desc, x, s) <==> y == x || y in s
  {
    if s != [] {
      assert s == [s[0]] + s[1..];
      InsertElements(key, desc, x, s[1..], y);
    }
  }

  lemma {:induction false} InsertSorts<T>(key: T -> string, desc: bool, x: T, s: seq<T>)
    requires Sorted(key, desc, s)
    ensures Sorted(key, desc, Insert(key, desc, x, s))
  {
    BeforeIsTotal(desc, key(x), key(x));
    if s != [] {
      var r := Insert(key, desc, x, s);
      if Before(desc, key(s[0]), key(x)) {
        InsertSorts(key, desc, x, s[1..]);
        var t := Insert(key, desc, x, s[1..]);
        assert r[1..] == t;
        forall i | 0 <= i < |r|
          ensures !Before(desc, key(r[i]), key(s[0]))
        {
          BeforeIsTotal(desc, key(s[0]), key(x));
          BeforeIsTotal(desc, key(s[0]), key(s[0]));
          if i > 0 {
            assert r[i] == t[i - 1] && r[i] in t;
            InsertElements(key, desc, x, s[1..], r[i]);
          }
        }
      } else {
        assert r[1..] == s;
        forall i | 0 <= i < |r|
          ensures !Before(desc, key(r[i]), key(x))
        {
          if i > 0 {
            BeforeIsTransitive(desc, key(x), key(s[0]), key(r[i]));
          }
        }
      }
    }
  }

  lemma {:induction false} InsertIsStable<T>(key: T -> string, desc: bool, x: T, s: seq<T>, k: string)
    ensures WithKey(key, Insert(key, desc, x, s), k) == (if key(x) == k then [x] else []) + WithKey(key, s, k)
  {
    var r := Insert(key, desc, x, s);
    if s == [] || !Before(desc, key(s[0]), key(x)) {
      assert r[1..] == s;
    } else {
      assert r[1..] == Insert(key, desc, x, s[1..]);
      BeforeIsTotal(desc, key(x), key(x));
      InsertIsStable(key, desc, x, s[1..], k);
    }
  }

  /** Sort sorts, and keeps the elements of each key in their order. */
  lemma {:induction false} SortIsStable<T>(key: T -> string, desc: bool, s: seq<T>, k: string)
    ensures Sorted(key, desc, Sort(key, desc, s))
    ensures WithKey(key, Sort(key, desc, s), k) == WithKey(key, s, k)
  {
    if s != [] {
      SortIsStable(key, desc, s[1..], k);
      InsertSorts(key, desc, s[0], Sort(key, desc, s[1..]));
      InsertIsStable(key, desc, s[0], Sort(key, desc, s[1..]), k);
    }
  }

  /** The same elements of each key, in the same order. */
  ghost predicate SameByKey<T>(key: T -> string, s: seq<T>, t: seq<T>) {
    forall k: string :: WithKey(key, s, k) == WithKey(key, t, k)
  }

  // ---- a sorted slice is determined by its elements of each key ----

  lemma {:induction false} WithKeyFinds<T>(key: T -> string, s: seq<T>, k: string)
    ensures WithKey(key, s, k) != [] ==> exists i :: 0 <= i < |s| && key(s[i]) == k
  {
    if s != [] && key(s[0]) != k {
      WithKeyFinds(key, s[1..], k);
      if WithKey(key, s, k) != [] {
        var i :| 0 <= i < |s[1..]| && key(s[1..][i]) == k;
        assert key(s[i + 1]) == k;
      }
    }
  }

  lemma NotSameAsEmpty<T>(key: T -> string, t: seq<T>)
    requires t != []
    ensures !SameByKey(key, [], t)
  {
    assert WithKey(key, t, key(t[0])) != WithKey(key, [], key(t[0]));
  }

  lemma {:induction false} SortedIsUnique<T>(key: T -> string, desc: bool, s: seq<T>, t: seq<T>)
    requires Sorted(key, desc, s) && Sorted(key, desc, t)
    requires SameByKey(key, s, t)
    ensures s == t
  {
    if s == [] {
      if t != [] {
        NotSameAsEmpty(key, t);
      }
    } else {
      var k := key(s[0]);
      assert WithKey(key, s, k)[0] == s[0];
      WithKeyFinds(key, t, k);
      assert t != [];
      WithKeyFinds(key, s, key(t[0]));
      assert WithKey(key, t, key(t[0]))[0] == t[0];
      BeforeIsTotal(desc, k, key(t[0]));
      assert k == key(t[0]);
      assert s[0] == t[0];
      forall k'
        ensures WithKey(key, s[1..], k') == WithKey(key, t[1..], k')
      {
        SameTail(key, s, t, k');
      }
      SortedIsUnique(key, desc, s[1..], t[1..]);
      assert s == [s[0]] + s[1..] && t == [t[0]] + t[1..];
    }
  }

  lemma SameTail<T>(key: T -> string, s: seq<T>, t: seq<T>, k: string)
    requires s != [] && t != [] && s[0] == t[0] && WithKey(key, s, k) == WithKey(key, t, k)
    ensures WithKey(key, s[1..], k) == WithKey(key, t[1..], k)
  {
    if key(s[0]) == k {
      assert WithKey(key, s, k)[1..] == WithKey(key, s[1..], k);
      assert WithKey(key, t, k)[1..] == WithKey(key, t[1..], k);
    } else {
      assert WithKey(key, s, k) == WithKey(key, s[1..], k);
      assert WithKey(key, t, k) == WithKey(key, t[1..], k);
    }
  }

  lemma SortAgreesByKey<T>(key: T -> string, desc: bool, s: seq<T>)
    ensures Sorted(key, desc, Sort(key, desc, s)) && SameByKey(key, Sort(key, desc, s), s)
  {
    forall k: string
      ensures Sorted(key, desc, Sort(key, desc, s))
      ensures WithKey(key, Sort(key, desc, s), k) == WithKey(key, s, k)
    {
      SortIsStable(key, desc, s, k);
    }
    SortIsStable(key, desc, s, "");
  }

  lemma SameByKeyChain<T>(key: T -> string, s: seq<T>, t: seq<T>, u: seq<T>)
    requires SameByKey(key, s, t) && SameByKey(key, t, u)
    ensures SameByKey(key, s, u) && SameByKey(key, u, s)
  {
  }

  /** Two slices agree once sorted exactly when they agree key by key. */
  lemma SortsAgree<T>(key: T -> string, desc: bool, s: seq<T>, t: seq<T>)
    ensures Sort(key, desc, s) == Sort(key, desc, t) <==> SameByKey(key, s, t)
  {
    var s', t' := Sort(key, desc, s), Sort(key, desc, t);
    SortAgreesByKey(key, desc, s);
    SortAgreesByKey(key, desc, t);
    if s' == t' {
      SameByKeyChain(key, s', s, s);
      SameByKeyChain(key, s, s', t);
    }
    if SameByKey(key, s, t) {
      SameByKeyChain(key, s', s, t);
      SameByKeyChain(key, t', t, t);
      SameByKeyChain(key, s', t, t');
      SortedIsUnique(key, desc, s', t');
    }
  }

  // ---- slices of strings ----

  function Self(s: string): string {
    s
  }

  lemma {:induction false} WithKeyCounts(s: seq<string>, k: string)
    ensures |WithKey(Self, s, k)| == multiset(s)[k]
    ensures forall i :: 0 <= i < |WithKey(Self, s, k)| ==> WithKey(Self, s, k)[i] == k
  {
    if s != [] {
      assert s == [s[0]] + s[1..];
      WithKeyCounts(s[1..], k);
    }
  }

  lemma SameStringsByKey(s: seq<string>, t: seq<string>, k: string)
    ensures WithKey(Self, s, k) == WithKey(Self, t, k) <==> multiset(s)[k] == multiset(t)[k]
  {
    WithKeyCounts(s, k);
    WithKeyCounts(t, k);
  }

  /** Two slices of strings agree once sorted exactly when they hold the same strings
      equally often. */
  lemma SortedStringsAgree(desc: bool, s: seq<string>, t: seq<string>)
    ensures Sort(Self, desc, s) == Sort(Self, desc, t) <==> multiset(s) == multiset(t)
  {
    SortsAgree(Self, desc, s, t);
    if multiset(s) == multiset(t) {
      forall k: string
        ensures WithKey(Self, s, k) == WithKey(Self, t, k)
      {
        SameStringsByKey(s, t, k);
      }
    }
    if SameByKey(Self, s, t) {
      forall k: string
        ensures multiset(s)[k] == multiset(t)[k]
      {
        assert WithKey(Self, s, k) == WithKey(Self, t, k);
        SameStringsByKey(s, t, k);
      }
    }
  }
}
