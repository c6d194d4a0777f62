/** Python's `sorted`: a stable insertion order, and the facts that make an order canonical. */
module Ordering {

  ghost predicate TotalPreorder<T(!new)>(le: (T, T) -> bool) {
    && (forall x, y :: le(x, y) || le(y, x))
    && (forall x, y, z :: le(x, y) && le(y, z) ==> le(x, z))
  }

  /** Sorted under a preorder: every earlier element is at most every later one. */
  ghost predicate SortedBy<T>(s: seq<T>, le: (T, T) -> bool) {
    forall i, j :: 0 <= i < j < |s| ==> le(s[i], s[j])
  }

  /** Insert `x` before the first element it does not exceed. */
  function Insert<T>(x: T, s: seq<T>, le: (T, T) -> bool): (r: seq<T>)
    ensures |r| == |s| + 1
  {
    if s == [] then [x]
    else if le(x, s[0]) then [x] + s
    else [s[0]] + Insert(x, s[1..], le)
  }

  /** Stable sort: equal keys keep their input order. */
  function Sorted<T>(s: seq<T>, le: (T, T) -> bool): (r: seq<T>)
    ensures |r| == |s|
  {
    if s == [] then [] else Insert(s[0], Sorted(s[1..], le), le)
  }

  function Filter<T>(s: seq<T>, p: T -> bool): seq<T> {
    if s == [] then []
    else if p(s[0]) then [s[0]] + Filter(s[1..], p)
    else Filter(s[1..], p)
  }

  lemma {:induction false} FilterMembership<T>(s: seq<T>, p: T -> bool, x: T)
    ensures x in Filter(s, p) <==> x in s && p(x)
  {
    if s != [] { FilterMembership(s[1..], p, x); }
  }

  lemma {:induction false} InsertPermutes<T>(x: T, s: seq<T>, le: (T, T) -> bool)
    ensures multiset(Insert(x, s, le)) == multiset{x} + multiset(s)
  {
    if s == [] {
    } else if le(x, s[0]) {
      assert multiset([x] + s) == multiset{x} + multiset(s);
    } else {
      var r := Insert(x, s[1..], le);
      InsertPermutes(x, s[1..], le);
      assert s == [s[0]] + s[1..];
      assert multiset([s[0]] + r) == multiset{s[0]} + multiset(r);
    }
  }

  lemma {:induction false} InsertSorts<T(!new)>(x: T, s: seq<T>, le: (T, T) -> bool)
    requires TotalPreorder(le) && SortedBy(s, le)
    ensures SortedBy(Insert(x, s, le), le)
  {
    if s == [] {
    } else if le(x, s[0]) {
      var r := [x] + s;
      forall i, j | 0 <= i < j < |r| ensures le(r[i], r[j]) {
        if i == 0 && j > 1 { assert le(s[0], s[j - 1]); }
      }
    } else {
      InsertSorts(x, s[1..], le);
      var t := Insert(x, s[1..], le);
      InsertPermutes(x, s[1..], le);
      forall j | 0 <= j < |t| ensures le(s[0], t[j]) {
        assert t[j] in multiset(t);
        if t[j] != x { assert t[j] in s[1..]; }
      }
    }
  }

  /** Sorting yields a sorted permutation of its input. */
  lemma {:induction false} SortedIsSortedPermutation<T(!new)>(s: seq<T>, le: (T, T) -> bool)
    requires TotalPreorder(le)
    ensures SortedBy(Sorted(s, le), le)
    ensures multiset(Sorted(s, le)) == multiset(s)
  {
    if s == [] {
    } else {
      SortedIsSortedPermutation(s[1..], le);
      InsertSorts(s[0], Sorted(s[1..], le), le);
      InsertPermutes(s[0], Sorted(s[1..], le), le);
      assert s == [s[0]] + s[1..];
    }
  }

  lemma SortedKeepsElements<T(!new)>(s: seq<T>, le: (T, T) -> bool)
    requires TotalPreorder(le)
    ensures forall x :: x in Sorted(s, le) <==> x in s
  {
    SortedIsSortedPermutation(s, le);
    forall x ensures x in Sorted(s, le) <==> x in s {
      assert x in multiset(Sorted(s, le)) <==> x in multiset(s);
    }
  }

  lemma InsertBeforeAll<T(!new)>(x: T, s: seq<T>, le: (T, T) -> bool, p: T -> bool)
    requires TotalPreorder(le) && SortedBy(s, le) && s != [] && le(x, s[0])
    ensures Insert(x, Filter(s, p), le) == [x] + Filter(s, p)
  {
    var f := Filter(s, p);
    if f != [] {
      FilterMembership(s, p, f[0]);
      assert le(s[0], f[0]);
    }
  }

  lemma {:induction false} InsertFilters<T(!new)>(x: T, s: seq<T>, le: (T, T) -> bool, p: T -> bool)
    requires TotalPreorder(le) && SortedBy(s, le)
    ensures Filter(Insert(x, s, le), p) == if p(x) then Insert(x, Filter(s, p), le) else Filter(s, p)
  {
    if s == [] {
    } else if le(x, s[0]) {
      assert ([x] + s)[1..] == s;
      InsertBeforeAll(x, s, le, p);
    } else {
      InsertFilters(x, s[1..], le, p);
      assert ([s[0]] + Insert(x, s[1..], le))[1..] == Insert(x, s[1..], le);
      var f := Filter(s[1..], p);
      if p(s[0]) {
        assert ([s[0]] + f)[1..] == f;
      }
    }
  }

  /** Filtering commutes with sorting. */
  lemma {:induction false} FilterSorted<T(!new)>(s: seq<T>, le: (T, T) -> bool, p: T -> bool)
    requires TotalPreorder(le)
    ensures Filter(Sorted(s, le), p) == Sorted(Filter(s, p), le)
  {
    if s == [] {
    } else {
      FilterSorted(s[1..], le, p);
      SortedIsSortedPermutation(s[1..], le);
      InsertFilters(s[0], Sorted(s[1..], le), le, p);
      if p(s[0]) {
        assert ([s[0]] + Filter(s[1..], p))[1..] == Filter(s[1..], p);
      }
    }
  }

  lemma {:induction false} FilterAppend<T>(s: seq<T>, t: seq<T>, p: T -> bool)
    ensures Filter(s + t, p) == Filter(s, p) + Filter(t, p)
  {
    if s == [] {
      assert s + t == t;
    } else {
      FilterAppend(s[1..], t, p);
      assert (s + t)[1..] == s[1..] + t;
    }
  }

  lemma FilterSnoc<T>(h: seq<T>, e: T, p: T -> bool)
    ensures Filter(h + [e], p) == if p(e) then Filter(h, p) + [e] else Filter(h, p)
  {
    FilterAppend(h, [e], p);
    assert [e][1..] == [];
    assert Filter([e], p) == if p(e) then [e] else [];
  }

  lemma {:induction false} FilterTwice<T>(s: seq<T>, p: T -> bool, q: T -> bool)
    ensures Filter(Filter(s, p), q) == Filter(Filter(s, q), p)
  {
    if s != [] {
      FilterTwice(s[1..], p, q);
      assert ([s[0]] + Filter(s[1..], p))[1..] == Filter(s[1..], p);
      assert ([s[0]] + Filter(s[1..], q))[1..] == Filter(s[1..], q);
    }
  }

  lemma {:induction false} FilterAll<T>(s: seq<T>, p: T -> bool)
    requires forall e :: e in s ==> p(e)
    ensures Filter(s, p) == s
  {
    if s != [] { FilterAll(s[1..], p); }
  }

  lemma {:induction false} FilterSubsumed<T(!new)>(s: seq<T>, p: T -> bool, q: T -> bool)
    requires forall e :: q(e) ==> p(e)
    ensures Filter(Filter(s, p), q) == Filter(s, q)
  {
    if s != [] {
      FilterSubsumed(s[1..], p, q);
      assert ([s[0]] + Filter(s[1..], p))[1..] == Filter(s[1..], p);
    }
  }

  /** Dropping an element that is there makes the list shorter. */
  lemma {:induction false} FilterShrinks<T>(s: seq<T>, p: T -> bool, x: T)
    requires x in s
    ensures |Filter(s, p)| <= |s|
    ensures !p(x) ==> |Filter(s, p)| < |s|
  {
    FilterNoLonger(s[1..], p);
    if x in s[1..] {
      FilterShrinks(s[1..], p, x);
    }
  }

  lemma {:induction false} FilterNone<T>(s: seq<T>, p: T -> bool)
    requires forall e :: e in s ==> !p(e)
    ensures Filter(s, p) == []
  {
    if s != [] { FilterNone(s[1..], p); }
  }

  lemma {:induction false} FilterNoLonger<T>(s: seq<T>, p: T -> bool)
    ensures |Filter(s, p)| <= |s|
  {
    if s != [] { FilterNoLonger(s[1..], p); }
  }

  /** Of two kept elements the earlier one stays the earlier one. */
  lemma {:induction false} FilterKeepsOrder<T>(s: seq<T>, p: T -> bool, i: nat, j: nat) returns (a: nat, b: nat)
    requires i < j < |s| && p(s[i]) && p(s[j])
    ensures a < b < |Filter(s, p)| && Filter(s, p)[a] == s[i] && Filter(s, p)[b] == s[j]
  {
    var n := |s| - 1;
    assert s == s[..n] + [s[n]];
    FilterSnoc(s[..n], s[n], p);
    if j < n {
      a, b := FilterKeepsOrder(s[..n], p, i, j);
    } else {
      FilterMembership(s[..n], p, s[i]);
      assert s[..n][i] == s[i];
      a :| 0 <= a < |Filter(s[..n], p)| && Filter(s[..n], p)[a] == s[i];
      b := |Filter(s[..n], p)|;
    }
    hide Filter;
  }

  /** The position of the last element a filter keeps. */
  lemma {:induction false} LastKept<T>(s: seq<T>, p: T -> bool) returns (j: nat)
    requires Filter(s, p) != []
    ensures j < |s| && p(s[j]) && Filter(s, p)[|Filter(s, p)| - 1] == s[j]
    ensures forall i :: j < i < |s| ==> !p(s[i])
  {
    var n := |s| - 1;
    assert s == s[..n] + [s[n]];
    FilterSnoc(s[..n], s[n], p);
    if p(s[n]) {
      j := n;
    } else {
      j := LastKept(s[..n], p);
    }
  }

  ghost function Positions<T>(s: seq<T>, p: T -> bool): set<nat> {
    set i: nat | i < |s| && p(s[i])
  }

  /** A filter keeps as many elements as there are positions it accepts. */
  lemma {:induction false} FilterCounts<T>(s: seq<T>, p: T -> bool)
    ensures |Filter(s, p)| == |Positions(s, p)|
  {
    if s == [] {
      assert Positions(s, p) == {};
    } else {
      var n := |s| - 1;
      assert s == s[..n] + [s[n]];
      FilterSnoc(s[..n], s[n], p);
      FilterCounts(s[..n], p);
      assert Positions(s, p) == Positions(s[..n], p) + (if p(s[n]) then {n} else {});
    }
  }

  /** Two strictly sorted lists with the same elements are the same list. */
  lemma {:induction false} StrictlySortedUnique<T(!new)>(s: seq<T>, t: seq<T>, lt: (T, T) -> bool)
    requires forall x, y :: lt(x, y) ==> !lt(y, x)
    requires SortedBy(s, lt) && SortedBy(t, lt)
    requires forall x :: x in s <==> x in t
    ensures s == t
  {
    if s == [] {
      NonemptyHasElement(t);
    } else {
      assert s[0] in t;
      assert t[0] in s;
      FirstIsLeast(s, lt, t[0]);
      FirstIsLeast(t, lt, s[0]);
      forall x ensures x in s[1..] <==> x in t[1..] {
        TailMembership(s, lt, x);
        TailMembership(t, lt, x);
      }
      StrictlySortedUnique(s[1..], t[1..], lt);
    }
  }

  lemma NonemptyHasElement<T>(s: seq<T>)
    ensures s != [] ==> exists x :: x in s
  {
    if s != [] { assert s[0] in s; }
  }

  lemma FirstIsLeast<T>(s: seq<T>, lt: (T, T) -> bool, x: T)
    requires SortedBy(s, lt) && x in s
    ensures x == s[0] || lt(s[0], x)
  {
    var i :| 0 <= i < |s| && s[i] == x;
  }

  lemma TailMembership<T(!new)>(s: seq<T>, lt: (T, T) -> bool, x: T)
    requires forall x, y :: lt(x, y) ==> !lt(y, x)
    requires SortedBy(s, lt) && s != []
    ensures x in s[1..] <==> x in s && x != s[0]
  {
    if x in s[1..] {
      var i :| 0 <= i < |s[1..]| && s[1..][i] == x;
      assert lt(s[0], s[i + 1]);
    }
  }

  /** Taking one element out of a list takes it out of its multiset. */
  lemma MultisetWithout<T>(s: seq<T>, i: nat)
    requires i < |s|
    ensures multiset(s) == multiset{s[i]} + multiset(s[..i] + s[i + 1..])
  {
    assert s == s[..i] + ([s[i]] + s[i + 1..]);
    assert multiset(s) == multiset(s[..i]) + (multiset{s[i]} + multiset(s[i + 1..]));
    assert multiset(s[..i] + s[i + 1..]) == multiset(s[..i]) + multiset(s[i + 1..]);
  }

  lemma CancelOne<T>(x: T, a: multiset<T>, b: multiset<T>)
    requires multiset{x} + a == multiset{x} + b
    ensures a == b
  {
    assert a == (multiset{x} + a) - multiset{x};
  }

  /** Lists with the same elements keep the same elements when the same one is taken out of both. */
  lemma WithoutOne<T>(s: seq<T>, i: nat, t: seq<T>, k: nat)
    requires i < |s| && k < |t| && t[k] == s[i] && multiset(s) == multiset(t)
    ensures multiset(s[..i] + s[i + 1..]) == multiset(t[..k] + t[k + 1..])
  {
    MultisetWithout(s, i);
    MultisetWithout(t, k);
    hide *;
    CancelOne(s[i], multiset(s[..i] + s[i + 1..]), multiset(t[..k] + t[k + 1..]));
  }

  /** Lists with the same elements and the same first one have tails with the same elements. */
  lemma TailMultiset<T>(s: seq<T>, t: seq<T>, k: nat)
    requires s != [] && k < |t| && t[k] == s[0] && multiset(s) == multiset(t)
    ensures multiset(s[1..]) == multiset(t[..k] + t[k + 1..])
  {
    hide *;
    WithoutOne(s, 0, t, k);
    assert s[..0] + s[1..] == s[1..];
  }

  // ---- lexicographic order on strings, as Python compares `str` ----

  predicate StringLess(a: string, b: string) {
    if b == [] then false
    else if a == [] then true
    else a[0] < b[0] || (a[0] == b[0] && StringLess(a[1..], b[1..]))
  }

  lemma {:induction false} StringLessAsymmetric(a: string, b: string)
    ensures StringLess(a, b) ==> !StringLess(b, a)
    decreases |a|
  {
    if a != [] && b != [] { StringLessAsymmetric(a[1..], b[1..]); }
  }

  lemma {:induction false} StringLessTotal(a: string, b: string)
    ensures a == b || StringLess(a, b) || StringLess(b, a)
    decreases |a|
  {
    if a != [] && b != [] && a[0] == b[0] {
      StringLessTotal(a[1..], b[1..]);
      assert a == [a[0]] + a[1..] && b == [b[0]] + b[1..];
    }
  }

  lemma {:induction false} StringLessTransitive(a: string, b: string, c: string)
    requires StringLess(a, b) && StringLess(b, c)
    ensures StringLess(a, c)
    decreases |a|
  {
    if a != [] && a[0] == b[0] && b[0] == c[0] { StringLessTransitive(a[1..], b[1..], c[1..]); }
  }
}
