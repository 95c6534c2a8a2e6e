/**
 * Generic operations on tables (sequences of records), the building blocks
 * that every page and hook in the application uses on the stored arrays:
 * `filter`, `find`, `map`, a filtered `length`, stable `sort` and `slice(0, n)`.
 */
module Tables {
  import opened Wrappers

  /** `Array.prototype.filter`: the records that satisfy `p`, in their original order. */
  function Filter<T(==)>(s: seq<T>, p: T -> bool): (r: seq<T>)
    ensures |r| <= |s|
    ensures forall i :: 0 <= i < |r| ==> r[i] in s && p(r[i])
    ensures forall i :: 0 <= i < |s| && p(s[i]) ==> s[i] in r
  {
    if s == [] then []
    else if p(s[0]) then [s[0]] + Filter(s[1..], p)
    else Filter(s[1..], p)
  }

  /** `a` can be obtained from `b` by deleting elements: order is preserved. */
  predicate IsSubsequence<T(==)>(a: seq<T>, b: seq<T>)
    decreases |b|
  {
    if a == [] then true
    else if b == [] then false
    else if a[0] == b[0] then IsSubsequence(a[1..], b[1..])
    else IsSubsequence(a, b[1..])
  }

  /** Filtering keeps the surviving records in their original relative order. */
  lemma {:induction false} FilterIsSubsequence<T>(s: seq<T>, p: T -> bool)
    ensures IsSubsequence(Filter(s, p), s)
  {
    if s != [] {
      FilterIsSubsequence(s[1..], p);
      var rest := Filter(s[1..], p);
      if p(s[0]) {
        assert Filter(s, p) == [s[0]] + rest;
        assert ([s[0]] + rest)[1..] == rest;
      } else {
        assert Filter(s, p) == rest;
        if rest != [] {
          assert p(rest[0]);
        }
      }
    }
  }

  /** A filter that keeps everything is the identity. */
  lemma {:induction false} FilterAll<T>(s: seq<T>, p: T -> bool)
    requires forall i :: 0 <= i < |s| ==> p(s[i])
    ensures Filter(s, p) == s
  {
    if s != [] {
      FilterAll(s[1..], p);
      assert s == [s[0]] + s[1..];
    }
  }

  /** A filter that keeps nothing gives the empty table. */
  lemma {:induction false} FilterNone<T>(s: seq<T>, p: T -> bool)
    requires forall i :: 0 <= i < |s| ==> !p(s[i])
    ensures Filter(s, p) == []
  {
    if s != [] {
      FilterNone(s[1..], p);
    }
  }

  /** Two predicates that agree on every record filter a table the same way. */
  lemma {:induction false} FilterAgree<T>(s: seq<T>, p: T -> bool, q: T -> bool)
    requires forall i :: 0 <= i < |s| ==> p(s[i]) == q(s[i])
    ensures Filter(s, p) == Filter(s, q)
  {
    if s != [] {
      FilterAgree(s[1..], p, q);
    }
  }

  /** `j` is the first position of `s` whose record satisfies both `p` and `q`. */
  predicate FirstOfBoth<T>(s: seq<T>, p: T -> bool, q: T -> bool, j: int)
  {
    0 <= j < |s| && p(s[j]) && q(s[j]) && forall m :: 0 <= m < j ==> !(p(s[m]) && q(s[m]))
  }

  /** A first position in the tail is one further along in the whole table when the head does not qualify. */
  lemma FirstOfBothShift<T>(s: seq<T>, p: T -> bool, q: T -> bool, j: int)
    requires s != [] && FirstOfBoth(s[1..], p, q, j) && !(p(s[0]) && q(s[0]))
    ensures FirstOfBoth(s, p, q, j + 1) && s[j + 1] == s[1..][j]
  {
    forall m | 1 <= m < j + 1 ensures !(p(s[m]) && q(s[m])) {
      assert s[m] == s[1..][m - 1];
    }
  }

  /**
   * `filter(p).find(q)` picks a record of the original table: the first one
   * that satisfies both `p` and `q`.
   */
  lemma {:induction false} FilterFirst<T>(s: seq<T>, p: T -> bool, q: T -> bool, k: nat)
    requires k < |Filter(s, p)| && q(Filter(s, p)[k])
    requires forall m :: 0 <= m < k ==> !q(Filter(s, p)[m])
    ensures exists j :: FirstOfBoth(s, p, q, j) && s[j] == Filter(s, p)[k]
  {
    var rest := Filter(s[1..], p);
    if p(s[0]) {
      assert Filter(s, p) == [s[0]] + rest;
      if k == 0 {
        assert FirstOfBoth(s, p, q, 0);
      } else {
        assert !q(s[0]) by { assert Filter(s, p)[0] == s[0]; }
        assert forall m :: 0 <= m < k - 1 ==> rest[m] == Filter(s, p)[m + 1];
        FilterFirst(s[1..], p, q, k - 1);
        var j :| FirstOfBoth(s[1..], p, q, j) && s[1..][j] == rest[k - 1];
        FirstOfBothShift(s, p, q, j);
      }
    } else {
      assert Filter(s, p) == rest;
      FilterFirst(s[1..], p, q, k);
      var j :| FirstOfBoth(s[1..], p, q, j) && s[1..][j] == rest[k];
      FirstOfBothShift(s, p, q, j);
    }
  }

  /** Number of records satisfying `p`, counted one record at a time. */
  function Count<T>(s: seq<T>, p: T -> bool): nat
  {
    if s == [] then 0 else (if p(s[0]) then 1 else 0) + Count(s[1..], p)
  }

  /** `filter(p).length` is the count of records satisfying `p`. */
  lemma {:induction false} FilterLength<T>(s: seq<T>, p: T -> bool)
    ensures |Filter(s, p)| == Count(s, p)
  {
    if s != [] {
      FilterLength(s[1..], p);
    }
  }

  /** A count under a stronger predicate never exceeds the count under a weaker one. */
  lemma {:induction false} CountMonotone<T>(s: seq<T>, p: T -> bool, q: T -> bool)
    requires forall x :: p(x) ==> q(x)
    ensures Count(s, p) <= Count(s, q)
  {
    if s != [] {
      CountMonotone(s[1..], p, q);
    }
  }

  /** Index of the first record satisfying `p`, or `|s|` when there is none. */
  function FirstIndex<T>(s: seq<T>, p: T -> bool): (i: nat)
    ensures i <= |s|
    ensures i < |s| ==> p(s[i])
    ensures forall j :: 0 <= j < i ==> !p(s[j])
  {
    if s == [] then 0
    else if p(s[0]) then 0
    else 1 + FirstIndex(s[1..], p)
  }

  /** `Array.prototype.find`: the first record satisfying `p`, if any. */
  function Find<T(==)>(s: seq<T>, p: T -> bool): (r: Option<T>)
    ensures r.None? <==> forall i :: 0 <= i < |s| ==> !p(s[i])
    ensures r.Some? ==> r.value in s && p(r.value)
    ensures r.Some? ==> FirstIndex(s, p) < |s| && r.value == s[FirstIndex(s, p)]
  {
    var i := FirstIndex(s, p);
    if i < |s| then Some(s[i]) else None
  }

  /** `s.map(x => p(x) ? f(x) : x)`: rewrite the records satisfying `p`, keep the rest. */
  function MapWhere<T>(s: seq<T>, p: T -> bool, f: T -> T): (r: seq<T>)
    ensures |r| == |s|
  {
    if s == [] then []
    else [if p(s[0]) then f(s[0]) else s[0]] + MapWhere(s[1..], p, f)
  }

  /** Position by position: a record is rewritten exactly when it satisfies `p`. */
  lemma {:induction false} MapWhereAt<T>(s: seq<T>, p: T -> bool, f: T -> T, i: nat)
    requires i < |s|
    ensures MapWhere(s, p, f)[i] == if p(s[i]) then f(s[i]) else s[i]
  {
    if i > 0 {
      MapWhereAt(s[1..], p, f, i - 1);
    }
  }

  /** Ascending by `key` (non-strict). */
  ghost predicate SortedBy<T>(s: seq<T>, key: T -> int)
  {
    forall i, j :: 0 <= i < j < |s| ==> key(s[i]) <= key(s[j])
  }

  /** Place `x` in front of the first record whose key is not smaller than its own. */
  function Insert<T(==)>(x: T, s: seq<T>, key: T -> int): (r: seq<T>)
    requires SortedBy(s, key)
    ensures |r| == |s| + 1
    ensures forall i :: 0 <= i < |r| ==> r[i] == x || r[i] in s
    ensures SortedBy(r, key)
    ensures multiset(r) == multiset(s) + multiset{x}
  {
    if s == [] then [x]
    else if key(x) <= key(s[0]) then
      assert forall i :: 0 <= i < |s| ==> key(s[0]) <= key(s[i]);
      SortedCons(x, s, key);
      [x] + s
    else
      var rest := Insert(x, s[1..], key);
      InsertStep(x, s, rest, key);
      [s[0]] + rest
  }

  /** The recursive step of `Insert`: putting the head back in front of the tail's insertion. */
  lemma InsertStep<T>(x: T, s: seq<T>, rest: seq<T>, key: T -> int)
    requires s != [] && SortedBy(s, key) && key(s[0]) <= key(x)
    requires SortedBy(rest, key)
    requires forall i :: 0 <= i < |rest| ==> rest[i] == x || rest[i] in s[1..]
    requires multiset(rest) == multiset(s[1..]) + multiset{x}
    ensures SortedBy([s[0]] + rest, key)
    ensures forall i :: 0 <= i < |rest| + 1 ==> ([s[0]] + rest)[i] == x || ([s[0]] + rest)[i] in s
    ensures multiset([s[0]] + rest) == multiset(s) + multiset{x}
  {
    assert s == [s[0]] + s[1..];
    HeadBelowRest(x, s, rest, key);
    SortedCons(s[0], rest, key);
  }

  /** The head of a sorted table is no larger than anything drawn from its tail or from above it. */
  lemma HeadBelowRest<T>(x: T, s: seq<T>, rest: seq<T>, key: T -> int)
    requires s != [] && SortedBy(s, key) && key(s[0]) <= key(x)
    requires forall i :: 0 <= i < |rest| ==> rest[i] == x || rest[i] in s[1..]
    ensures forall i :: 0 <= i < |rest| ==> key(s[0]) <= key(rest[i])
  {
    forall i | 0 <= i < |rest|
      ensures key(s[0]) <= key(rest[i])
    {
      if rest[i] != x {
        var j :| 0 <= j < |s[1..]| && s[1..][j] == rest[i];
        assert s[j + 1] == rest[i];
      }
    }
  }

  /** A sorted table stays sorted with a no-larger record in front. */
  lemma SortedCons<T>(a: T, rest: seq<T>, key: T -> int)
    requires SortedBy(rest, key)
    requires forall i :: 0 <= i < |rest| ==> key(a) <= key(rest[i])
    ensures SortedBy([a] + rest, key)
  {
    var r := [a] + rest;
    forall i, j | 0 <= i < j < |r|
      ensures key(r[i]) <= key(r[j])
    {
      assert r[j] == rest[j - 1];
      if i > 0 { assert r[i] == rest[i - 1]; }
    }
  }

  /**
   * JavaScript's stable `Array.prototype.sort` with the comparator
   * `(a, b) => key(a) - key(b)`: ascending by key, records with equal keys
   * keep their relative order.
   */
  function SortBy<T(==)>(s: seq<T>, key: T -> int): (r: seq<T>)
    ensures SortedBy(r, key)
    ensures multiset(r) == multiset(s)
    ensures |r| == |s|
  {
    if s == [] then []
    else
      assert s == [s[0]] + s[1..];
      Insert(s[0], SortBy(s[1..], key), key)
  }

  /** Sorting keeps exactly the records it was given: each is found on both sides. */
  lemma SortByMembers<T>(s: seq<T>, key: T -> int)
    ensures forall i :: 0 <= i < |SortBy(s, key)| ==> SortBy(s, key)[i] in s
    ensures forall i :: 0 <= i < |s| ==> s[i] in SortBy(s, key)
  {
    var r := SortBy(s, key);
    forall i | 0 <= i < |r| ensures r[i] in s { assert r[i] in multiset(s); }
    forall i | 0 <= i < |s| ensures s[i] in r { assert s[i] in multiset(r); }
  }

  /** `Array.prototype.slice(0, n)`. */
  function Take<T>(s: seq<T>, n: nat): (r: seq<T>)
    ensures |r| == if |s| <= n then |s| else n
    ensures r == s[..|r|]
  {
    if |s| <= n then s else s[..n]
  }
}
