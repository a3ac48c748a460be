/**
 * Python's `list.sort` / `sorted`: a stable sort under a comparison that need only be a
 * total preorder (several elements may share a key). It is modelled as an insertion sort
 * and characterised by three facts: the result is ordered, it is a permutation of the
 * input, and elements with equal keys keep their relative order.
 */
module Sorting {
  import Seqs

  /** `le` orders every pair and chains: the order `key=` induces on a list. */
  ghost predicate TotalPreorder<T(!new)>(le: (T, T) -> bool) {
    (forall a, b :: le(a, b) || le(b, a)) &&
    (forall a, b, c :: le(a, b) && le(b, c) ==> le(a, c))
  }

  predicate SortedBy<T>(s: seq<T>, le: (T, T) -> bool) {
    forall i, j :: 0 <= i < j < |s| ==> le(s[i], s[j])
  }

  /** `x` goes before the first element it does not follow. */
  function Insert<T>(x: T, s: seq<T>, le: (T, T) -> bool): (r: seq<T>)
    ensures |r| == |s| + 1
  {
    if s == [] then [x]
    else if le(x, s[0]) then [x] + s
    else
      assert s == [s[0]] + s[1..];
      [s[0]] + Insert(x, s[1..], le)
  }

  /** The stable sort of `s` under `le`. */
  function SortBy<T>(s: seq<T>, le: (T, T) -> bool): (r: seq<T>)
    ensures |r| == |s|
  {
    if s == [] then []
    else
      assert s == [s[0]] + s[1..];
      Insert(s[0], SortBy(s[1..], le), le)
  }

  lemma {:induction false} InsertPermutes<T>(x: T, s: seq<T>, le: (T, T) -> bool)
    ensures multiset(Insert(x, s, le)) == multiset(s) + multiset{x}
  {
    if s == [] {
      assert Insert(x, s, le) == [x];
    } else if le(x, s[0]) {
      assert Insert(x, s, le) == [x] + s;
    } else {
      InsertPermutes(x, s[1..], le);
      assert s == [s[0]] + s[1..];
      assert Insert(x, s, le) == [s[0]] + Insert(x, s[1..], le);
    }
  }

  /** The sort is a permutation of its input. */
  lemma {:induction false} SortPermutes<T>(s: seq<T>, le: (T, T) -> bool)
    ensures multiset(SortBy(s, le)) == multiset(s)
  {
    if s != [] {
      SortPermutes(s[1..], le);
      InsertPermutes(s[0], SortBy(s[1..], le), le);
      assert s == [s[0]] + s[1..];
    }
  }

  /** Sorting keeps exactly the elements of its input. */
  lemma SortMembers<T>(s: seq<T>, le: (T, T) -> bool, x: T)
    ensures x in SortBy(s, le) <==> x in s
  {
    SortPermutes(s, le);
    assert x in SortBy(s, le) <==> x in multiset(SortBy(s, le));
    assert x in s <==> x in multiset(s);
  }

  /** Inserting a new element into a list without repeats leaves none. */
  lemma {:induction false} InsertDistinct<T>(x: T, s: seq<T>, le: (T, T) -> bool)
    requires Seqs.Distinct(s) && x !in s
    ensures Seqs.Distinct(Insert(x, s, le))
  {
    var r := Insert(x, s, le);
    if s == [] {
    } else if le(x, s[0]) {
      assert r == [x] + s;
      forall i, j | 0 <= i < j < |r| ensures r[i] != r[j] {
        assert r[j] == s[j - 1];
        if 0 < i { assert r[i] == s[i - 1]; }
      }
    } else {
      Seqs.DistinctTail(s);
      InsertDistinct(x, s[1..], le);
      var rest := Insert(x, s[1..], le);
      InsertPermutes(x, s[1..], le);
      assert s[0] !in multiset(rest) by {
        assert s[0] != x;
        assert s[0] !in multiset(s[1..]);
      }
      assert r == [s[0]] + rest;
      forall i, j | 0 <= i < j < |r| ensures r[i] != r[j] {
        assert r[j] == rest[j - 1];
        if 0 < i { assert r[i] == rest[i - 1]; }
      }
    }
  }

  /** Sorting a list without repeats leaves none. */
  lemma {:induction false} SortDistinct<T>(s: seq<T>, le: (T, T) -> bool)
    requires Seqs.Distinct(s)
    ensures Seqs.Distinct(SortBy(s, le))
  {
    if s != [] {
      Seqs.DistinctTail(s);
      SortDistinct(s[1..], le);
      SortMembers(s[1..], le, s[0]);
      InsertDistinct(s[0], SortBy(s[1..], le), le);
    }
  }

  /** Ascending order of a numeric key, `key=f`. */
  function ByKey<T>(key: T -> real): (T, T) -> bool {
    (a: T, b: T) => key(a) <= key(b)
  }

  /** Descending order of a numeric key, `key=f, reverse=True` (still stable). */
  function ByKeyDesc<T>(key: T -> real): (T, T) -> bool {
    (a: T, b: T) => key(b) <= key(a)
  }

  lemma ByKeyTotal<T(!new)>(key: T -> real)
    ensures TotalPreorder(ByKey(key)) && TotalPreorder(ByKeyDesc(key))
  {
  }

  lemma {:induction false} InsertSorted<T(!new)>(x: T, s: seq<T>, le: (T, T) -> bool)
    requires TotalPreorder(le) && SortedBy(s, le)
    ensures SortedBy(Insert(x, s, le), le)
  {
    if s != [] && !le(x, s[0]) {
      InsertSorted(x, s[1..], le);
      var t := Insert(x, s[1..], le);
      InsertPermutes(x, s[1..], le);
      forall k | 0 <= k < |t|
        ensures le(s[0], t[k])
      {
        assert t[k] in multiset(t);
        if t[k] != x {
          assert t[k] in multiset(s[1..]);
          var j :| 0 <= j < |s[1..]| && s[1..][j] == t[k];
          assert s[1..][j] == s[j + 1];
        }
      }
    }
  }

  /** The result of the sort is ordered. */
  lemma {:induction false} SortSorted<T(!new)>(s: seq<T>, le: (T, T) -> bool)
    requires TotalPreorder(le)
    ensures SortedBy(SortBy(s, le), le)
  {
    if s != [] {
      SortSorted(s[1..], le);
      InsertSorted(s[0], SortBy(s[1..], le), le);
    }
  }

  /** The elements of `s` that `le` ranks equal to `e`, in their order in `s`. */
  function SameRank<T>(s: seq<T>, e: T, le: (T, T) -> bool): seq<T> {
    if s == [] then []
    else (if le(s[0], e) && le(e, s[0]) then [s[0]] else []) + SameRank(s[1..], e, le)
  }

  lemma Chain<T(!new)>(le: (T, T) -> bool, a: T, b: T, c: T)
    requires TotalPreorder(le) && le(a, b) && le(b, c)
    ensures le(a, c)
  {
  }

  /** An element ranked strictly after `first` cannot tie with `e` when `first` does. */
  lemma NotBothTie<T(!new)>(x: T, first: T, e: T, le: (T, T) -> bool)
    requires TotalPreorder(le) && !le(x, first)
    ensures !(le(x, e) && le(e, x) && le(first, e) && le(e, first))
  {
    if le(x, e) && le(e, first) {
      Chain(le, x, e, first);
    }
  }

  /** The elements tied with `e` in a list that begins with `a`. */
  lemma SameRankCons<T>(a: T, s: seq<T>, e: T, le: (T, T) -> bool)
    ensures SameRank([a] + s, e, le) == (if le(a, e) && le(e, a) then [a] else []) + SameRank(s, e, le)
  {
    var r := [a] + s;
    assert r[0] == a && r[1..] == s;
  }

  /** Inserting behind the first element: its tie with `e` stays in front of the inserted one's. */
  lemma InsertBehind<T(!new)>(x: T, s: seq<T>, e: T, le: (T, T) -> bool)
    requires TotalPreorder(le) && s != [] && !le(x, s[0])
    requires SameRank(Insert(x, s[1..], le), e, le) == (if le(x, e) && le(e, x) then [x] else []) + SameRank(s[1..], e, le)
    ensures SameRank(Insert(x, s, le), e, le) == (if le(x, e) && le(e, x) then [x] else []) + SameRank(s, e, le)
  {
    var own := if le(x, e) && le(e, x) then [x] else [];
    var head := if le(s[0], e) && le(e, s[0]) then [s[0]] else [];
    var t := Insert(x, s[1..], le);
    var rest := SameRank(s[1..], e, le);
    NotBothTie(x, s[0], e, le);
    assert Insert(x, s, le) == [s[0]] + t;
    assert s == [s[0]] + s[1..];
    SameRankCons(s[0], t, e, le);
    SameRankCons(s[0], s[1..], e, le);
    hide TotalPreorder, Insert, SameRank;
    if own == [] {
      assert SameRank(t, e, le) == rest;
    } else {
      assert head == [];
      assert SameRank(Insert(x, s, le), e, le) == own + rest;
      assert SameRank(s, e, le) == rest;
    }
  }

  lemma {:induction false} InsertStable<T(!new)>(x: T, s: seq<T>, e: T, le: (T, T) -> bool)
    requires TotalPreorder(le)
    ensures SameRank(Insert(x, s, le), e, le)
         == (if le(x, e) && le(e, x) then [x] else []) + SameRank(s, e, le)
  {
    if s == [] {
      assert Insert(x, s, le) == [x] + [];
      SameRankCons(x, [], e, le);
    } else if le(x, s[0]) {
      SameRankCons(x, s, e, le);
    } else {
      InsertStable(x, s[1..], e, le);
      InsertBehind(x, s, e, le);
    }
  }

  /** Stability: the elements of every rank keep their relative order. */
  lemma {:induction false} SortStable<T(!new)>(s: seq<T>, e: T, le: (T, T) -> bool)
    requires TotalPreorder(le)
    ensures SameRank(SortBy(s, le), e, le) == SameRank(s, e, le)
  {
    if s != [] {
      SortStable(s[1..], e, le);
      InsertStable(s[0], SortBy(s[1..], le), e, le);
    }
  }

  /** The first element of a sorted non-empty list comes before (or ties with) every element. */
  lemma SortHead<T(!new)>(s: seq<T>, le: (T, T) -> bool)
    requires TotalPreorder(le) && s != []
    ensures forall x :: x in s ==> le(SortBy(s, le)[0], x)
  {
    SortSorted(s, le);
    SortPermutes(s, le);
    var r := SortBy(s, le);
    forall x | x in s
      ensures le(r[0], x)
    {
      assert x in multiset(s);
      assert x in multiset(r);
      var j :| 0 <= j < |r| && r[j] == x;
    }
  }
}
