/** Comprehension-style operations on sequences: filters, counts, sums and slices. */
module Seqs {

  /** `[x for x in s if p(x)]`. */
  function Filter<T>(s: seq<T>, p: T -> bool): (r: seq<T>)
    ensures |r| <= |s|
  {
    if s == [] then []
    else
      assert s == [s[0]] + s[1..];
      (if p(s[0]) then [s[0]] else []) + Filter(s[1..], p)
  }

  /** The filter keeps exactly the elements of `s` that pass. */
  lemma {:induction false} FilterMembers<T>(s: seq<T>, p: T -> bool, x: T)
    ensures x in Filter(s, p) <==> x in s && p(x)
  {
    if s != [] {
      FilterMembers(s[1..], p, x);
      assert s == [s[0]] + s[1..];
    }
  }

  /** `len([x for x in s if p(x)])`. */
  function Count<T>(s: seq<T>, p: T -> bool): (n: nat)
    ensures n <= |s|
  {
    |Filter(s, p)|
  }

  /** `[f(x) for x in s]`. */
  function MapSeq<T, U>(s: seq<T>, f: T -> U): (r: seq<U>)
    ensures |r| == |s|
    ensures forall i :: 0 <= i < |s| ==> r[i] == f(s[i])
  {
    if s == [] then [] else [f(s[0])] + MapSeq(s[1..], f)
  }

  lemma MapSeqSnoc<T, U>(s: seq<T>, x: T, f: T -> U)
    ensures MapSeq(s + [x], f) == MapSeq(s, f) + [f(x)]
  {
    assert forall i :: 0 <= i < |s| ==> (s + [x])[i] == s[i];
  }

  /** The image of a longer prefix is one element longer. */
  lemma MapSeqStep<T, U>(s: seq<T>, f: T -> U, i: nat)
    requires i < |s|
    ensures MapSeq(s[..i + 1], f) == MapSeq(s[..i], f) + [f(s[i])]
  {
    assert s[..i + 1] == s[..i] + [s[i]];
    MapSeqSnoc(s[..i], s[i], f);
  }

  /** `x` is in `[f(y) for y in s if p(y)]` exactly when some passing `y` of `s` maps to it. */
  lemma FilterMapMembers<T, U>(s: seq<T>, p: T -> bool, f: T -> U, x: U)
    ensures x in MapSeq(Filter(s, p), f) <==> exists y :: y in s && p(y) && x == f(y)
  {
    var r := Filter(s, p);
    if x in MapSeq(r, f) {
      var i :| 0 <= i < |r| && MapSeq(r, f)[i] == x;
      FilterMembers(s, p, r[i]);
    }
    if y :| y in s && p(y) && x == f(y) {
      FilterMembers(s, p, y);
      var i :| 0 <= i < |r| && r[i] == y;
      assert MapSeq(r, f)[i] == x;
    }
  }

  /** A one-element comprehension yields that element's image when it passes, nothing otherwise. */
  lemma FilterMapSingle<T, U>(x: T, p: T -> bool, f: T -> U)
    ensures MapSeq(Filter([x], p), f) == if p(x) then [f(x)] else []
  {
    assert [x][1..] == [];
    assert Filter([x], p) == (if p(x) then [x] else []) + Filter([], p);
  }

  /** Of two elements that never both pass, at most one survives the filter. */
  lemma FilterExclusivePair<T>(x: T, y: T, p: T -> bool)
    requires !(p(x) && p(y))
    ensures |Filter([x, y], p)| <= 1
  {
    assert [x, y][1..] == [y];
    assert [y][1..] == [];
    assert Filter([x, y], p) == (if p(x) then [x] else []) + Filter([y], p);
    assert Filter([y], p) == (if p(y) then [y] else []) + Filter([], p);
  }

  /** `s[:n]`: the first `n` elements, or all of them when there are fewer. */
  function Take<T>(s: seq<T>, n: nat): (r: seq<T>)
    ensures |r| == if |s| < n then |s| else n
    ensures r == s[..|r|]
  {
    if |s| <= n then s else s[..n]
  }

  /** `sum(f(x) for x in s)`, accumulated from the left as a loop does. */
  function SumOf<T>(s: seq<T>, f: T -> real): real {
    if s == [] then 0.0 else SumOf(s[..|s| - 1], f) + f(s[|s| - 1])
  }

  /** One more element of a running sum. */
  lemma SumOfStep<T>(s: seq<T>, f: T -> real, i: nat)
    requires i < |s|
    ensures SumOf(s[..i + 1], f) == SumOf(s[..i], f) + f(s[i])
  {
    assert s[..i + 1][..i] == s[..i];
  }

  /** A filter taken on a prefix grows by at most the next element. */
  lemma FilterStep<T>(s: seq<T>, p: T -> bool, i: nat)
    requires i < |s|
    ensures Filter(s[..i + 1], p) == Filter(s[..i], p) + (if p(s[i]) then [s[i]] else [])
  {
    FilterAppend(s[..i], [s[i]], p);
    assert s[..i + 1] == s[..i] + [s[i]];
    assert [s[i]][1..] == [];
    assert Filter([s[i]], p) == (if p(s[i]) then [s[i]] else []) + Filter([], p);
  }

  lemma {:induction false} FilterAppend<T>(a: seq<T>, b: seq<T>, p: T -> bool)
    ensures Filter(a + b, p) == Filter(a, p) + Filter(b, p)
  {
    if a == [] {
      assert a + b == b;
    } else {
      var ab := a + b;
      assert ab[0] == a[0];
      assert ab[1..] == a[1..] + b;
      FilterAppend(a[1..], b, p);
      var head := if p(a[0]) then [a[0]] else [];
      assert Filter(ab, p) == head + Filter(a[1..] + b, p);
      assert Filter(a, p) == head + Filter(a[1..], p);
    }
  }

  /** A count taken on a prefix grows by one exactly when the next element passes. */
  lemma CountStep<T>(s: seq<T>, p: T -> bool, i: nat)
    requires i < |s|
    ensures Count(s[..i + 1], p) == Count(s[..i], p) + (if p(s[i]) then 1 else 0)
  {
    FilterStep(s, p, i);
  }

  /** Appending one element raises a count by one exactly when that element passes. */
  lemma CountSnoc<T>(s: seq<T>, x: T, p: T -> bool)
    ensures Count(s + [x], p) == Count(s, p) + (if p(x) then 1 else 0)
  {
    var t := s + [x];
    assert t[..|s| + 1] == t && t[..|s|] == s;
    CountStep(t, p, |s|);
  }

  /** Nothing passes, nothing is counted. */
  lemma {:induction false} CountNone<T>(s: seq<T>, p: T -> bool)
    requires forall x :: x in s ==> !p(x)
    ensures Count(s, p) == 0
  {
    if s != [] {
      assert forall x :: x in s[1..] ==> x in s;
      CountNone(s[1..], p);
    }
  }

  /** Something is counted exactly when some element passes. */
  lemma CountPositive<T>(s: seq<T>, p: T -> bool)
    ensures Count(s, p) > 0 <==> exists x :: x in s && p(x)
  {
    if x :| x in s && p(x) {
      FilterMembers(s, p, x);
    } else {
      CountNone(s, p);
    }
  }

  /** Every element passes the filter exactly when the filter takes everything. */
  lemma {:induction false} FilterAll<T>(s: seq<T>, p: T -> bool)
    requires forall x :: x in s ==> p(x)
    ensures Filter(s, p) == s
  {
    if s != [] {
      FilterAll(s[1..], p);
      assert Filter(s, p) == [s[0]] + Filter(s[1..], p);
    }
  }

  /** Counts of complementary predicates add up to the length. */
  lemma {:induction false} CountComplement<T>(s: seq<T>, p: T -> bool, q: T -> bool)
    requires forall x :: x in s ==> (p(x) <==> !q(x))
    ensures Count(s, p) + Count(s, q) == |s|
  {
    if s != [] {
      assert s == [s[0]] + s[1..];
      CountComplement(s[1..], p, q);
    }
  }

  /** A predicate implied by another never has a smaller count. */
  lemma {:induction false} CountMono<T>(s: seq<T>, p: T -> bool, q: T -> bool)
    requires forall x :: x in s ==> p(x) ==> q(x)
    ensures Count(s, p) <= Count(s, q)
  {
    if s != [] {
      assert s == [s[0]] + s[1..];
      CountMono(s[1..], p, q);
    }
  }

  /** The counts of two disjoint predicates add up to the count of their disjunction. */
  lemma {:induction false} CountDisjoint<T>(s: seq<T>, p: T -> bool, q: T -> bool, r: T -> bool)
    requires forall x :: x in s ==> (r(x) <==> p(x) || q(x)) && !(p(x) && q(x))
    ensures Count(s, p) + Count(s, q) == Count(s, r)
  {
    if s != [] {
      assert s == [s[0]] + s[1..];
      CountDisjoint(s[1..], p, q, r);
    }
  }

  lemma EmptyAppend<T>(s: seq<T>)
    ensures [] + s == s
  {
  }

  lemma {:induction false} MapSeqConcat<T, U>(a: seq<T>, b: seq<T>, f: T -> U)
    ensures MapSeq(a + b, f) == MapSeq(a, f) + MapSeq(b, f)
  {
    assert forall i :: 0 <= i < |a| ==> (a + b)[i] == a[i];
    assert forall i :: |a| <= i < |a| + |b| ==> (a + b)[i] == b[i - |a|];
  }

  /** No element occurs twice, as with the keys of a dictionary. */
  ghost predicate Distinct<T>(s: seq<T>) {
    forall i, j :: 0 <= i < j < |s| ==> s[i] != s[j]
  }

  /** The set of the elements of `s` that pass. */
  ghost function Passing<T>(s: seq<T>, p: T -> bool): set<T> {
    set x | x in s && p(x)
  }

  /** On a list without repeats, the filter is as long as the set of passing elements it holds. */
  lemma {:induction false} DistinctFilterCard<T>(s: seq<T>, p: T -> bool)
    requires Distinct(s)
    ensures |Filter(s, p)| == |Passing(s, p)|
  {
    if s == [] {
      assert Passing(s, p) == {};
    } else {
      DistinctTail(s);
      DistinctFilterCard(s[1..], p);
      assert Filter(s, p) == (if p(s[0]) then [s[0]] else []) + Filter(s[1..], p);
      hide Filter;
      PassingSetSplit(s, p);
    }
  }

  /** The passing elements of `s` are those of its tail, plus the head when it passes and is new. */
  lemma PassingSetSplit<T>(s: seq<T>, p: T -> bool)
    requires s != [] && s[0] !in s[1..]
    ensures |Passing(s, p)| == (if p(s[0]) then 1 else 0) + |Passing(s[1..], p)|
  {
    var h, rest := s[0], Passing(s[1..], p);
    assert s == [h] + s[1..];
    if p(h) {
      assert Passing(s, p) == {h} + rest;
    } else {
      assert Passing(s, p) == rest;
    }
  }

  /** The tail of a list without repeats has none, and lacks the head. */
  lemma DistinctTail<T>(s: seq<T>)
    requires Distinct(s) && s != []
    ensures Distinct(s[1..]) && s[0] !in s[1..]
  {
    var t := s[1..];
    forall i, j | 0 <= i < j < |t| ensures t[i] != t[j] {
      assert t[i] == s[i + 1] && t[j] == s[j + 1];
    }
    forall j | 0 <= j < |t| ensures t[j] != s[0] {
      assert t[j] == s[j + 1];
    }
  }

  /** Filtering and then mapping equals mapping and then filtering, when the test reads only the image. */
  lemma {:induction false} FilterThroughMap<T, U>(s: seq<T>, p: T -> bool, f: T -> U, q: U -> bool)
    requires forall x :: p(x) == q(f(x))
    ensures MapSeq(Filter(s, p), f) == Filter(MapSeq(s, f), q)
  {
    if s != [] {
      FilterThroughMap(s[1..], p, f, q);
      var head := if p(s[0]) then [s[0]] else [];
      assert Filter(s, p) == head + Filter(s[1..], p);
      MapSeqConcat(head, Filter(s[1..], p), f);
      var m := MapSeq(s, f);
      assert m == [f(s[0])] + MapSeq(s[1..], f);
      assert m[0] == f(s[0]) && m[1..] == MapSeq(s[1..], f);
      assert Filter(m, q) == (if q(f(s[0])) then [f(s[0])] else []) + Filter(MapSeq(s[1..], f), q);
      assert MapSeq(head, f) == if p(s[0]) then [f(s[0])] else [];
    }
  }

  /** A comprehension taken on a prefix grows by at most the next element's image. */
  lemma FilterMapStep<T, U>(s: seq<T>, p: T -> bool, f: T -> U, i: nat)
    requires i < |s|
    ensures MapSeq(Filter(s[..i + 1], p), f) == MapSeq(Filter(s[..i], p), f) + (if p(s[i]) then [f(s[i])] else [])
  {
    FilterStep(s, p, i);
    var tail := if p(s[i]) then [s[i]] else [];
    MapSeqConcat(Filter(s[..i], p), tail, f);
    assert MapSeq(tail, f) == if p(s[i]) then [f(s[i])] else [];
  }

  /** The filtered image of a list with one more element. */
  lemma FilterMapSnoc<T, U>(s: seq<T>, x: T, p: T -> bool, f: T -> U)
    ensures MapSeq(Filter(s + [x], p), f) == MapSeq(Filter(s, p), f) + (if p(x) then [f(x)] else [])
  {
    var t := s + [x];
    assert t[..|s| + 1] == t && t[..|s|] == s;
    FilterMapStep(t, p, f, |s|);
  }

  /** A list without repeats has as many elements as its set of elements. */
  lemma DistinctCard<T>(s: seq<T>)
    requires Distinct(s)
    ensures |s| == |set x | x in s|
  {
    var all := (x: T) => true;
    DistinctFilterCard(s, all);
    FilterAll(s, all);
    assert Passing(s, all) == set x | x in s;
  }

  /** A filter of a list without repeats has none. */
  lemma {:induction false} DistinctFilter<T>(s: seq<T>, p: T -> bool)
    requires Distinct(s)
    ensures Distinct(Filter(s, p))
  {
    if s != [] {
      DistinctTail(s);
      DistinctFilter(s[1..], p);
      FilterMembers(s[1..], p, s[0]);
      var rest := Filter(s[1..], p);
      var r := (if p(s[0]) then [s[0]] else []) + rest;
      assert Filter(s, p) == r;
      forall i, j | 0 <= i < j < |r| ensures r[i] != r[j] {
        if p(s[0]) && i == 0 {
          assert r[j] == rest[j - 1];
        } else if p(s[0]) {
          assert r[i] == rest[i - 1] && r[j] == rest[j - 1];
        }
      }
    }
  }

  /** The image of a list without repeats has none when no two of its elements share an image. */
  lemma MapSeqDistinct<T, U>(s: seq<T>, f: T -> U)
    requires Distinct(s)
    requires forall i, j :: 0 <= i < |s| && 0 <= j < |s| && f(s[i]) == f(s[j]) ==> s[i] == s[j]
    ensures Distinct(MapSeq(s, f))
  {
  }

  lemma DistinctSnoc<T>(s: seq<T>, x: T)
    requires Distinct(s) && x !in s
    ensures Distinct(s + [x])
  {
    var r := s + [x];
    forall i, j | 0 <= i < j < |r| ensures r[i] != r[j] {
      assert r[i] == s[i];
      if j < |s| { assert r[j] == s[j]; }
    }
  }

  /** `{k: f(k) for k in keys}`. */
  function MapOver<K, V>(keys: set<K>, f: K -> V): (m: map<K, V>)
    ensures m.Keys == keys
    ensures forall k :: k in keys ==> m[k] == f(k)
  {
    map k | k in keys :: f(k)
  }

  /** Filling one more key of a dictionary comprehension. */
  lemma MapOverStep<K, V>(keys: set<K>, k: K, f: K -> V)
    ensures MapOver(keys + {k}, f) == MapOver(keys, f)[k := f(k)]
  {
  }

  /** `{key(x) for x in s}`. */
  function KeySetOf<T(==), K(==)>(s: seq<T>, key: T -> K): set<K> {
    set x | x in s :: key(x)
  }

  function HasKey<T(==), K(==)>(key: T -> K, k: K): T -> bool {
    (x: T) => key(x) == k
  }

  /** `m.get(k, 0)`. */
  function CountAt<K(==)>(m: map<K, nat>, k: K): nat {
    if k in m then m[k] else 0
  }

  /** `m[k] = m.get(k, 0) + 1`. */
  function Bumped<K(==)>(m: map<K, nat>, k: K): map<K, nat> {
    m[k := CountAt(m, k) + 1]
  }

  /** The histogram of `key` over `s`: each key that occurs, with its number of occurrences. */
  function TallyBy<T(==), K(==)>(s: seq<T>, key: T -> K): map<K, nat> {
    map k | k in KeySetOf(s, key) :: Count(s, HasKey(key, k))
  }

  /** Counting one more element bumps its key. */
  lemma TallyBySnoc<T, K>(s: seq<T>, x: T, key: T -> K)
    ensures TallyBy(s + [x], key) == Bumped(TallyBy(s, key), key(x))
  {
    var t := s + [x];
    assert KeySetOf(t, key) == KeySetOf(s, key) + {key(x)} by {
      forall y | y in t ensures y in s || y == x { }
      assert x in t;
      forall y | y in s ensures y in t { }
    }
    forall k | k in KeySetOf(t, key) ensures Count(t, HasKey(key, k)) == Bumped(TallyBy(s, key), key(x))[k] {
      CountSnoc(s, x, HasKey(key, k));
      if k !in KeySetOf(s, key) {
        forall y | y in s ensures !HasKey(key, k)(y) { }
        CountNone(s, HasKey(key, k));
      }
    }
  }

  lemma TallyByStep<T, K>(s: seq<T>, key: T -> K, i: nat)
    requires i < |s|
    ensures TallyBy(s[..i + 1], key) == Bumped(TallyBy(s[..i], key), key(s[i]))
  {
    assert s[..i + 1] == s[..i] + [s[i]];
    TallyBySnoc(s[..i], s[i], key);
  }

  /** `sum(m.get(k, 0) for k in ks)`. */
  function SumAt<K(==)>(ks: seq<K>, m: map<K, nat>): nat {
    if ks == [] then 0 else SumAt(ks[..|ks| - 1], m) + CountAt(m, ks[|ks| - 1])
  }

  /** Bumping a key raises the sum by one when the key is listed once, and leaves it otherwise. */
  lemma {:induction false} SumAtBumped<K>(ks: seq<K>, m: map<K, nat>, k: K)
    requires Distinct(ks)
    ensures SumAt(ks, Bumped(m, k)) == SumAt(ks, m) + (if k in ks then 1 else 0)
  {
    if ks != [] {
      var init, last := ks[..|ks| - 1], ks[|ks| - 1];
      assert ks == init + [last];
      assert Distinct(init) && last !in init by {
        forall i, j | 0 <= i < j < |init| ensures init[i] != init[j] {
          assert init[i] == ks[i] && init[j] == ks[j];
        }
        forall i | 0 <= i < |init| ensures init[i] != last {
          assert init[i] == ks[i];
        }
      }
      SumAtBumped(init, m, k);
    }
  }

  lemma {:induction false} SumAtEmpty<K>(ks: seq<K>)
    ensures SumAt(ks, map[]) == 0
  {
    if ks != [] {
      SumAtEmpty(ks[..|ks| - 1]);
    }
  }

  /** Summed over a list of distinct keys that covers every key, the histogram gives the number of elements. */
  lemma {:induction false} TallyBySum<T, K>(s: seq<T>, key: T -> K, ks: seq<K>)
    requires Distinct(ks) && forall x :: x in s ==> key(x) in ks
    ensures SumAt(ks, TallyBy(s, key)) == |s|
  {
    if s == [] {
      assert TallyBy(s, key) == map[];
      SumAtEmpty(ks);
    } else {
      var init, x := s[..|s| - 1], s[|s| - 1];
      assert s == init + [x];
      assert x in s;
      TallyBySum(init, key, ks);
      TallyBySnoc(init, x, key);
      SumAtBumped(ks, TallyBy(init, key), key(x));
    }
  }

  /** Every key of the histogram occurs and has a positive count. */
  lemma TallyByPositive<T, K>(s: seq<T>, key: T -> K)
    ensures TallyBy(s, key).Keys == KeySetOf(s, key)
    ensures forall k :: k in TallyBy(s, key) ==> TallyBy(s, key)[k] > 0
  {
    forall k | k in TallyBy(s, key) ensures TallyBy(s, key)[k] > 0 {
      var x :| x in s && key(x) == k;
      FilterMembers(s, HasKey(key, k), x);
    }
  }

  /** The distinct keys of `s` in order of first occurrence (the key order of a Python dict filled from `s`). */
  function FirstKeys<T(==), K(==)>(s: seq<T>, key: T -> K): seq<K> {
    if s == [] then []
    else
      var prefix := FirstKeys(s[..|s| - 1], key);
      if key(s[|s| - 1]) in prefix then prefix else prefix + [key(s[|s| - 1])]
  }

  lemma FirstKeysSnoc<T, K>(s: seq<T>, x: T, key: T -> K)
    ensures FirstKeys(s + [x], key) == if key(x) in FirstKeys(s, key) then FirstKeys(s, key) else FirstKeys(s, key) + [key(x)]
  {
    assert (s + [x])[..|s|] == s;
  }

  /** The first-occurrence keys are each key of `s` exactly once. */
  lemma {:induction false} FirstKeysFacts<T, K>(s: seq<T>, key: T -> K)
    ensures Distinct(FirstKeys(s, key))
    ensures forall k :: k in FirstKeys(s, key) <==> k in KeySetOf(s, key)
  {
    if s != [] {
      var init, x := s[..|s| - 1], s[|s| - 1];
      assert s == init + [x];
      FirstKeysFacts(init, key);
      FirstKeysSnoc(init, x, key);
      if key(x) !in FirstKeys(init, key) {
        DistinctSnoc(FirstKeys(init, key), key(x));
      }
      assert KeySetOf(s, key) == KeySetOf(init, key) + {key(x)};
    }
  }
}
