/** `Array.prototype.sort` with a numeric comparator `(a, b) => key(a) - key(b)`.
    The language guarantees a stable sort, so the model is a stable insertion
    sort by an integer key: smallest key first, equal keys in input order. */
module Sorting {
  import opened Seqs

  /** Inserts x before the first element whose key is not below x's. */
  function Insert<T>(x: T, s: seq<T>, key: T -> int): (r: seq<T>)
    ensures |r| == |s| + 1
    ensures multiset(r) == multiset(s) + multiset{x}
    decreases |s|
  {
    if s == [] || key(x) <= key(s[0]) then [x] + s
    else
      assert s == [s[0]] + s[1..];
      [s[0]] + Insert(x, s[1..], key)
  }

  /** The stably sorted permutation of s. */
  function SortByKey<T>(s: seq<T>, key: T -> int): (r: seq<T>)
    ensures |r| == |s|
    ensures multiset(r) == multiset(s)
    decreases |s|
  {
    if s == [] then []
    else
      assert s == [s[0]] + s[1..];
      Insert(s[0], SortByKey(s[1..], key), key)
  }

  predicate SortedByKey<T>(s: seq<T>, key: T -> int) {
    forall i, j :: 0 <= i < j < |s| ==> key(s[i]) <= key(s[j])
  }

  /** The elements of s whose key is k, in their order in s. */
  function KeyBucket<T>(s: seq<T>, key: T -> int, k: int): (r: seq<T>)
    ensures forall i :: 0 <= i < |r| ==> key(r[i]) == k
    decreases |s|
  {
    if s == [] then []
    else
      assert s == [s[0]] + s[1..];
      (if key(s[0]) == k then [s[0]] else []) + KeyBucket(s[1..], key, k)
  }

  lemma {:induction false} InsertSorted<T>(x: T, s: seq<T>, key: T -> int)
    requires SortedByKey(s, key)
    ensures SortedByKey(Insert(x, s, key), key)
    decreases |s|
  {
    if s != [] && key(x) > key(s[0]) {
      var t := s[1..];
      InsertSorted(x, t, key);
      var r := Insert(x, t, key);
      forall j | 0 <= j < |r|
        ensures key(s[0]) <= key(r[j])
      {
        assert r[j] in multiset(r);
        assert r[j] == x || r[j] in multiset(t);
        if r[j] != x {
          var m :| 0 <= m < |t| && t[m] == r[j];
          assert t[m] == s[m + 1];
        }
      }
    }
  }

  lemma {:induction false} SortIsSorted<T>(s: seq<T>, key: T -> int)
    ensures SortedByKey(SortByKey(s, key), key)
    decreases |s|
  {
    if s != [] {
      SortIsSorted(s[1..], key);
      InsertSorted(s[0], SortByKey(s[1..], key), key);
    }
  }

  lemma {:induction false} InsertBucket<T>(x: T, s: seq<T>, key: T -> int, k: int)
    ensures KeyBucket(Insert(x, s, key), key, k)
         == (if key(x) == k then [x] else []) + KeyBucket(s, key, k)
    decreases |s|
  {
    if s == [] || key(x) <= key(s[0]) {
      var r := [x] + s;
      assert r[0] == x && r[1..] == s;
      assert Insert(x, s, key) == r;
    } else {
      var rest := Insert(x, s[1..], key);
      var r := [s[0]] + rest;
      assert Insert(x, s, key) == r;
      assert r[0] == s[0] && r[1..] == rest;
      InsertBucket(x, s[1..], key, k);
      var head := if key(s[0]) == k then [s[0]] else [];
      var mid := if key(x) == k then [x] else [];
      assert KeyBucket(r, key, k) == head + KeyBucket(rest, key, k);
      assert KeyBucket(s, key, k) == head + KeyBucket(s[1..], key, k);
      // key(s[0]) < key(x), so at most one of head and mid is non-empty
      var tail := KeyBucket(s[1..], key, k);
      assert KeyBucket(rest, key, k) == mid + tail;
      if key(x) == k {
        assert head + KeyBucket(rest, key, k) == KeyBucket(rest, key, k);
        assert head + tail == tail;
      } else {
        assert mid + tail == tail;
        assert KeyBucket(rest, key, k) == tail;
      }
    }
  }

  /** Stability: sorting does not reorder the elements that share a key. */
  lemma {:induction false} SortIsStable<T>(s: seq<T>, key: T -> int, k: int)
    ensures KeyBucket(SortByKey(s, key), key, k) == KeyBucket(s, key, k)
    decreases |s|
  {
    if s != [] {
      SortIsStable(s[1..], key, k);
      InsertBucket(s[0], SortByKey(s[1..], key), key, k);
    }
  }

  /** Inserting x past a first part whose keys are all below x's. */
  lemma {:induction false} InsertAfterBelow<T>(x: T, p: seq<T>, q: seq<T>, key: T -> int)
    requires forall i :: 0 <= i < |p| ==> key(p[i]) < key(x)
    ensures Insert(x, p + q, key) == p + Insert(x, q, key)
    decreases |p|
  {
    if p == [] {
      assert p + q == q;
    } else {
      assert (p + q)[1..] == p[1..] + q;
      InsertAfterBelow(x, p[1..], q, key);
      assert p + Insert(x, q, key) == [p[0]] + (p[1..] + Insert(x, q, key));
    }
  }

  /** The buckets of keys lo, lo + 1, ..., hi, laid end to end. */
  function Buckets<T>(s: seq<T>, key: T -> int, lo: int, hi: int): (r: seq<T>)
    ensures forall i :: 0 <= i < |r| ==> lo <= key(r[i]) <= hi
    decreases hi - lo
  {
    if lo > hi then [] else KeyBucket(s, key, lo) + Buckets(s, key, lo + 1, hi)
  }

  lemma {:induction false} InsertIntoBuckets<T>(x: T, t: seq<T>, key: T -> int, lo: int, hi: int)
    requires lo <= key(x) <= hi
    ensures Insert(x, Buckets(t, key, lo, hi), key) == Buckets([x] + t, key, lo, hi)
    decreases hi - lo, 1
  {
    if key(x) == lo {
      InsertIntoLowest(x, t, key, lo, hi);
    } else {
      InsertPastLowest(x, t, key, lo, hi);
    }
  }

  /** x belongs to the lowest bucket: it goes in front of everything. */
  lemma InsertIntoLowest<T>(x: T, t: seq<T>, key: T -> int, lo: int, hi: int)
    requires key(x) == lo <= hi
    ensures Insert(x, Buckets(t, key, lo, hi), key) == Buckets([x] + t, key, lo, hi)
  {
    var b := KeyBucket(t, key, lo);
    var rest := Buckets(t, key, lo + 1, hi);
    var whole := Buckets(t, key, lo, hi);
    assert whole == b + rest;
    assert whole == [] || key(x) <= key(whole[0]);
    assert Insert(x, whole, key) == [x] + whole;
    BucketsSkip(x, t, key, lo + 1, hi);
    assert ([x] + t)[1..] == t;
    assert KeyBucket([x] + t, key, lo) == [x] + b;
    assert Buckets([x] + t, key, lo, hi) == ([x] + b) + rest;
    ConcatAssoc([x], b, rest);
  }

  /** x belongs above the lowest bucket: it goes past all of that bucket. */
  lemma {:induction false} InsertPastLowest<T>(x: T, t: seq<T>, key: T -> int, lo: int, hi: int)
    requires lo < key(x) <= hi
    ensures Insert(x, Buckets(t, key, lo, hi), key) == Buckets([x] + t, key, lo, hi)
    decreases hi - lo, 0
  {
    InsertIntoBuckets(x, t, key, lo + 1, hi);
    var b := KeyBucket(t, key, lo);
    var rest := Buckets(t, key, lo + 1, hi);
    InsertAfterBelow(x, b, rest, key);
    assert ([x] + t)[1..] == t;
    assert KeyBucket([x] + t, key, lo) == b;
  }

  /** An element whose key is below lo is in none of the buckets lo, ..., hi. */
  lemma {:induction false} BucketsSkip<T>(x: T, t: seq<T>, key: T -> int, lo: int, hi: int)
    requires key(x) < lo
    ensures Buckets([x] + t, key, lo, hi) == Buckets(t, key, lo, hi)
    decreases hi - lo
  {
    if lo <= hi {
      assert ([x] + t)[1..] == t;
      BucketsSkip(x, t, key, lo + 1, hi);
    }
  }

  /** When every key lies in [lo, hi], the stable sort is the concatenation of
      the buckets lo, ..., hi, each in input order. */
  lemma {:induction false} SortIsBuckets<T>(s: seq<T>, key: T -> int, lo: int, hi: int)
    requires forall i :: 0 <= i < |s| ==> lo <= key(s[i]) <= hi
    ensures SortByKey(s, key) == Buckets(s, key, lo, hi)
    decreases |s|
  {
    if s == [] {
      EmptyBuckets(key, lo, hi);
    } else {
      SortIsBuckets(s[1..], key, lo, hi);
      InsertIntoBuckets(s[0], s[1..], key, lo, hi);
      assert [s[0]] + s[1..] == s;
    }
  }

  lemma {:induction false} EmptyBuckets<T>(key: T -> int, lo: int, hi: int)
    ensures Buckets([], key, lo, hi) == []
    decreases hi - lo
  {
    if lo <= hi {
      EmptyBuckets(key, lo + 1, hi);
    }
  }

  lemma {:induction false} BucketConcat<T>(a: seq<T>, b: seq<T>, key: T -> int, k: int)
    ensures KeyBucket(a + b, key, k) == KeyBucket(a, key, k) + KeyBucket(b, key, k)
    decreases |a|
  {
    if a == [] {
      assert a + b == b;
    } else {
      assert (a + b)[1..] == a[1..] + b;
      BucketConcat(a[1..], b, key, k);
    }
  }

  /** A prefix holds an initial part of each bucket. */
  lemma BucketOfPrefix<T>(s: seq<T>, n: nat, key: T -> int, k: int)
    requires n <= |s|
    ensures KeyBucket(s[..n], key, k) <= KeyBucket(s, key, k)
  {
    assert s == s[..n] + s[n..];
    BucketConcat(s[..n], s[n..], key, k);
  }

  /** In a sorted list, an element that is not among the first m has no
      smaller key than any of them. */
  lemma PrefixCutoff<T>(t: seq<T>, m: nat, x: T, key: T -> int)
    requires SortedByKey(t, key) && m <= |t|
    requires x in t && x !in t[..m]
    ensures forall j :: 0 <= j < m ==> key(t[j]) <= key(x)
  {
    var l :| 0 <= l < |t| && t[l] == x;
    assert forall k :: 0 <= k < m ==> t[..m][k] == t[k];
    assert l >= m;
  }

  /** What `sort` followed by `slice(0, n)` keeps: at most n elements of s,
      in key order, and nothing left out has a smaller key than anything kept. */
  lemma {:induction false} TopByKey<T>(s: seq<T>, key: T -> int, n: nat)
    ensures |Take(SortByKey(s, key), n)| <= n
    ensures |Take(SortByKey(s, key), n)| == Min(n, |s|)
    ensures multiset(Take(SortByKey(s, key), n)) <= multiset(s)
    ensures SortedByKey(Take(SortByKey(s, key), n), key)
    ensures forall i :: 0 <= i < |s| && s[i] !in Take(SortByKey(s, key), n) ==>
              forall j :: 0 <= j < |Take(SortByKey(s, key), n)| ==>
                key(Take(SortByKey(s, key), n)[j]) <= key(s[i])
  {
    var sorted := SortByKey(s, key);
    var r := Take(sorted, n);
    SortIsSorted(s, key);
    PrefixMultiset(sorted, |r|);
    forall i | 0 <= i < |s| && s[i] !in r
      ensures forall j :: 0 <= j < |r| ==> key(r[j]) <= key(s[i])
    {
      assert s[i] in multiset(sorted);
      PrefixCutoff(sorted, |r|, s[i], key);
    }
  }

  /** Relabelling the elements commutes with sorting when the new key of each
      relabelled element is the old key of the element. */
  lemma {:induction false} InsertMap<T, U>(x: T, s: seq<T>, f: T -> U, k1: T -> int, k2: U -> int)
    requires forall y :: k2(f(y)) == k1(y)
    ensures Insert(f(x), Map(s, f), k2) == Map(Insert(x, s, k1), f)
    decreases |s|
  {
    if s != [] && k1(x) > k1(s[0]) {
      InsertMap(x, s[1..], f, k1, k2);
      assert Map(s, f)[1..] == Map(s[1..], f);
      assert Map([s[0]] + Insert(x, s[1..], k1), f) == [f(s[0])] + Map(Insert(x, s[1..], k1), f);
    } else if s != [] {
      assert Map([x] + s, f) == [f(x)] + Map(s, f);
    }
  }

  lemma {:induction false} SortMap<T, U>(s: seq<T>, f: T -> U, k1: T -> int, k2: U -> int)
    requires forall y :: k2(f(y)) == k1(y)
    ensures SortByKey(Map(s, f), k2) == Map(SortByKey(s, k1), f)
    decreases |s|
  {
    if s != [] {
      SortMap(s[1..], f, k1, k2);
      assert Map(s, f)[1..] == Map(s[1..], f);
      InsertMap(s[0], SortByKey(s[1..], k1), f, k1, k2);
    }
  }
}
