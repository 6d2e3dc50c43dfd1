/** Count dictionaries. Several views fill a plain object in a `forEach` loop,
    `counts[k] = (counts[k] || 0) + 1`, read it back with `Object.entries`, sort
    the entries by descending count and keep the first few. The dictionary is a
    `map` together with the order in which its keys were first written, which
    is the order `Object.entries` enumerates string keys in (integer-like keys
    come first in JavaScript, in numeric order). */
module Tally {
  import opened Wrappers
  import opened Seqs
  import opened Sorting

  /** How many times k occurs in xs. */
  function Occurrences<K(==)>(xs: seq<K>, k: K): (n: nat)
    ensures n <= |xs|
    ensures n == 0 <==> k !in xs
    decreases |xs|
  {
    if xs == [] then 0
    else
      assert xs == xs[..|xs| - 1] + [xs[|xs| - 1]];
      Occurrences(xs[..|xs| - 1], k) + (if xs[|xs| - 1] == k then 1 else 0)
  }

  /** The distinct elements of xs in order of first occurrence: the key order
      of a dictionary filled from xs. */
  function Distinct<K(==)>(xs: seq<K>): (r: seq<K>)
    ensures NoDuplicates(r)
    ensures forall i :: 0 <= i < |r| ==> r[i] in xs
    ensures forall i :: 0 <= i < |xs| ==> xs[i] in r
    decreases |xs|
  {
    if xs == [] then []
    else
      var d := Distinct(xs[..|xs| - 1]);
      assert xs == xs[..|xs| - 1] + [xs[|xs| - 1]];
      assert forall i :: 0 <= i < |xs| - 1 ==> xs[i] == xs[..|xs| - 1][i];
      if xs[|xs| - 1] in d then d else d + [xs[|xs| - 1]]
  }

  /** The dictionary the loop builds from xs: each key that occurs, with its
      number of occurrences. */
  function TallyOf<K(==)>(xs: seq<K>): (m: map<K, nat>)
    ensures m.Keys == set x | x in xs
    ensures forall i :: 0 <= i < |xs| ==> m[xs[i]] == Occurrences(xs, xs[i])
  {
    map k | k in xs :: Occurrences(xs, k)
  }

  lemma TallySnoc<K>(xs: seq<K>, x: K)
    ensures TallyOf(xs + [x])
         == TallyOf(xs)[x := (if x in TallyOf(xs) then TallyOf(xs)[x] else 0) + 1]
  {
    var ys := xs + [x];
    assert ys[..|ys| - 1] == xs;
    forall k
      ensures k in ys <==> k in xs || k == x
      ensures Occurrences(ys, k) == Occurrences(xs, k) + (if k == x then 1 else 0)
    {
    }
  }

  lemma DistinctSnoc<K>(xs: seq<K>, x: K)
    ensures Distinct(xs + [x]) == if x in TallyOf(xs) then Distinct(xs) else Distinct(xs) + [x]
  {
    var ys := xs + [x];
    assert ys[..|ys| - 1] == xs;
  }

  /** One turn of the counting loop keeps the dictionary equal to the tally of
      the keys seen so far, and the key order equal to their first
      occurrences. */
  lemma CountStep<K>(xs: seq<K>, x: K, counts: map<K, nat>, order: seq<K>)
    requires counts == TallyOf(xs) && order == Distinct(xs)
    ensures counts[x := (if x in counts then counts[x] else 0) + 1] == TallyOf(xs + [x])
    ensures (if x in counts then order else order + [x]) == Distinct(xs + [x])
  {
    CountStepTally(xs, x, xs + [x], counts);
    DistinctSnoc(xs, x);
  }

  /** The tally step aimed at any name `ys` for the extended keys. */
  lemma CountStepTally<K>(xs: seq<K>, x: K, ys: seq<K>, counts: map<K, nat>)
    requires counts == TallyOf(xs) && ys == xs + [x]
    ensures counts[x := (if x in counts then counts[x] else 0) + 1] == TallyOf(ys)
  {
    TallySnoc(xs, x);
  }

  /** The counting loop: one pass over the keys, bumping the key's count and
      recording a key the first time it is written. */
  method CountBy<K(==)>(keys: seq<K>) returns (counts: map<K, nat>, order: seq<K>)
    ensures counts == TallyOf(keys)
    ensures order == Distinct(keys)
  {
    counts, order := map[], [];
    var i := 0;
    while i < |keys|
      invariant 0 <= i <= |keys|
      invariant counts == TallyOf(keys[..i])
      invariant order == Distinct(keys[..i])
    {
      var k := keys[i];
      assert keys[..i + 1] == keys[..i] + [k];
      CountStep(keys[..i], k, counts, order);
      order := if k in counts then order else order + [k];
      counts := counts[k := (if k in counts then counts[k] else 0) + 1];
      i := i + 1;
    }
    assert keys[..|keys|] == keys;
  }

  /** The keys f gives the elements of xs, in order, skipping the elements
      it gives no key. */
  function Keyed<T, K>(xs: seq<T>, f: T -> Option<K>): (r: seq<K>)
    ensures |r| <= |xs|
    decreases |xs|
  {
    if xs == [] then []
    else
      Keyed(xs[..|xs| - 1], f)
      + match f(xs[|xs| - 1])
        case Some(k) => [k]
        case None => []
  }

  lemma KeyedSnoc<T, K>(xs: seq<T>, i: nat, f: T -> Option<K>)
    requires i < |xs|
    ensures f(xs[i]).Some? ==> Keyed(xs[..i + 1], f) == Keyed(xs[..i], f) + [f(xs[i]).value]
    ensures f(xs[i]).None? ==> Keyed(xs[..i + 1], f) == Keyed(xs[..i], f)
  {
    assert xs[..i + 1][..i] == xs[..i];
  }

  /** Exactly the elements with a key contribute one. */
  lemma {:induction false} KeyedLength<T, K>(xs: seq<T>, f: T -> Option<K>, p: T -> bool)
    requires forall x :: p(x) == f(x).Some?
    ensures |Keyed(xs, f)| == Count(xs, p)
    decreases |xs|
  {
    if xs != [] {
      var init := xs[..|xs| - 1];
      var last := xs[|xs| - 1];
      KeyedLength(init, f, p);
      assert xs == init + [last];
      FilterConcat(init, [last], p);
    }
  }

  /** The counting loop over elements that may have no key: an element
      without one is skipped. */
  method CountKeyed<T, K(==)>(xs: seq<T>, f: T -> Option<K>) returns (counts: map<K, nat>, order: seq<K>)
    ensures counts == TallyOf(Keyed(xs, f))
    ensures order == Distinct(Keyed(xs, f))
  {
    counts, order := map[], [];
    assert xs[..0] == [];
    var i := 0;
    while i < |xs|
      invariant 0 <= i <= |xs|
      invariant counts == TallyOf(Keyed(xs[..i], f))
      invariant order == Distinct(Keyed(xs[..i], f))
    {
      KeyedSnoc(xs, i, f);
      match f(xs[i]) {
        case Some(k) =>
          CountStep(Keyed(xs[..i], f), k, counts, order);
          order := if k in counts then order else order + [k];
          counts := counts[k := (if k in counts then counts[k] else 0) + 1];
        case None =>
      }
      i := i + 1;
    }
    assert xs[..|xs|] == xs;
  }

  /** The entries for the keys ks, each with its count in xs. */
  function CountsFor<K(==)>(ks: seq<K>, xs: seq<K>): (r: seq<(K, nat)>)
    ensures |r| == |ks|
    ensures forall i :: 0 <= i < |r| ==> r[i] == (ks[i], Occurrences(xs, ks[i]))
    decreases |ks|
  {
    if ks == [] then [] else [(ks[0], Occurrences(xs, ks[0]))] + CountsFor(ks[1..], xs)
  }

  /** `Object.entries` of the dictionary filled from xs. */
  function Entries<K(==)>(xs: seq<K>): seq<(K, nat)> {
    CountsFor(Distinct(xs), xs)
  }

  /** No two entries share a key. */
  predicate DistinctKeys<K(==), V>(es: seq<(K, V)>) {
    forall i, j :: 0 <= i < j < |es| ==> es[i].0 != es[j].0
  }

  /** The total of the counts. */
  function SumCounts<K>(es: seq<(K, nat)>): nat
    decreases |es|
  {
    if es == [] then 0 else es[0].1 + SumCounts(es[1..])
  }

  /** The entries are exactly the occurring keys, once each, with their counts,
      and every count is at least one. */
  lemma EntriesAreTally<K>(xs: seq<K>)
    ensures DistinctKeys(Entries(xs))
    ensures forall i :: 0 <= i < |Entries(xs)| ==>
              Entries(xs)[i].0 in xs && Entries(xs)[i].1 == Occurrences(xs, Entries(xs)[i].0) >= 1
    ensures forall i :: 0 <= i < |xs| ==> (xs[i], Occurrences(xs, xs[i])) in Entries(xs)
  {
    var d := Distinct(xs);
    var es := Entries(xs);
    forall i | 0 <= i < |xs|
      ensures (xs[i], Occurrences(xs, xs[i])) in es
    {
      var j :| 0 <= j < |d| && d[j] == xs[i];
      assert es[j] == (xs[i], Occurrences(xs, xs[i]));
    }
  }

  lemma {:induction false} SumCountsForSnocKey<K>(ks: seq<K>, k: K, xs: seq<K>)
    ensures SumCounts(CountsFor(ks + [k], xs)) == SumCounts(CountsFor(ks, xs)) + Occurrences(xs, k)
    decreases |ks|
  {
    if ks == [] {
      assert CountsFor([k], xs) == [(k, Occurrences(xs, k))];
    } else {
      assert (ks + [k])[1..] == ks[1..] + [k];
      SumCountsForSnocKey(ks[1..], k, xs);
    }
  }

  lemma {:induction false} SumCountsForSnocElem<K>(ks: seq<K>, xs: seq<K>, x: K)
    requires NoDuplicates(ks)
    ensures SumCounts(CountsFor(ks, xs + [x]))
         == SumCounts(CountsFor(ks, xs)) + (if x in ks then 1 else 0)
    decreases |ks|
  {
    if ks != [] {
      var ys := xs + [x];
      assert ys[..|ys| - 1] == xs;
      assert NoDuplicates(ks[1..]) by {
        forall i, j | 0 <= i < j < |ks[1..]| ensures ks[1..][i] != ks[1..][j] {
          assert ks[1..][i] == ks[i + 1] && ks[1..][j] == ks[j + 1];
        }
      }
      SumCountsForSnocElem(ks[1..], xs, x);
      assert x in ks <==> x == ks[0] || x in ks[1..];
      assert x == ks[0] ==> x !in ks[1..];
    }
  }

  /** The counts add up to the number of keys counted. */
  lemma {:induction false} EntriesSum<K>(xs: seq<K>)
    ensures SumCounts(Entries(xs)) == |xs|
    decreases |xs|
  {
    if xs != [] {
      var p := xs[..|xs| - 1];
      var x := xs[|xs| - 1];
      assert xs == p + [x];
      EntriesSum(p);
      var d := Distinct(p);
      SumCountsForSnocElem(d, p, x);
      if x !in d {
        SumCountsForSnocKey(d, x, xs);
        assert x !in p;
        assert xs[..|xs| - 1] == p;
      }
    }
  }

  lemma {:induction false} OccurrencesConcat<K>(a: seq<K>, b: seq<K>, k: K)
    ensures Occurrences(a + b, k) == Occurrences(a, k) + Occurrences(b, k)
    decreases |b|
  {
    if b == [] {
      assert a + b == a;
    } else {
      var c := a + b;
      assert c[..|c| - 1] == a + b[..|b| - 1];
      OccurrencesConcat(a, b[..|b| - 1], k);
    }
  }

  /** Counting a key among the keys of the records is counting the records
      that have that key (p is the test "has key k"). */
  lemma {:induction false} OccurrencesOfMap<T, K>(xs: seq<T>, f: T -> K, k: K, p: T -> bool)
    requires forall x :: p(x) == (f(x) == k)
    ensures Occurrences(Map(xs, f), k) == Count(xs, p)
    decreases |xs|
  {
    if xs != [] {
      OccurrencesOfMap(xs[1..], f, k, p);
      assert Map(xs, f) == [f(xs[0])] + Map(xs[1..], f);
      OccurrencesConcat([f(xs[0])], Map(xs[1..], f), k);
      assert [f(xs[0])][..0] == [];
    }
  }

  /** `Object.entries` of a dictionary: its keys in insertion order, each with
      its value (the order JavaScript uses for keys that are not integer-like). */
  function ObjectEntries<K(==)>(m: map<K, nat>, order: seq<K>): (r: seq<(K, nat)>)
    requires forall i :: 0 <= i < |order| ==> order[i] in m
    ensures |r| == |order|
    ensures forall i :: 0 <= i < |r| ==> r[i] == (order[i], m[order[i]])
  {
    seq(|order|, i requires 0 <= i < |order| => (order[i], m[order[i]]))
  }

  /** The entries of the dictionary the loop fills are the tally's entries. */
  lemma EntriesOfTally<K>(xs: seq<K>)
    ensures forall i :: 0 <= i < |Distinct(xs)| ==> Distinct(xs)[i] in TallyOf(xs)
    ensures ObjectEntries(TallyOf(xs), Distinct(xs)) == Entries(xs)
  {
    var d := Distinct(xs);
    var m := TallyOf(xs);
    assert forall i :: 0 <= i < |d| ==> d[i] in m;
    forall i | 0 <= i < |d|
      ensures m[d[i]] == Occurrences(xs, d[i])
    {
      var j :| 0 <= j < |xs| && xs[j] == d[i];
    }
  }

  /** Sort key for "descending by count". */
  function NegCount<K>(e: (K, nat)): int {
    -(e.1 as int)
  }

  /** `Object.entries(...).sort(([, a], [, b]) => b - a).slice(0, n)`. */
  function TopByCount<K>(es: seq<(K, nat)>, n: nat): seq<(K, nat)> {
    Take(SortByKey(es, NegCount), n)
  }

  lemma NoDuplicatesCount<T>(s: seq<T>, x: T)
    requires NoDuplicates(s)
    ensures multiset(s)[x] <= 1
    decreases |s|
  {
    if s != [] {
      assert s == [s[0]] + s[1..];
      assert NoDuplicates(s[1..]) by {
        forall i, j | 0 <= i < j < |s[1..]| ensures s[1..][i] != s[1..][j] {
          assert s[1..][i] == s[i + 1] && s[1..][j] == s[j + 1];
        }
      }
      NoDuplicatesCount(s[1..], x);
      if s[0] == x {
        assert x !in s[1..];
      }
    }
  }

  lemma RepeatCount<T>(s: seq<T>, i: nat, j: nat)
    requires i < j < |s| && s[i] == s[j]
    ensures multiset(s)[s[i]] >= 2
  {
    assert s == s[..j] + s[j..];
    assert s[..j][i] == s[i];
    assert s[j..][0] == s[i];
    assert s[i] in multiset(s[..j]) && s[i] in multiset(s[j..]);
  }

  /** Selecting a sub-multiset of entries with distinct keys keeps them distinct. */
  lemma SubmultisetDistinctKeys<K, V>(r: seq<(K, V)>, s: seq<(K, V)>)
    requires DistinctKeys(s)
    requires multiset(r) <= multiset(s)
    ensures DistinctKeys(r)
  {
    assert NoDuplicates(s);
    forall i, j | 0 <= i < j < |r|
      ensures r[i].0 != r[j].0
    {
      assert r[i] in multiset(s) && r[j] in multiset(s);
      var a :| 0 <= a < |s| && s[a] == r[i];
      var b :| 0 <= b < |s| && s[b] == r[j];
      if r[i].0 == r[j].0 {
        assert a == b;
        RepeatCount(r, i, j);
        NoDuplicatesCount(s, r[i]);
        assert false;
      }
    }
  }

  /** The ranking keeps at most n entries, all taken from es, with
      non-increasing counts and distinct keys when es has them; no entry left
      out has a higher count than any entry kept. */
  lemma TopByCountFacts<K>(es: seq<(K, nat)>, n: nat)
    ensures |TopByCount(es, n)| <= n
    ensures |TopByCount(es, n)| == Min(n, |es|)
    ensures multiset(TopByCount(es, n)) <= multiset(es)
    ensures forall i :: 0 <= i < |TopByCount(es, n)| ==> TopByCount(es, n)[i] in es
    ensures forall i, j :: 0 <= i < j < |TopByCount(es, n)| ==>
              TopByCount(es, n)[i].1 >= TopByCount(es, n)[j].1
    ensures DistinctKeys(es) ==> DistinctKeys(TopByCount(es, n))
    ensures forall i :: 0 <= i < |es| && es[i] !in TopByCount(es, n) ==>
              forall j :: 0 <= j < |TopByCount(es, n)| ==> es[i].1 <= TopByCount(es, n)[j].1
  {
    var r := TopByCount(es, n);
    TopByKey(es, NegCount, n);
    forall i | 0 <= i < |r| ensures r[i] in es {
      assert r[i] in multiset(r);
    }
    forall i, j | 0 <= i < j < |r| ensures r[i].1 >= r[j].1 {
      assert NegCount(r[i]) <= NegCount(r[j]);
    }
    forall i | 0 <= i < |es| && es[i] !in r
      ensures forall j :: 0 <= j < |r| ==> es[i].1 <= r[j].1
    {
      assert forall j :: 0 <= j < |r| ==> NegCount(r[j]) <= NegCount(es[i]);
    }
    if DistinctKeys(es) {
      SubmultisetDistinctKeys(r, es);
    }
  }

  /** The first n entries of a tally's ranking: at most n keys, each once,
      each with its count (at least one), counts non-increasing. */
  lemma RankingOfTally<K>(xs: seq<K>, n: nat)
    ensures |TopByCount(Entries(xs), n)| <= n
    ensures |TopByCount(Entries(xs), n)| == Min(n, |Distinct(xs)|)
    ensures DistinctKeys(TopByCount(Entries(xs), n))
    ensures forall i :: 0 <= i < |TopByCount(Entries(xs), n)| ==>
              var e := TopByCount(Entries(xs), n)[i]; e.0 in xs && e.1 == Occurrences(xs, e.0) >= 1
    ensures forall i, j :: 0 <= i < j < |TopByCount(Entries(xs), n)| ==>
              TopByCount(Entries(xs), n)[i].1 >= TopByCount(Entries(xs), n)[j].1
  {
    EntriesAreTally(xs);
    TopByCountFacts(Entries(xs), n);
  }

  /** No key left out of a tally's ranking occurs more often than any key
      kept. */
  lemma RankingOmitsNoLarger<K>(xs: seq<K>, n: nat, k: K)
    requires k in xs
    requires forall i :: 0 <= i < |TopByCount(Entries(xs), n)| ==> TopByCount(Entries(xs), n)[i].0 != k
    ensures forall j :: 0 <= j < |TopByCount(Entries(xs), n)| ==> Occurrences(xs, k) <= TopByCount(Entries(xs), n)[j].1
  {
    var es := Entries(xs);
    var sorted := SortByKey(es, NegCount);
    var r := Take(sorted, n);
    var e := (k, Occurrences(xs, k));
    EntryOfKey(xs, k);
    SortIsSorted(es, NegCount);
    assert e in multiset(sorted);
    var m :| 0 <= m < |sorted| && sorted[m] == e;
    assert r == TopByCount(es, n);
    assert forall i :: 0 <= i < |r| ==> r[i] == sorted[i];
    assert m >= |r|;
    forall j | 0 <= j < |r|
      ensures Occurrences(xs, k) <= r[j].1
    {
      assert r[j] == sorted[j];
      assert NegCount(sorted[j]) <= NegCount(sorted[m]);
    }
  }

  /** Every key of xs has its entry. */
  lemma EntryOfKey<K>(xs: seq<K>, k: K)
    requires k in xs
    ensures (k, Occurrences(xs, k)) in Entries(xs)
  {
    var d := Distinct(xs);
    var i :| 0 <= i < |xs| && xs[i] == k;
    var j :| 0 <= j < |d| && d[j] == k;
    assert Entries(xs)[j] == (k, Occurrences(xs, k));
  }

  lemma {:induction false} InsertKeepsSum<K>(x: (K, nat), s: seq<(K, nat)>, key: ((K, nat)) -> int)
    ensures SumCounts(Insert(x, s, key)) == x.1 + SumCounts(s)
    decreases |s|
  {
    if s != [] && key(x) > key(s[0]) {
      InsertKeepsSum(x, s[1..], key);
      assert Insert(x, s, key)[1..] == Insert(x, s[1..], key);
    } else {
      assert Insert(x, s, key)[1..] == s;
    }
  }

  /** Sorting the entries does not change their total. */
  lemma {:induction false} SortKeepsSum<K>(s: seq<(K, nat)>, key: ((K, nat)) -> int)
    ensures SumCounts(SortByKey(s, key)) == SumCounts(s)
    decreases |s|
  {
    if s != [] {
      SortKeepsSum(s[1..], key);
      InsertKeepsSum(s[0], SortByKey(s[1..], key), key);
    }
  }
}
