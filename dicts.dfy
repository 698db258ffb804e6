/** A plain JavaScript object used as a dictionary (`acc[k] = v`,
    `Object.entries(acc)`), as the sequence of its entries in insertion order.
    `Put` overwrites the entry of a key that is present and appends a new one
    otherwise, so a dictionary built with `Put` never holds a key twice. */
module Dicts {
  import opened Common

  type Dict<K, V> = seq<(K, V)>

  /** `Object.keys(d)` */
  function Keys<K, V>(d: Dict<K, V>): (ks: seq<K>)
    ensures |ks| == |d|
    ensures forall i :: 0 <= i < |d| ==> ks[i] == d[i].0
  {
    seq(|d|, i requires 0 <= i < |d| => d[i].0)
  }

  /** `d[k]`, `undefined` when `k` is not a key. */
  function Get<K(==), V>(d: Dict<K, V>, k: K): Option<V> {
    if k in Keys(d) then Some(d[IndexOf(Keys(d), k)].1) else None
  }

  /** `d[k] || default` */
  function GetOr<K(==), V>(d: Dict<K, V>, k: K, default: V): V {
    Get(d, k).GetOr(default)
  }

  /** `d[k] = v` */
  function Put<K(==), V>(d: Dict<K, V>, k: K, v: V): Dict<K, V> {
    if k in Keys(d) then d[IndexOf(Keys(d), k) := (k, v)] else d + [(k, v)]
  }

  /** `d[k] || 0` for a dictionary of counts. */
  function Count<K(==)>(d: Dict<K, nat>, k: K): nat {
    GetOr(d, k, 0)
  }

  /** `d[k] = (d[k] || 0) + n` */
  function AddTo<K(==)>(d: Dict<K, nat>, k: K, n: nat): Dict<K, nat> {
    Put(d, k, Count(d, k) + n)
  }

  function EntryCount<K>(e: (K, nat)): nat {
    e.1
  }

  /** `Object.values(d).reduce((sum, c) => sum + c, 0)` */
  function Total<K>(d: Dict<K, nat>): nat {
    SumOf(d, EntryCount)
  }

  /** The counting loop `ks.forEach(k => { d[k] = (d[k] || 0) + 1; })` from `{}`. */
  function Tally<K(==)>(ks: seq<K>): Dict<K, nat>
    decreases |ks|
  {
    if ks == [] then [] else AddTo(Tally(ks[..|ks| - 1]), ks[|ks| - 1], 1)
  }

  /** The values paired with key `k`, in order. */
  function Select<K(==), V>(items: seq<(K, V)>, k: K): seq<V>
    decreases |items|
  {
    if items == [] then []
    else if items[|items| - 1].0 == k then Select(items[..|items| - 1], k) + [items[|items| - 1].1]
    else Select(items[..|items| - 1], k)
  }

  /** The grouping loop `items.forEach(([k, v]) => { (acc[k] = acc[k] || []).push(v); })`. */
  function GroupBy<K(==), V>(items: seq<(K, V)>): Dict<K, seq<V>>
    decreases |items|
  {
    if items == [] then []
    else
      var g := GroupBy(items[..|items| - 1]);
      var (k, v) := items[|items| - 1];
      Put(g, k, GetOr(g, k, []) + [v])
  }

  function GroupSize<K, V>(e: (K, seq<V>)): nat {
    |e.1|
  }

  /** A counting `reduce` over the elements that pass a test: each one adds 1
      to the entry of its key. */
  method TallyWhere<T, K(==)>(s: seq<T>, p: T -> bool, key: T -> K) returns (d: Dict<K, nat>)
    ensures d == Tally(Map(Filter(s, p), key))
  {
    d := [];
    var j := 0;
    while j < |s|
      invariant j <= |s|
      invariant d == Tally(Map(Filter(s[..j], p), key))
    {
      TallyWhereStep(s, p, key, j);
      if p(s[j]) {
        d := AddTo(d, key(s[j]), 1);
      }
      j := j + 1;
    }
    assert s[..j] == s;
  }

  lemma TallyWhereStep<T, K>(s: seq<T>, p: T -> bool, key: T -> K, j: nat)
    requires j < |s|
    ensures Tally(Map(Filter(s[..j + 1], p), key))
      == if p(s[j]) then AddTo(Tally(Map(Filter(s[..j], p), key)), key(s[j]), 1)
         else Tally(Map(Filter(s[..j], p), key))
  {
    assert s[..j + 1][..j] == s[..j];
    var f := Filter(s[..j], p);
    if p(s[j]) {
      var m := Map(f + [s[j]], key);
      assert m == Map(f, key) + [key(s[j])];
      assert m[..|m| - 1] == Map(f, key);
    }
  }

  /** `Object.entries(d).forEach(([k, n]) => { acc[k] = (acc[k] || 0) + n; })` */
  function AddAll<K(==)>(acc: Dict<K, nat>, d: Dict<K, nat>): Dict<K, nat>
    decreases |d|
  {
    if d == [] then acc
    else
      var n := |d| - 1;
      AddTo(AddAll(acc, d[..n]), d[n].0, d[n].1)
  }

  /** The `forEach` that adds every count of `d` into the accumulator. */
  method AddAllTo<K(==)>(acc0: Dict<K, nat>, d: Dict<K, nat>) returns (acc: Dict<K, nat>)
    ensures acc == AddAll(acc0, d)
  {
    acc := acc0;
    var i := 0;
    while i < |d|
      invariant i <= |d|
      invariant acc == AddAll(acc0, d[..i])
    {
      assert d[..i + 1][..i] == d[..i];
      acc := AddTo(acc, d[i].0, d[i].1);
      i := i + 1;
    }
    assert d[..i] == d;
  }

  /** Adding counts in keeps each key once, and adds only the keys of `d`. */
  lemma {:induction false} AddAllKeys<K>(acc: Dict<K, nat>, d: Dict<K, nat>)
    requires Distinct(Keys(acc))
    ensures Distinct(Keys(AddAll(acc, d)))
    ensures forall k :: k in Keys(AddAll(acc, d)) ==> k in Keys(acc) || k in Keys(d)
    decreases |d|
  {
    if d != [] {
      var n := |d| - 1;
      AddAllKeys(acc, d[..n]);
      AddAllStep(AddAll(acc, d[..n]), d[n].0, d[n].1);
      assert Keys(d) == Keys(d[..n]) + [d[n].0];
    }
  }

  lemma AddAllStep<K>(prev: Dict<K, nat>, k: K, c: nat)
    requires Distinct(Keys(prev))
    ensures Distinct(Keys(AddTo(prev, k, c)))
    ensures forall j :: j in Keys(AddTo(prev, k, c)) ==> j in Keys(prev) || j == k
  {
    PutKeys(prev, k, Count(prev, k) + c);
    PutDistinct(prev, k, Count(prev, k) + c);
  }

  lemma {:induction false} AddAllTotal<K>(acc: Dict<K, nat>, d: Dict<K, nat>)
    ensures Total(AddAll(acc, d)) == Total(acc) + Total(d)
    decreases |d|
  {
    if d != [] {
      var n := |d| - 1;
      AddAllTotal(acc, d[..n]);
      TotalAddTo(AddAll(acc, d[..n]), d[n].0, d[n].1);
    }
  }

  /** `k => d[k] || 0` */
  function CountIn<K(==)>(d: Dict<K, nat>): K -> nat {
    (k: K) => Count(d, k)
  }

  lemma CountAddTo<K>(d: Dict<K, nat>, k: K, n: nat, j: K)
    ensures Count(AddTo(d, k, n), j) == Count(d, j) + (if j == k then n else 0)
  {
    PutGet(d, k, Count(d, k) + n, j);
  }

  /** A count absent from a dictionary reads as 0. */
  lemma CountAbsent<K>(d: Dict<K, nat>, k: K)
    requires k !in Keys(d)
    ensures Count(d, k) == 0
  {
  }

  /** The last entry of a dictionary without repeated keys adds to one count only. */
  lemma CountSnoc<K>(d: Dict<K, nat>, j: K)
    requires d != [] && Distinct(Keys(d))
    ensures Count(d, j) == Count(d[..|d| - 1], j) + Only(d[|d| - 1].0, d[|d| - 1].1)(j)
  {
    var n := |d| - 1;
    assert Keys(d[..n]) == Keys(d)[..n];
    assert d[n].0 !in Keys(d[..n]);
    assert d == d[..n] + [d[n]];
    GetSnoc(d[..n], d[n], j);
    if j == d[n].0 {
      CountAbsent(d[..n], j);
    }
  }

  /** Adding a dictionary without repeated keys into an accumulator adds its
      count to each key. */
  lemma {:induction false} AddAllCount<K>(acc: Dict<K, nat>, d: Dict<K, nat>, j: K)
    requires Distinct(Keys(d))
    ensures Count(AddAll(acc, d), j) == Count(acc, j) + Count(d, j)
    decreases |d|
  {
    if d != [] {
      var n := |d| - 1;
      assert Keys(d[..n]) == Keys(d)[..n];
      AddAllCount(acc, d[..n], j);
      CountAddTo(AddAll(acc, d[..n]), d[n].0, d[n].1, j);
      CountSnoc(d, j);
    }
  }

  /** Reading the counts of a dictionary off a list that holds each of its
      keys once adds up to the dictionary's total. */
  lemma {:induction false} SumCounts<K>(ks: seq<K>, d: Dict<K, nat>)
    requires Distinct(ks) && Distinct(Keys(d))
    requires forall k :: k in Keys(d) ==> k in ks
    ensures SumOf(ks, CountIn(d)) == Total(d)
    decreases |d|
  {
    if d == [] {
      SumOfZero(ks, CountIn(d));
    } else {
      var n := |d| - 1;
      var prev := d[..n];
      assert Keys(prev) == Keys(d)[..n];
      SumCounts(ks, prev);
      forall i | 0 <= i < |ks| ensures CountIn(d)(ks[i]) == CountIn(prev)(ks[i]) + Only(d[n].0, d[n].1)(ks[i]) {
        CountSnoc(d, ks[i]);
      }
      SumOfAdd(ks, CountIn(prev), Only(d[n].0, d[n].1), CountIn(d));
      assert d[n].0 in Keys(d);
      SumOfOnly(ks, d[n].0, d[n].1);
    }
  }

  lemma PutKeys<K, V>(d: Dict<K, V>, k: K, v: V)
    ensures Keys(Put(d, k, v)) == if k in Keys(d) then Keys(d) else Keys(d) + [k]
  {
  }

  lemma IndexOfUnique<K>(ks: seq<K>, k: K, i: nat)
    requires i < |ks| && ks[i] == k
    requires forall j :: 0 <= j < i ==> ks[j] != k
    ensures IndexOf(ks, k) == i
  {
  }

  lemma PutGet<K, V>(d: Dict<K, V>, k: K, v: V, j: K)
    ensures Get(Put(d, k, v), j) == if j == k then Some(v) else Get(d, j)
  {
    var d' := Put(d, k, v);
    PutKeys(d, k, v);
    if j == k {
      if k !in Keys(d) {
        IndexOfUnique(Keys(d'), k, |d|);
      }
    } else if j in Keys(d) {
      var i := IndexOf(Keys(d), j);
      IndexOfUnique(Keys(d'), j, i);
    }
  }

  /** Appending an entry under a new key is writing that key. */
  lemma GetSnoc<K, V>(d: Dict<K, V>, e: (K, V), k: K)
    requires e.0 !in Keys(d)
    ensures Get(d + [e], k) == if k == e.0 then Some(e.1) else Get(d, k)
  {
    assert d + [e] == Put(d, e.0, e.1);
    PutGet(d, e.0, e.1, k);
  }

  /** Writing the same value under the same key twice is writing it once. */
  lemma PutIdempotent<K, V>(d: Dict<K, V>, k: K, v: V)
    ensures Put(Put(d, k, v), k, v) == Put(d, k, v)
  {
    var d' := Put(d, k, v);
    PutKeys(d, k, v);
    if k !in Keys(d) {
      IndexOfUnique(Keys(d'), k, |d|);
    }
  }

  lemma PutDistinct<K, V>(d: Dict<K, V>, k: K, v: V)
    requires Distinct(Keys(d))
    ensures Distinct(Keys(Put(d, k, v)))
  {
    PutKeys(d, k, v);
  }

  /** Overwriting a count changes the total by the difference. */
  lemma {:induction false} TotalAddTo<K>(d: Dict<K, nat>, k: K, n: nat)
    ensures Total(AddTo(d, k, n)) == Total(d) + n
  {
    if k in Keys(d) {
      var i := IndexOf(Keys(d), k);
      SumOfUpdate(d, i, (k, Count(d, k) + n), EntryCount);
    } else {
      SumOfAppend(d, [(k, n)], EntryCount);
      assert [(k, n)][..0] == [];
    }
  }

  lemma {:induction false} TallyTotal<K>(ks: seq<K>)
    ensures Total(Tally(ks)) == |ks|
    decreases |ks|
  {
    if ks != [] {
      TallyTotal(ks[..|ks| - 1]);
      TotalAddTo(Tally(ks[..|ks| - 1]), ks[|ks| - 1], 1);
    }
  }

  /** Each key of a tally counts exactly the occurrences of that key. */
  lemma {:induction false} TallyCount<K>(ks: seq<K>, k: K)
    ensures Count(Tally(ks), k) == multiset(ks)[k]
    decreases |ks|
  {
    if ks != [] {
      var n := |ks| - 1;
      var t, x := Tally(ks[..n]), ks[n];
      TallyCount(ks[..n], k);
      assert Tally(ks) == AddTo(t, x, 1);
      CountAddTo(t, x, 1, k);
      MultisetSnoc(ks[..n], x, k);
      assert ks == ks[..n] + [x];
    }
  }

  lemma MultisetSnoc<K>(s: seq<K>, x: K, k: K)
    ensures multiset(s + [x])[k] == multiset(s)[k] + if k == x then 1 else 0
  {
    assert multiset(s + [x]) == multiset(s) + multiset{x};
  }

  /** A tally's keys are exactly the distinct values counted. */
  lemma {:induction false} TallyKeys<K>(ks: seq<K>)
    ensures Distinct(Keys(Tally(ks)))
    ensures forall k :: k in Keys(Tally(ks)) <==> k in ks
    decreases |ks|
  {
    if ks != [] {
      var n := |ks| - 1;
      TallyKeys(ks[..n]);
      var t := Tally(ks[..n]);
      var c := Count(t, ks[n]) + 1;
      PutKeys(t, ks[n], c);
      PutDistinct(t, ks[n], c);
      assert Tally(ks) == Put(t, ks[n], c);
      forall k ensures k in ks <==> k in ks[..n] || k == ks[n] {
        assert ks == ks[..n] + [ks[n]];
      }
    }
  }

  /** Each group holds exactly the values paired with its key, in order. */
  lemma {:induction false} GroupByGet<K, V>(items: seq<(K, V)>, k: K)
    ensures GetOr(GroupBy(items), k, []) == Select(items, k)
    decreases |items|
  {
    if items != [] {
      var n := |items| - 1;
      GroupByGet(items[..n], k);
      var g := GroupBy(items[..n]);
      PutGet(g, items[n].0, GetOr(g, items[n].0, []) + [items[n].1], k);
    }
  }

  /** The groups' keys are the distinct keys of the items, and the group sizes add up to the number of items. */
  lemma {:induction false} GroupByKeys<K, V>(items: seq<(K, V)>)
    ensures Distinct(Keys(GroupBy(items)))
    ensures forall k :: k in Keys(GroupBy(items)) <==> k in Keys(items)
    ensures SumOf(GroupBy(items), GroupSize) == |items|
    decreases |items|
  {
    if items != [] {
      var n := |items| - 1;
      GroupByKeys(items[..n]);
      var g := GroupBy(items[..n]);
      var (k, v) := items[n];
      var grown := GetOr(g, k, []) + [v];
      PutKeys(g, k, grown);
      PutDistinct(g, k, grown);
      assert Keys(items) == Keys(items[..n]) + [k];
      if k in Keys(g) {
        var i := IndexOf(Keys(g), k);
        SumOfUpdate(g, i, (k, grown), GroupSize);
      } else {
        SumOfAppend(g, [(k, grown)], GroupSize);
        assert [(k, grown)][..0] == [];
      }
    }
  }

  /** In a dictionary without repeated keys an entry is determined by its key. */
  lemma SameKeySameEntry<K, V>(d: Dict<K, V>, e1: (K, V), e2: (K, V))
    requires Distinct(Keys(d)) && e1 in d && e2 in d && e1.0 == e2.0
    ensures e1 == e2
  {
    var i :| 0 <= i < |d| && d[i] == e1;
    var j :| 0 <= j < |d| && d[j] == e2;
    assert Keys(d)[i] == Keys(d)[j];
  }

  lemma EntriesDistinct<K, V>(d: Dict<K, V>)
    requires Distinct(Keys(d))
    ensures Distinct(d)
  {
    forall i, j | 0 <= i < j < |d| ensures d[i] != d[j] {
      assert Keys(d)[i] != Keys(d)[j];
    }
  }

  /** The value an entry holds is what looking up its key gives. */
  lemma GetEntry<K, V>(d: Dict<K, V>, e: (K, V))
    requires Distinct(Keys(d)) && e in d
    ensures Get(d, e.0) == Some(e.1)
  {
    var i :| 0 <= i < |d| && d[i] == e;
    IndexOfUnique(Keys(d), e.0, i);
  }
}
