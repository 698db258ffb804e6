/** `array.sort(compare)` with a comparator that compares one, two or three
    numeric sort keys in turn.  JavaScript's sort is stable; the model is an
    insertion sort that places each element after every element whose keys
    are not greater, which keeps ties in their original order. */
module Sorting {
  import opened Common
  import opened Dicts

  /** Sort keys, compared lexicographically. */
  datatype SortKey = SortKey(first: real, second: real, third: real)

  predicate KeyLe(x: SortKey, y: SortKey) {
    x.first < y.first
    || (x.first == y.first && (x.second < y.second || (x.second == y.second && x.third <= y.third)))
  }

  predicate SortedBy<T>(s: seq<T>, key: T -> SortKey) {
    forall i, j :: 0 <= i < j < |s| ==> KeyLe(key(s[i]), key(s[j]))
  }

  /** Puts `x` after the leading elements whose keys are not greater than its own. */
  function Insert<T>(x: T, s: seq<T>, key: T -> SortKey): (r: seq<T>)
    ensures multiset(r) == multiset(s) + multiset{x}
    decreases |s|
  {
    if s == [] then [x]
    else if KeyLe(key(s[0]), key(x)) then
      assert s == [s[0]] + s[1..];
      [s[0]] + Insert(x, s[1..], key)
    else [x] + s
  }

  /** `s.slice().sort(compare)` */
  function SortBy<T>(s: seq<T>, key: T -> SortKey): (r: seq<T>)
    ensures multiset(r) == multiset(s)
    decreases |s|
  {
    if s == [] then []
    else
      assert s == s[..|s| - 1] + [s[|s| - 1]];
      Insert(s[|s| - 1], SortBy(s[..|s| - 1], key), key)
  }

  lemma {:induction false} InsertSorted<T>(x: T, s: seq<T>, key: T -> SortKey)
    requires SortedBy(s, key)
    ensures SortedBy(Insert(x, s, key), key)
    decreases |s|
  {
    if s != [] && KeyLe(key(s[0]), key(x)) {
      InsertSorted(x, s[1..], key);
      var r := Insert(x, s[1..], key);
      assert forall y :: y in r ==> y == x || y in s[1..] by {
        forall y | y in r ensures y == x || y in s[1..] {
          assert y in multiset(r);
        }
      }
      forall j | 0 <= j < |r| ensures KeyLe(key(s[0]), key(r[j])) {
        assert r[j] in r;
        if r[j] != x {
          var k :| 0 <= k < |s[1..]| && s[1..][k] == r[j];
          assert s[k + 1] == r[j];
        }
      }
      var full := [s[0]] + r;
      forall i, j | 0 <= i < j < |full| ensures KeyLe(key(full[i]), key(full[j])) {
        if i > 0 {
          assert full[i] == r[i - 1] && full[j] == r[j - 1];
        } else {
          assert full[j] == r[j - 1];
        }
      }
    }
  }

  lemma {:induction false} InsertDistinct<T>(x: T, s: seq<T>, key: T -> SortKey)
    requires Distinct(s) && x !in s
    ensures Distinct(Insert(x, s, key))
    decreases |s|
  {
    if s != [] && KeyLe(key(s[0]), key(x)) {
      InsertDistinct(x, s[1..], key);
      var r := Insert(x, s[1..], key);
      assert s[0] !in r by {
        assert multiset(r)[s[0]] == multiset(s[1..])[s[0]] + multiset{x}[s[0]];
        assert s == [s[0]] + s[1..];
      }
    }
  }

  /** The sorted copy is in key order and is a permutation of the input. */
  lemma {:induction false} SortBySorted<T>(s: seq<T>, key: T -> SortKey)
    ensures SortedBy(SortBy(s, key), key)
    ensures |SortBy(s, key)| == |s|
    ensures forall x :: x in SortBy(s, key) <==> x in s
    decreases |s|
  {
    var r := SortBy(s, key);
    assert |multiset(r)| == |multiset(s)|;
    forall x ensures x in r <==> x in s {
      assert x in r <==> x in multiset(r);
    }
    if s != [] {
      SortBySorted(s[..|s| - 1], key);
      InsertSorted(s[|s| - 1], SortBy(s[..|s| - 1], key), key);
    }
  }

  /** Sorting keeps distinct elements distinct. */
  lemma {:induction false} SortByDistinct<T>(s: seq<T>, key: T -> SortKey)
    requires Distinct(s)
    ensures Distinct(SortBy(s, key))
    decreases |s|
  {
    if s != [] {
      var n := |s| - 1;
      SortByDistinct(s[..n], key);
      var p := SortBy(s[..n], key);
      assert s[n] !in p by {
        SortBySorted(s[..n], key);
      }
      InsertDistinct(s[n], p, key);
    }
  }
  lemma {:induction false} InsertSum<T>(x: T, s: seq<T>, key: T -> SortKey, f: T -> nat)
    ensures SumOf(Insert(x, s, key), f) == SumOf(s, f) + f(x)
    decreases |s|
  {
    if s == [] {
      assert [x][..0] == [];
    } else if KeyLe(key(s[0]), key(x)) {
      InsertSum(x, s[1..], key, f);
      SumOfAppend([s[0]], Insert(x, s[1..], key), f);
      SumOfAppend([s[0]], s[1..], f);
      assert [s[0]] + s[1..] == s;
      assert [s[0]][..0] == [];
    } else {
      SumOfAppend([x], s, f);
      assert [x][..0] == [];
    }
  }

  /** Sorting does not change a sum over the elements. */
  lemma {:induction false} SortBySum<T>(s: seq<T>, key: T -> SortKey, f: T -> nat)
    ensures SumOf(SortBy(s, key), f) == SumOf(s, f)
    decreases |s|
  {
    if s != [] {
      var n := |s| - 1;
      SortBySum(s[..n], key, f);
      InsertSum(s[n], SortBy(s[..n], key), key, f);
    }
  }

  /** Grouping and then sorting the groups: the groups come in key order, each
      holds the values of its key in their original order, there is a group
      exactly when there is an item, and the group sizes add up to the number
      of items. */
  lemma SortedGroups<K, V>(items: seq<(K, V)>, key: ((K, seq<V>)) -> SortKey)
    ensures SortedBy(SortBy(GroupBy(items), key), key)
    ensures forall e :: e in SortBy(GroupBy(items), key) ==> e.1 == Select(items, e.0)
    ensures SumOf(SortBy(GroupBy(items), key), GroupSize) == |items|
    ensures |SortBy(GroupBy(items), key)| > 0 <==> |items| > 0
  {
    var g := GroupBy(items);
    var sorted := SortBy(g, key);
    SortBySorted(g, key);
    SortBySum(g, key, GroupSize);
    GroupByKeys(items);
    SortedGroupsContent(items, key);
    if |items| > 0 {
      assert items[0].0 in Keys(items);
      assert |Keys(g)| > 0;
    }
  }

  /** Groups rendered one by one by `f` still hold every item once. */
  lemma MappedGroupsCount<K, V, G>(items: seq<(K, V)>, key: ((K, seq<V>)) -> SortKey, f: ((K, seq<V>)) -> G, count: G -> nat)
    requires forall e :: count(f(e)) == |e.1|
    ensures SumOf(Map(SortBy(GroupBy(items), key), f), count) == |items|
    ensures |Map(SortBy(GroupBy(items), key), f)| > 0 <==> |items| > 0
  {
    var sorted := SortBy(GroupBy(items), key);
    SortedGroups(items, key);
    SumOfPointwise(Map(sorted, f), count, sorted, GroupSize);
  }

  lemma GroupEntry<K, V>(items: seq<(K, V)>, e: (K, seq<V>))
    requires e in GroupBy(items)
    ensures e.1 == Select(items, e.0)
  {
    GroupByKeys(items);
    GetEntry(GroupBy(items), e);
    GroupByGet(items, e.0);
  }

  lemma SortedGroupsContent<K, V>(items: seq<(K, V)>, key: ((K, seq<V>)) -> SortKey)
    ensures forall e :: e in SortBy(GroupBy(items), key) ==> e.1 == Select(items, e.0)
  {
    var g := GroupBy(items);
    forall e | e in SortBy(g, key) ensures e.1 == Select(items, e.0) {
      SortByMember(g, key, e);
      GroupEntry(items, e);
    }
  }

  lemma SortByMember<T>(s: seq<T>, key: T -> SortKey, x: T)
    requires x in SortBy(s, key)
    ensures x in s
  {
    assert x in multiset(SortBy(s, key));
  }

  /** Sorting a dictionary keeps its keys, each once. */
  lemma SortByKeys<K, V>(d: Dict<K, V>, key: ((K, V)) -> SortKey)
    requires Distinct(Keys(d))
    ensures Distinct(Keys(SortBy(d, key)))
    ensures forall k :: k in Keys(SortBy(d, key)) <==> k in Keys(d)
  {
    var r := SortBy(d, key);
    EntriesDistinct(d);
    SortByDistinct(d, key);
    SortBySorted(d, key);
    forall i, j | 0 <= i < j < |r| ensures Keys(r)[i] != Keys(r)[j] {
      if r[i].0 == r[j].0 {
        SortByMember(d, key, r[i]);
        SortByMember(d, key, r[j]);
        SameKeySameEntry(d, r[i], r[j]);
      }
    }
    forall k ensures k in Keys(r) <==> k in Keys(d) {
      if k in Keys(r) {
        var i :| 0 <= i < |r| && r[i].0 == k;
        SortByMember(d, key, r[i]);
        var j :| 0 <= j < |d| && d[j] == r[i];
      }
      if k in Keys(d) {
        var j :| 0 <= j < |d| && d[j].0 == k;
        assert d[j] in d;
        var i :| 0 <= i < |r| && r[i] == d[j];
      }
    }
  }

  /** The sorted groups hold each key of the items once. */
  lemma SortedGroupKeys<K, V>(items: seq<(K, V)>, key: ((K, seq<V>)) -> SortKey)
    ensures Distinct(Keys(SortBy(GroupBy(items), key)))
    ensures forall k :: k in Keys(SortBy(GroupBy(items), key)) <==> k in Keys(items)
  {
    GroupByKeys(items);
    SortByKeys(GroupBy(items), key);
  }

  /** The elements whose sort key is `k`. */
  function KeyIs<T>(key: T -> SortKey, k: SortKey): T -> bool {
    x => key(x) == k
  }

  /** In a sorted sequence whose first key is above `key(x)`, no element has `x`'s key. */
  lemma NoneWithLowerKey<T>(x: T, s: seq<T>, key: T -> SortKey)
    requires SortedBy(s, key) && s != [] && !KeyLe(key(s[0]), key(x))
    ensures Filter(s, KeyIs(key, key(x))) == []
  {
    forall j | 0 <= j < |s| ensures key(s[j]) != key(x) {
      if j > 0 {
        assert KeyLe(key(s[0]), key(s[j]));
      }
    }
    var f := Filter(s, KeyIs(key, key(x)));
    if f != [] {
      assert false;
    }
  }

  lemma FilterSingle<T>(x: T, p: T -> bool)
    ensures Filter([x], p) == if p(x) then [x] else []
  {
    assert [x][..0] == [];
  }

  lemma SortedTail<T>(s: seq<T>, key: T -> SortKey)
    requires SortedBy(s, key) && s != []
    ensures SortedBy(s[1..], key)
  {
    var rest := s[1..];
    forall i, j | 0 <= i < j < |rest| ensures KeyLe(key(rest[i]), key(rest[j])) {
      assert rest[i] == s[i + 1] && rest[j] == s[j + 1];
    }
  }

  lemma {:induction false} InsertStable<T>(x: T, s: seq<T>, key: T -> SortKey, k: SortKey)
    requires SortedBy(s, key)
    ensures Filter(Insert(x, s, key), KeyIs(key, k)) == Filter(s, KeyIs(key, k)) + Filter([x], KeyIs(key, k))
    decreases |s|
  {
    if s == [] {
      assert Insert(x, s, key) == [x];
    } else if KeyLe(key(s[0]), key(x)) {
      SortedTail(s, key);
      InsertStable(x, s[1..], key, k);
      assert Insert(x, s, key) == [s[0]] + Insert(x, s[1..], key);
      FilterConsShift(s[0], Insert(x, s[1..], key), s[1..], Filter([x], KeyIs(key, k)), KeyIs(key, k));
      assert [s[0]] + s[1..] == s;
    } else {
      InsertBeforeAll(x, s, key, k);
    }
  }

  lemma FilterConsShift<T>(h: T, a: seq<T>, b: seq<T>, tail: seq<T>, p: T -> bool)
    requires Filter(a, p) == Filter(b, p) + tail
    ensures Filter([h] + a, p) == Filter([h] + b, p) + tail
  {
    var fh := Filter([h], p);
    calc {
      Filter([h] + a, p);
      == { FilterAppend([h], a, p); }
      fh + (Filter(b, p) + tail);
      == (fh + Filter(b, p)) + tail;
      == { FilterAppend([h], b, p); }
      Filter([h] + b, p) + tail;
    }
  }

  lemma InsertBeforeAll<T>(x: T, s: seq<T>, key: T -> SortKey, k: SortKey)
    requires SortedBy(s, key) && s != [] && !KeyLe(key(s[0]), key(x))
    ensures Filter(Insert(x, s, key), KeyIs(key, k)) == Filter(s, KeyIs(key, k)) + Filter([x], KeyIs(key, k))
  {
    var p := KeyIs(key, k);
    FilterSingle(x, p);
    assert Insert(x, s, key) == [x] + s;
    FilterAppend([x], s, p);
    if key(x) == k {
      NoneWithLowerKey(x, s, key);
    }
  }

  /** The sort is stable: the elements with any one sort key come out in the
      order they went in. */
  lemma {:induction false} SortByStable<T>(s: seq<T>, key: T -> SortKey, k: SortKey)
    ensures Filter(SortBy(s, key), KeyIs(key, k)) == Filter(s, KeyIs(key, k))
    decreases |s|
  {
    if s != [] {
      var n := |s| - 1;
      SortByStable(s[..n], key, k);
      SortBySorted(s[..n], key);
      InsertStable(s[n], SortBy(s[..n], key), key, k);
      FilterAppend(s[..n], [s[n]], KeyIs(key, k));
      assert s[..n] + [s[n]] == s;
    }
  }
}
