/** The changelog walk every change detector shares: for each issue whose key
    starts with the project prefix, for each of its histories, for each change
    item, in that order, a rule decides whether the item yields an event.  The
    detectors differ only in the rule. */
module ChangeScan {
  import opened Common
  import opened Jira

  /** Whether the item changed in `history` of the issue `key` yields an event. */
  type Rule<E> = (string, History, ChangeItem) -> Option<E>

  /** The events of one history's items, in item order. */
  function ItemEvents<E>(key: string, h: History, items: seq<ChangeItem>, rule: Rule<E>): seq<E>
    decreases |items|
  {
    if items == [] then []
    else
      var n := |items| - 1;
      ItemEvents(key, h, items[..n], rule) + match rule(key, h, items[n]) {
        case Some(e) => [e]
        case None => []
      }
  }

  /** The events of an issue's histories, in history order. */
  function HistoryEvents<E>(key: string, hs: seq<History>, rule: Rule<E>): seq<E>
    decreases |hs|
  {
    if hs == [] then []
    else
      var n := |hs| - 1;
      HistoryEvents(key, hs[..n], rule) + ItemEvents(key, hs[n], hs[n].items, rule)
  }

  /** `key?.startsWith(prefix)`: a missing key never matches. */
  predicate HasPrefix(issue: Issue, prefix: string) {
    issue.key.Some? && StartsWith(issue.key.value, prefix)
  }

  /** The events of one issue: none unless its key has the prefix. */
  function IssueEvents<E>(issue: Issue, prefix: string, rule: Rule<E>): seq<E> {
    if HasPrefix(issue, prefix) then HistoryEvents(issue.key.value, issue.histories, rule) else []
  }

  /** The events of all issues, in issue order. */
  function Scan<E>(issues: seq<Issue>, prefix: string, rule: Rule<E>): seq<E>
    decreases |issues|
  {
    if issues == [] then []
    else
      var n := |issues| - 1;
      Scan(issues[..n], prefix, rule) + IssueEvents(issues[n], prefix, rule)
  }

  /** The nested `forEach` walk that pushes each event onto one accumulator. */
  method ScanChanges<E>(issues: seq<Issue>, prefix: string, rule: Rule<E>) returns (acc: seq<E>)
    ensures acc == Scan(issues, prefix, rule)
  {
    acc := [];
    var i := 0;
    while i < |issues|
      invariant i <= |issues|
      invariant acc == Scan(issues[..i], prefix, rule)
    {
      var issue := issues[i];
      assert issues[..i + 1][..i] == issues[..i];
      if HasPrefix(issue, prefix) {
        acc := PushHistories(acc, issue.key.value, issue.histories, rule);
      }
      i := i + 1;
    }
    assert issues[..i] == issues;
  }

  /** `changelog?.histories?.forEach(history => ...)` for one issue. */
  method PushHistories<E>(acc0: seq<E>, key: string, hs: seq<History>, rule: Rule<E>) returns (acc: seq<E>)
    ensures acc == acc0 + HistoryEvents(key, hs, rule)
  {
    acc := acc0;
    var j := 0;
    while j < |hs|
      invariant j <= |hs|
      invariant acc == acc0 + HistoryEvents(key, hs[..j], rule)
    {
      assert hs[..j + 1][..j] == hs[..j];
      acc := PushItems(acc, key, hs[j], rule);
      j := j + 1;
    }
    assert hs[..j] == hs;
  }

  /** `history.items?.forEach(item => ...)` for one history. */
  method PushItems<E>(acc0: seq<E>, key: string, h: History, rule: Rule<E>) returns (acc: seq<E>)
    ensures acc == acc0 + ItemEvents(key, h, h.items, rule)
  {
    acc := acc0;
    var m := 0;
    while m < |h.items|
      invariant m <= |h.items|
      invariant acc == acc0 + ItemEvents(key, h, h.items[..m], rule)
    {
      assert h.items[..m + 1][..m] == h.items[..m];
      var e := rule(key, h, h.items[m]);
      if e.Some? {
        acc := acc + [e.value];
      }
      m := m + 1;
    }
    assert h.items[..m] == h.items;
  }

  // ----- Properties -----

  lemma {:induction false} ScanAppend<E>(a: seq<Issue>, b: seq<Issue>, prefix: string, rule: Rule<E>)
    ensures Scan(a + b, prefix, rule) == Scan(a, prefix, rule) + Scan(b, prefix, rule)
    decreases |b|
  {
    if b == [] {
      assert a + b == a;
    } else {
      var n := |b| - 1;
      assert (a + b)[..|a + b| - 1] == a + b[..n];
      ScanAppend(a, b[..n], prefix, rule);
    }
  }

  /** An issue whose key lacks the prefix adds nothing, wherever it stands. */
  lemma ForeignIssueIgnored<E>(a: seq<Issue>, issue: Issue, b: seq<Issue>, prefix: string, rule: Rule<E>)
    requires !HasPrefix(issue, prefix)
    ensures Scan(a + [issue] + b, prefix, rule) == Scan(a + b, prefix, rule)
  {
    assert Scan([issue], prefix, rule) == [] by {
      assert [issue][..0] == [];
    }
    ScanAppend(a, [issue], prefix, rule);
    assert Scan(a + [issue], prefix, rule) == Scan(a, prefix, rule);
    ScanAppend(a + [issue], b, prefix, rule);
    ScanAppend(a, b, prefix, rule);
  }

  /** Dropping every issue without the prefix changes nothing. */
  lemma {:induction false} ScanOnlyPrefixed<E>(issues: seq<Issue>, prefix: string, rule: Rule<E>)
    ensures Scan(Filter(issues, (i: Issue) => HasPrefix(i, prefix)), prefix, rule) == Scan(issues, prefix, rule)
    decreases |issues|
  {
    if issues != [] {
      var n := |issues| - 1;
      var p := (i: Issue) => HasPrefix(i, prefix);
      ScanOnlyPrefixed(issues[..n], prefix, rule);
      if p(issues[n]) {
        ScanAppend(Filter(issues[..n], p), [issues[n]], prefix, rule);
        assert [issues[n]][..0] == [];
      }
    }
  }

  /** One issue with one history holding one item yields exactly that item's
      event, if its key has the prefix and the rule accepts the item. */
  lemma SingleItem<E>(key: string, h: History, item: ChangeItem, fields: map<string, string>, prefix: string, rule: Rule<E>)
    requires h.items == [item]
    ensures Scan([Issue(Some(key), [h], fields)], prefix, rule)
      == if StartsWith(key, prefix) && rule(key, h, item).Some? then [rule(key, h, item).value] else []
  {
    var issue := Issue(Some(key), [h], fields);
    assert [issue][..0] == [];
    assert [h][..0] == [];
    assert h.items[..0] == [];
    var out := if rule(key, h, item).Some? then [rule(key, h, item).value] else [];
    assert ItemEvents(key, h, h.items, rule) == out;
    assert HistoryEvents(key, [h], rule) == out;
    assert Scan([issue], prefix, rule) == IssueEvents(issue, prefix, rule);
  }

  lemma {:induction false} ItemEventsSound<E>(key: string, h: History, items: seq<ChangeItem>, rule: Rule<E>, ok: E -> bool)
    requires forall item :: rule(key, h, item).Some? ==> ok(rule(key, h, item).value)
    ensures forall e :: e in ItemEvents(key, h, items, rule) ==> ok(e)
    decreases |items|
  {
    if items != [] {
      ItemEventsSound(key, h, items[..|items| - 1], rule, ok);
    }
  }

  lemma {:induction false} HistoryEventsSound<E>(key: string, hs: seq<History>, rule: Rule<E>, ok: E -> bool)
    requires forall h, item :: rule(key, h, item).Some? ==> ok(rule(key, h, item).value)
    ensures forall e :: e in HistoryEvents(key, hs, rule) ==> ok(e)
    decreases |hs|
  {
    if hs != [] {
      var n := |hs| - 1;
      HistoryEventsSound(key, hs[..n], rule, ok);
      ItemEventsSound(key, hs[n], hs[n].items, rule, ok);
    }
  }

  /** Every event comes from an accepted item of an issue whose key has the
      prefix: a property the rule guarantees for such items holds of them all. */
  lemma {:induction false} ScanSound<E>(issues: seq<Issue>, prefix: string, rule: Rule<E>, ok: E -> bool)
    requires forall key, h, item :: StartsWith(key, prefix) && rule(key, h, item).Some? ==> ok(rule(key, h, item).value)
    ensures forall e :: e in Scan(issues, prefix, rule) ==> ok(e)
    decreases |issues|
  {
    if issues != [] {
      var n := |issues| - 1;
      ScanSound(issues[..n], prefix, rule, ok);
      if HasPrefix(issues[n], prefix) {
        HistoryEventsSound(issues[n].key.value, issues[n].histories, rule, ok);
      }
    }
  }
  lemma {:induction false} ItemEventsMap<A, B>(key: string, h: History, items: seq<ChangeItem>, r1: Rule<A>, r2: Rule<B>, f: A -> B)
    requires forall item :: r2(key, h, item) == MapOption(r1(key, h, item), f)
    ensures Map(ItemEvents(key, h, items, r1), f) == ItemEvents(key, h, items, r2)
    decreases |items|
  {
    if items != [] {
      var n := |items| - 1;
      ItemEventsMap(key, h, items[..n], r1, r2, f);
      var last := match r1(key, h, items[n]) { case Some(e) => [e] case None => [] };
      MapAppend(ItemEvents(key, h, items[..n], r1), last, f);
    }
  }

  lemma {:induction false} HistoryEventsMap<A, B>(key: string, hs: seq<History>, r1: Rule<A>, r2: Rule<B>, f: A -> B)
    requires forall h, item :: r2(key, h, item) == MapOption(r1(key, h, item), f)
    ensures Map(HistoryEvents(key, hs, r1), f) == HistoryEvents(key, hs, r2)
    decreases |hs|
  {
    if hs != [] {
      var n := |hs| - 1;
      HistoryEventsMap(key, hs[..n], r1, r2, f);
      ItemEventsMap(key, hs[n], hs[n].items, r1, r2, f);
      MapAppend(HistoryEvents(key, hs[..n], r1), ItemEvents(key, hs[n], hs[n].items, r1), f);
    }
  }

  /** Two rules that accept the same items, the second yielding `f` of the
      first's event, give scans that `f` maps one onto the other. */
  lemma {:induction false} ScanMap<A, B>(issues: seq<Issue>, prefix: string, r1: Rule<A>, r2: Rule<B>, f: A -> B)
    requires forall key, h, item :: r2(key, h, item) == MapOption(r1(key, h, item), f)
    ensures Map(Scan(issues, prefix, r1), f) == Scan(issues, prefix, r2)
    decreases |issues|
  {
    if issues != [] {
      var n := |issues| - 1;
      ScanMap(issues[..n], prefix, r1, r2, f);
      if HasPrefix(issues[n], prefix) {
        HistoryEventsMap(issues[n].key.value, issues[n].histories, r1, r2, f);
      }
      MapAppend(Scan(issues[..n], prefix, r1), IssueEvents(issues[n], prefix, r1), f);
    }
  }

  lemma {:induction false} ItemEventsFilter<E>(key: string, h: History, items: seq<ChangeItem>, r1: Rule<E>, r2: Rule<E>, p: E -> bool)
    requires forall item :: r1(key, h, item) == FilterOption(r2(key, h, item), p)
    ensures ItemEvents(key, h, items, r1) == Filter(ItemEvents(key, h, items, r2), p)
    decreases |items|
  {
    if items != [] {
      var n := |items| - 1;
      ItemEventsFilter(key, h, items[..n], r1, r2, p);
      var last := match r2(key, h, items[n]) { case Some(e) => [e] case None => [] };
      FilterAppend(ItemEvents(key, h, items[..n], r2), last, p);
      assert last != [] ==> last[..0] == [];
    }
  }

  lemma {:induction false} HistoryEventsFilter<E>(key: string, hs: seq<History>, r1: Rule<E>, r2: Rule<E>, p: E -> bool)
    requires forall h, item :: r1(key, h, item) == FilterOption(r2(key, h, item), p)
    ensures HistoryEvents(key, hs, r1) == Filter(HistoryEvents(key, hs, r2), p)
    decreases |hs|
  {
    if hs != [] {
      var n := |hs| - 1;
      HistoryEventsFilter(key, hs[..n], r1, r2, p);
      ItemEventsFilter(key, hs[n], hs[n].items, r1, r2, p);
      FilterAppend(HistoryEvents(key, hs[..n], r2), ItemEvents(key, hs[n], hs[n].items, r2), p);
    }
  }

  /** A rule that accepts what a second rule accepts, when the event also
      passes `p`, finds the second rule's events that pass `p`, in order. */
  lemma {:induction false} ScanFilter<E>(issues: seq<Issue>, prefix: string, r1: Rule<E>, r2: Rule<E>, p: E -> bool)
    requires forall key, h, item :: r1(key, h, item) == FilterOption(r2(key, h, item), p)
    ensures Scan(issues, prefix, r1) == Filter(Scan(issues, prefix, r2), p)
    decreases |issues|
  {
    if issues != [] {
      var n := |issues| - 1;
      ScanFilter(issues[..n], prefix, r1, r2, p);
      if HasPrefix(issues[n], prefix) {
        HistoryEventsFilter(issues[n].key.value, issues[n].histories, r1, r2, p);
      }
      FilterAppend(Scan(issues[..n], prefix, r2), IssueEvents(issues[n], prefix, r2), p);
    }
  }
}
