/** src/views/dashboard-data.js: `generateDashboardHTML(data, selectedBase)`
    re-aggregates a loaded data file for display: it optionally restricts
    every month to one base point, recomputes the month totals from the
    base/target tables, collects and orders the transitions, and totals the
    current-value distribution for the pie chart. */
module DashboardData {
  import opened Common
  import opened Dicts
  import opened Numbers
  import opened Sorting
  import opened Config
  import opened Analyzer
  import opened Jira
  import opened Monthly

  /** `selectedBase`: `null`, or a number parsed from the query (NaN as `None`). */
  datatype Selection = AllBases | OnlyBase(base: Option<int>)

  /** `selectedBase === null || base === selectedBase` */
  predicate Included(sel: Selection, b: nat) {
    sel.AllBases? || sel.base == Some(b as int)
  }

  function IncludedBy(sel: Selection): nat -> bool {
    (b: nat) => Included(sel, b)
  }

  /** `m.byBaseAndTarget[base] || {}` */
  function TargetsOf(m: MonthStats, b: nat): Dict<real, nat> {
    GetOr(m.byBaseAndTarget, b, [])
  }

  /** `{ key, ...value }` for one entry of the data file. */
  type Month = (string, MonthStats)

  // ----- The transition set -----

  /** A `base→target` label, as the two numbers it is split back into. */
  type Transition = (nat, real)

  /** `set.add(x)`: a set keeps the order of first insertion. */
  function AddNew<T(==)>(s: seq<T>, x: T): seq<T> {
    if x in s then s else s + [x]
  }

  function AddTargets(acc: seq<Transition>, b: nat, targets: seq<real>): seq<Transition>
    decreases |targets|
  {
    if targets == [] then acc
    else
      var n := |targets| - 1;
      AddNew(AddTargets(acc, b, targets[..n]), (b, targets[n]))
  }

  function AddBases(acc: seq<Transition>, m: MonthStats, sel: Selection, bases: seq<nat>): seq<Transition>
    decreases |bases|
  {
    if bases == [] then acc
    else
      var n := |bases| - 1;
      var prev := AddBases(acc, m, sel, bases[..n]);
      if Included(sel, bases[n]) then AddTargets(prev, bases[n], Keys(TargetsOf(m, bases[n]))) else prev
  }

  /** `allTransitions` after the given months. */
  function AllTransitions(months: seq<Month>, sel: Selection, bases: seq<nat>): seq<Transition>
    decreases |months|
  {
    if months == [] then []
    else
      var n := |months| - 1;
      AddBases(AllTransitions(months[..n], sel, bases), months[n].1, sel, bases)
  }

  /** `aFrom - bFrom || aTo - bTo` */
  function TransitionKey(t: Transition): SortKey {
    SortKey(t.0 as real, t.1, 0.0)
  }

  function SortedTransitions(months: seq<Month>, sel: Selection, bases: seq<nat>): seq<Transition> {
    SortBy(AllTransitions(months, sel, bases), TransitionKey)
  }

  /** The nested `forEach` that fills `allTransitions`. */
  method CollectTransitions(months: seq<Month>, sel: Selection, bases: seq<nat>) returns (all: seq<Transition>)
    ensures all == AllTransitions(months, sel, bases)
  {
    all := [];
    var i := 0;
    while i < |months|
      invariant i <= |months|
      invariant all == AllTransitions(months[..i], sel, bases)
    {
      var m := months[i].1;
      assert months[..i + 1][..i] == months[..i];
      ghost var before := all;
      var j := 0;
      while j < |bases|
        invariant j <= |bases|
        invariant all == AddBases(before, m, sel, bases[..j])
      {
        var base := bases[j];
        assert bases[..j + 1][..j] == bases[..j];
        if Included(sel, base) {
          var targets := Keys(TargetsOf(m, base));
          ghost var start := all;
          var k := 0;
          while k < |targets|
            invariant k <= |targets|
            invariant all == AddTargets(start, base, targets[..k])
          {
            assert targets[..k + 1][..k] == targets[..k];
            if (base, targets[k]) !in all {
              all := all + [(base, targets[k])];
            }
            k := k + 1;
          }
          assert targets[..k] == targets;
        }
        j := j + 1;
      }
      assert bases[..j] == bases;
      i := i + 1;
    }
    assert months[..i] == months;
  }

  // ----- Filtering a month by base -----

  /** The recomputed `totalChanges`: the counts of the included bases. */
  function IncludedSum(m: MonthStats, sel: Selection, bases: seq<nat>): nat
    decreases |bases|
  {
    if bases == [] then 0
    else
      var n := |bases| - 1;
      IncludedSum(m, sel, bases[..n]) + if Included(sel, bases[n]) then Total(TargetsOf(m, bases[n])) else 0
  }

  /** `filteredByBaseAndTarget` */
  function FilteredTable(m: MonthStats, sel: Selection, bases: seq<nat>): Dict<nat, Dict<real, nat>>
    decreases |bases|
  {
    if bases == [] then []
    else
      var n := |bases| - 1;
      var prev := FilteredTable(m, sel, bases[..n]);
      if Included(sel, bases[n]) then Put(prev, bases[n], TargetsOf(m, bases[n])) else prev
  }

  /** `k => parseInt(k.from) === selectedBase`.  `from` is a number, so
      `parseInt` of its decimal text is its integer part. */
  function FromBase(base: Option<int>): Change -> bool {
    (c: Change) => base == Some(Trunc(c.from))
  }

  /** One entry of `filteredMonths`. */
  function Filtered(m: MonthStats, sel: Selection, bases: seq<nat>): MonthStats {
    m.(totalChanges := IncludedSum(m, sel, bases),
       byBaseAndTarget := FilteredTable(m, sel, bases),
       keys := if sel.AllBases? then m.keys else Filter(m.keys, FromBase(sel.base)))
  }

  function FilterEntry(sel: Selection, bases: seq<nat>): Month -> Month {
    (e: Month) => (e.0, Filtered(e.1, sel, bases))
  }

  function FilteredMonths(months: seq<Month>, sel: Selection, bases: seq<nat>): seq<Month> {
    Map(months, FilterEntry(sel, bases))
  }

  /** The `months.map` callback, with its `forEach` over bases and counts. */
  method FilterMonth(m: MonthStats, sel: Selection, bases: seq<nat>) returns (f: MonthStats)
    ensures f == Filtered(m, sel, bases)
  {
    var totalChanges := 0;
    var table: Dict<nat, Dict<real, nat>> := [];
    var j := 0;
    while j < |bases|
      invariant j <= |bases|
      invariant totalChanges == IncludedSum(m, sel, bases[..j])
      invariant table == FilteredTable(m, sel, bases[..j])
    {
      var base := bases[j];
      assert bases[..j + 1][..j] == bases[..j];
      if Included(sel, base) {
        var targets := TargetsOf(m, base);
        table := Put(table, base, targets);
        var k := 0;
        ghost var start := totalChanges;
        while k < |targets|
          invariant k <= |targets|
          invariant totalChanges == start + SumOf(targets[..k], EntryCount)
        {
          assert targets[..k + 1][..k] == targets[..k];
          totalChanges := totalChanges + targets[k].1;
          k := k + 1;
        }
        assert targets[..k] == targets;
      }
      j := j + 1;
    }
    assert bases[..j] == bases;
    var keys := if sel.AllBases? then m.keys else Filter(m.keys, FromBase(sel.base));
    f := m.(totalChanges := totalChanges, byBaseAndTarget := table, keys := keys);
  }

  /** `filteredMonths`: the `months.map` over every month. */
  method FilterMonths(months: seq<Month>, sel: Selection, bases: seq<nat>) returns (filtered: seq<Month>)
    ensures filtered == FilteredMonths(months, sel, bases)
  {
    filtered := [];
    var i := 0;
    while i < |months|
      invariant i <= |months|
      invariant |filtered| == i
      invariant forall k :: 0 <= k < i ==> filtered[k] == FilterEntry(sel, bases)(months[k])
    {
      var f := FilterMonth(months[i].1, sel, bases);
      filtered := filtered + [(months[i].0, f)];
      i := i + 1;
    }
  }

  // ----- Totals -----

  function MonthIssues(e: Month): nat {
    e.1.totalIssues
  }

  function MonthChanges(e: Month): nat {
    e.1.totalChanges
  }

  /** `m.byBaseAndTarget[from]?.[to] || 0` */
  function Cell(t: Transition): Month -> nat {
    (e: Month) => GetOr(GetOr(e.1.byBaseAndTarget, t.0, []), t.1, 0)
  }

  /** `grandTotalByTransition` */
  function TransitionTotals(filtered: seq<Month>, ts: seq<Transition>): Dict<Transition, nat>
    decreases |ts|
  {
    if ts == [] then []
    else
      var n := |ts| - 1;
      Put(TransitionTotals(filtered, ts[..n]), ts[n], SumOf(filtered, Cell(ts[n])))
  }

  // ----- The pie chart -----

  /** Adds the non-`'null'` buckets of one distribution to `totalEffortByPoint`. */
  function AddDistribution(acc: Dict<string, nat>, dist: Dict<string, nat>): Dict<string, nat>
    decreases |dist|
  {
    if dist == [] then acc
    else
      var n := |dist| - 1;
      var prev := AddDistribution(acc, dist[..n]);
      if dist[n].0 != "null" then AddTo(prev, dist[n].0, dist[n].1) else prev
  }

  /** `totalEffortByPoint` after the given months. */
  function EffortByPoint(months: seq<Month>): Dict<string, nat>
    decreases |months|
  {
    if months == [] then []
    else
      var n := |months| - 1;
      AddDistribution(EffortByPoint(months[..n]), months[n].1.distribution)
  }

  /** The `forEach` that fills `totalEffortByPoint`. */
  method TotalEffortByPoint(months: seq<Month>) returns (d: Dict<string, nat>)
    ensures d == EffortByPoint(months)
  {
    d := [];
    var i := 0;
    while i < |months|
      invariant i <= |months|
      invariant d == EffortByPoint(months[..i])
    {
      var dist := months[i].1.distribution;
      assert months[..i + 1][..i] == months[..i];
      ghost var start := d;
      var j := 0;
      while j < |dist|
        invariant j <= |dist|
        invariant d == AddDistribution(start, dist[..j])
      {
        assert dist[..j + 1][..j] == dist[..j];
        if dist[j].0 != "null" {
          d := AddTo(d, dist[j].0, dist[j].1);
        }
        j := j + 1;
      }
      assert dist[..j] == dist;
      i := i + 1;
    }
    assert months[..i] == months;
  }

  /** `(a, b) => parseFloat(a) - parseFloat(b)`. The 0 default is never reached
      for the labels in use, since `'null'` is dropped before sorting;
      JavaScript would compare an unparsable label as NaN. */
  function PieKey(bucket: string): SortKey {
    SortKey(ParseFloat(bucket).GetOr(0.0), 0.0, 0.0)
  }

  // ----- Properties of the base filter -----

  function TargetEntry(m: MonthStats): nat -> (nat, Dict<real, nat>) {
    (b: nat) => (b, TargetsOf(m, b))
  }

  function BaseCount(m: MonthStats): nat -> nat {
    (b: nat) => Total(TargetsOf(m, b))
  }

  /** The filtered table holds, in `BASE_POINTS` order, the tables of exactly
      the included bases. */
  lemma {:induction false} FilteredTableContents(m: MonthStats, sel: Selection, bases: seq<nat>)
    requires Distinct(bases)
    ensures FilteredTable(m, sel, bases) == Map(Filter(bases, IncludedBy(sel)), TargetEntry(m))
    decreases |bases|
  {
    if bases != [] {
      var n := |bases| - 1;
      var b := bases[n];
      assert Distinct(bases[..n]);
      FilteredTableContents(m, sel, bases[..n]);
      var prev := FilteredTable(m, sel, bases[..n]);
      var kept := Filter(bases[..n], IncludedBy(sel));
      if Included(sel, b) {
        assert b !in Keys(prev) by {
          assert Keys(prev) == kept;
          assert b !in bases[..n];
        }
        PutKeys(prev, b, TargetsOf(m, b));
        assert Filter(bases, IncludedBy(sel)) == kept + [b];
        assert Map(kept + [b], TargetEntry(m)) == Map(kept, TargetEntry(m)) + [TargetEntry(m)(b)];
      }
    }
  }

  /** The recomputed `totalChanges` sums the tables of the included bases. */
  lemma {:induction false} IncludedSumContents(m: MonthStats, sel: Selection, bases: seq<nat>)
    ensures IncludedSum(m, sel, bases) == SumOf(Filter(bases, IncludedBy(sel)), BaseCount(m))
    decreases |bases|
  {
    if bases != [] {
      var n := |bases| - 1;
      IncludedSumContents(m, sel, bases[..n]);
      var kept := Filter(bases[..n], IncludedBy(sel));
      if Included(sel, bases[n]) {
        assert Filter(bases, IncludedBy(sel)) == kept + [bases[n]];
        SumOfAppend(kept, [bases[n]], BaseCount(m));
        assert [bases[n]][..0] == [];
      }
    }
  }

  /** A selected base keeps at most that one base: none at all when the
      query did not parse or names no base point. */
  lemma {:induction false} OnlyBaseKept(base: Option<int>, bases: seq<nat>)
    requires Distinct(bases)
    ensures Filter(bases, IncludedBy(OnlyBase(base))) ==
      if base.Some? && base.value >= 0 && base.value as nat in bases then [base.value as nat] else []
    decreases |bases|
  {
    if bases != [] {
      var n := |bases| - 1;
      assert Distinct(bases[..n]);
      OnlyBaseKept(base, bases[..n]);
      assert bases == bases[..n] + [bases[n]];
      if Included(OnlyBase(base), bases[n]) {
        assert bases[n] !in bases[..n];
      }
    }
  }

  /** With no base selected, a month whose table has exactly the base points
      as keys keeps its table and key list, and its total becomes the sum of
      its table. */
  lemma AllBasesWholeTable(m: MonthStats, bases: seq<nat>)
    requires Distinct(bases) && Keys(m.byBaseAndTarget) == bases
    ensures Filtered(m, AllBases, bases) == m.(totalChanges := SumOf(m.byBaseAndTarget, BaseTotal))
  {
    var d := m.byBaseAndTarget;
    FilterAll(bases, IncludedBy(AllBases));
    FilteredTableContents(m, AllBases, bases);
    IncludedSumContents(m, AllBases, bases);
    forall i | 0 <= i < |bases| ensures TargetEntry(m)(bases[i]) == d[i] && BaseCount(m)(bases[i]) == BaseTotal(d[i]) {
      GetEntry(d, d[i]);
    }
    SumOfPointwise(bases, BaseCount(m), d, BaseTotal);
  }

  /** With no base selected a record produced by the analysis comes back
      unchanged: `filteredMonths` equals the stored months. */
  lemma AllBasesKeepsRecord(name: string, issues: seq<Issue>, cfg: ModeConfig)
    ensures var r := MonthRecord(name, issues, cfg, AnalysisBasePoints);
      Filtered(r, AllBases, AnalysisBasePoints) == r
  {
    var r := MonthRecord(name, issues, cfg, AnalysisBasePoints);
    assert Distinct(AnalysisBasePoints) by {
      SharedBasePoints("dev");
    }
    RecordShape(name, issues, cfg);
    ByBaseAndTargetKeys(r.keys, AnalysisBasePoints);
    AllBasesWholeTable(r, AnalysisBasePoints);
  }

  /** With base `b` selected a month keeps only `b`'s table, its total is the
      size of that table, and only the keys whose starting value truncates to
      `b` remain. */
  lemma OnlyBaseMonth(m: MonthStats, base: Option<int>, bases: seq<nat>)
    requires Distinct(bases)
    ensures var f := Filtered(m, OnlyBase(base), bases);
      var kept := base.Some? && base.value >= 0 && base.value as nat in bases;
      f.byBaseAndTarget == (if kept then [(base.value as nat, TargetsOf(m, base.value as nat))] else [])
      && f.totalChanges == (if kept then Total(TargetsOf(m, base.value as nat)) else 0)
      && (forall c :: c in f.keys ==> c in m.keys && Some(Trunc(c.from)) == base)
      && f.name == m.name && f.totalIssues == m.totalIssues && f.distribution == m.distribution
  {
    OnlyBaseKept(base, bases);
    FilteredTableContents(m, OnlyBase(base), bases);
    IncludedSumContents(m, OnlyBase(base), bases);
    var kept := Filter(bases, IncludedBy(OnlyBase(base)));
    if |kept| == 1 {
      assert kept[..0] == [];
    }
  }

  /** `filteredMonths` lists the months in order under the same keys; only
      the change totals, the tables and the key lists differ. */
  lemma FilteredMonthsShape(months: seq<Month>, sel: Selection, bases: seq<nat>)
    ensures var f := FilteredMonths(months, sel, bases);
      |f| == |months| &&
      forall i :: 0 <= i < |months| ==>
        f[i].0 == months[i].0 && f[i].1.name == months[i].1.name
        && f[i].1.totalIssues == months[i].1.totalIssues && f[i].1.distribution == months[i].1.distribution
        && f[i].1.totalChanges == IncludedSum(months[i].1, sel, bases)
  {
  }

  function IncludedChanges(sel: Selection, bases: seq<nat>): Month -> nat {
    (e: Month) => IncludedSum(e.1, sel, bases)
  }

  /** The grand totals: every month's issues, and the changes of the
      included bases only. */
  lemma GrandTotals(months: seq<Month>, sel: Selection, bases: seq<nat>)
    ensures SumOf(FilteredMonths(months, sel, bases), MonthIssues) == SumOf(months, MonthIssues)
    ensures SumOf(FilteredMonths(months, sel, bases), MonthChanges) == SumOf(months, IncludedChanges(sel, bases))
  {
    var f := FilteredMonths(months, sel, bases);
    SumOfPointwise(f, MonthIssues, months, MonthIssues);
    SumOfPointwise(f, MonthChanges, months, IncludedChanges(sel, bases));
  }

  // ----- Properties of the transition set -----

  lemma {:induction false} AddTargetsContents(acc: seq<Transition>, b: nat, targets: seq<real>)
    requires Distinct(acc)
    ensures Distinct(AddTargets(acc, b, targets))
    ensures forall t :: t in AddTargets(acc, b, targets) <==> t in acc || (t.0 == b && t.1 in targets)
    decreases |targets|
  {
    if targets != [] {
      var n := |targets| - 1;
      AddTargetsContents(acc, b, targets[..n]);
      assert targets == targets[..n] + [targets[n]];
    }
  }

  lemma {:induction false} AddBasesContents(acc: seq<Transition>, m: MonthStats, sel: Selection, bases: seq<nat>)
    requires Distinct(acc)
    ensures Distinct(AddBases(acc, m, sel, bases))
    ensures forall t :: t in AddBases(acc, m, sel, bases) <==>
      t in acc || (Included(sel, t.0) && t.0 in bases && t.1 in Keys(TargetsOf(m, t.0)))
    decreases |bases|
  {
    if bases != [] {
      var n := |bases| - 1;
      var prev := AddBases(acc, m, sel, bases[..n]);
      AddBasesContents(acc, m, sel, bases[..n]);
      assert bases == bases[..n] + [bases[n]];
      if Included(sel, bases[n]) {
        AddTargetsContents(prev, bases[n], Keys(TargetsOf(m, bases[n])));
      }
    }
  }

  /** A transition is drawn when some month has a count for it under an
      included base point. */
  predicate Occurs(months: seq<Month>, sel: Selection, bases: seq<nat>, t: Transition) {
    Included(sel, t.0) && t.0 in bases
    && exists i :: 0 <= i < |months| && t.1 in Keys(TargetsOf(months[i].1, t.0))
  }

  /** `allTransitions` holds each occurring transition once, and nothing else. */
  lemma {:induction false} AllTransitionsContents(months: seq<Month>, sel: Selection, bases: seq<nat>)
    ensures Distinct(AllTransitions(months, sel, bases))
    ensures forall t :: t in AllTransitions(months, sel, bases) <==> Occurs(months, sel, bases, t)
    decreases |months|
  {
    if months != [] {
      var n := |months| - 1;
      var prev := AllTransitions(months[..n], sel, bases);
      AllTransitionsContents(months[..n], sel, bases);
      AddBasesContents(prev, months[n].1, sel, bases);
      forall t ensures t in AllTransitions(months, sel, bases) <==> Occurs(months, sel, bases, t) {
        if Occurs(months, sel, bases, t) {
          var i :| 0 <= i < |months| && t.1 in Keys(TargetsOf(months[i].1, t.0));
          if i < n {
            assert months[..n][i] == months[i];
            assert Occurs(months[..n], sel, bases, t);
          }
        }
        if Occurs(months[..n], sel, bases, t) {
          var i :| 0 <= i < n && t.1 in Keys(TargetsOf(months[..n][i].1, t.0));
          assert months[..n][i] == months[i];
        }
      }
    }
  }

  /** `sortedTransitions` lists every occurring transition once, in strictly
      ascending order of base and then of target. */
  lemma SortedTransitionsOrder(months: seq<Month>, sel: Selection, bases: seq<nat>)
    ensures var s := SortedTransitions(months, sel, bases);
      (forall t :: t in s <==> Occurs(months, sel, bases, t))
      && forall i, j :: 0 <= i < j < |s| ==> s[i].0 < s[j].0 || (s[i].0 == s[j].0 && s[i].1 < s[j].1)
  {
    var all := AllTransitions(months, sel, bases);
    var s := SortBy(all, TransitionKey);
    AllTransitionsContents(months, sel, bases);
    SortBySorted(all, TransitionKey);
    SortByDistinct(all, TransitionKey);
    forall i, j | 0 <= i < j < |s| ensures s[i].0 < s[j].0 || (s[i].0 == s[j].0 && s[i].1 < s[j].1) {
      assert KeyLe(TransitionKey(s[i]), TransitionKey(s[j]));
      assert s[i] != s[j];
    }
  }

  /** `grandTotalByTransition` has one entry per sorted transition, holding
      the sum of that transition's cells over the filtered months. */
  lemma {:induction false} TransitionTotalsContents(filtered: seq<Month>, ts: seq<Transition>)
    requires Distinct(ts)
    ensures Keys(TransitionTotals(filtered, ts)) == ts
    ensures forall t :: t in ts ==> Get(TransitionTotals(filtered, ts), t) == Some(SumOf(filtered, Cell(t)))
    decreases |ts|
  {
    if ts != [] {
      var n := |ts| - 1;
      var prev := TransitionTotals(filtered, ts[..n]);
      var v := SumOf(filtered, Cell(ts[n]));
      assert Distinct(ts[..n]);
      TransitionTotalsContents(filtered, ts[..n]);
      assert ts[n] !in Keys(prev);
      assert TransitionTotals(filtered, ts) == prev + [(ts[n], v)];
      assert ts == ts[..n] + [ts[n]];
      forall t | t in ts ensures Get(TransitionTotals(filtered, ts), t) == Some(SumOf(filtered, Cell(t))) {
        GetSnoc(prev, (ts[n], v), t);
      }
    }
  }

  // ----- Properties of the pie chart -----

  /** Every distribution of the data file is a JSON object: no key twice. */
  predicate WellFormed(months: seq<Month>) {
    forall i :: 0 <= i < |months| ==> Distinct(Keys(months[i].1.distribution))
  }

  lemma AddToCount<K>(d: Dict<K, nat>, k: K, n: nat, j: K)
    ensures Count(AddTo(d, k, n), j) == Count(d, j) + if j == k then n else 0
  {
    PutGet(d, k, Count(d, k) + n, j);
  }

  /** One bucket of a distribution added to `totalEffortByPoint`. */
  lemma AddBucket(prev: Dict<string, nat>, e: (string, nat))
    requires Distinct(Keys(prev))
    ensures var next := if e.0 != "null" then AddTo(prev, e.0, e.1) else prev;
      Distinct(Keys(next))
      && (forall k :: k in Keys(next) <==> k in Keys(prev) || (k != "null" && k == e.0))
      && forall k :: Count(next, k) == Count(prev, k) + if k != "null" && k == e.0 then e.1 else 0
  {
    if e.0 != "null" {
      PutKeys(prev, e.0, Count(prev, e.0) + e.1);
      PutDistinct(prev, e.0, Count(prev, e.0) + e.1);
      forall k ensures Count(AddTo(prev, e.0, e.1), k) == Count(prev, k) + if k == e.0 then e.1 else 0 {
        AddToCount(prev, e.0, e.1, k);
      }
    }
  }

  lemma {:induction false} AddDistributionContents(acc: Dict<string, nat>, dist: Dict<string, nat>)
    requires Distinct(Keys(acc)) && Distinct(Keys(dist))
    ensures Distinct(Keys(AddDistribution(acc, dist)))
    ensures forall k :: k in Keys(AddDistribution(acc, dist)) <==> k in Keys(acc) || (k != "null" && k in Keys(dist))
    ensures forall k :: Count(AddDistribution(acc, dist), k) == Count(acc, k) + if k != "null" then Count(dist, k) else 0
    decreases |dist|
  {
    if dist != [] {
      var n := |dist| - 1;
      var e := dist[n];
      var prev := AddDistribution(acc, dist[..n]);
      assert Keys(dist) == Keys(dist[..n]) + [e.0];
      assert Distinct(Keys(dist[..n]));
      assert e.0 !in Keys(dist[..n]);
      AddDistributionContents(acc, dist[..n]);
      AddBucket(prev, e);
      assert dist == dist[..n] + [e];
      forall k ensures Count(dist, k) == Count(dist[..n], k) + if k == e.0 then e.1 else 0 {
        GetSnoc(dist[..n], e, k);
      }
    }
  }

  function DistCount(bucket: string): Month -> nat {
    (e: Month) => Count(e.1.distribution, bucket)
  }

  /** `totalEffortByPoint`: one entry per bucket other than `'null'` that some
      month has, holding that bucket's count summed over the months. */
  lemma {:induction false} EffortByPointContents(months: seq<Month>)
    requires WellFormed(months)
    ensures Distinct(Keys(EffortByPoint(months)))
    ensures forall k :: k in Keys(EffortByPoint(months)) <==>
      k != "null" && exists i :: 0 <= i < |months| && k in Keys(months[i].1.distribution)
    ensures forall k :: k != "null" ==> Count(EffortByPoint(months), k) == SumOf(months, DistCount(k))
    decreases |months|
  {
    if months != [] {
      var n := |months| - 1;
      var prev := EffortByPoint(months[..n]);
      assert WellFormed(months[..n]) by {
        forall i | 0 <= i < n ensures Distinct(Keys(months[..n][i].1.distribution)) {
          assert months[..n][i] == months[i];
        }
      }
      EffortByPointContents(months[..n]);
      AddDistributionContents(prev, months[n].1.distribution);
      forall k ensures k in Keys(EffortByPoint(months)) <==>
        k != "null" && exists i :: 0 <= i < |months| && k in Keys(months[i].1.distribution)
      {
        if exists i :: 0 <= i < |months| && k in Keys(months[i].1.distribution) {
          var i :| 0 <= i < |months| && k in Keys(months[i].1.distribution);
          if i < n {
            assert months[..n][i] == months[i];
          }
        }
        if exists i :: 0 <= i < n && k in Keys(months[..n][i].1.distribution) {
          var i :| 0 <= i < n && k in Keys(months[..n][i].1.distribution);
          assert months[..n][i] == months[i];
        }
      }
    }
  }

  /** `pieLabels` are the buckets other than `'null'`, each once, ordered by
      their numeric value; `pieData` gives each its count over all months. */
  lemma PieChart(months: seq<Month>)
    requires WellFormed(months)
    ensures var effort := EffortByPoint(months);
      var labels := SortBy(Keys(effort), PieKey);
      var data := Map(labels, CountIn(effort));
      Distinct(labels) && SortedBy(labels, PieKey) && "null" !in labels
      && (forall k :: k in labels <==> k != "null" && exists i :: 0 <= i < |months| && k in Keys(months[i].1.distribution))
      && |data| == |labels|
      && forall i :: 0 <= i < |labels| ==> data[i] == SumOf(months, DistCount(labels[i]))
  {
    var effort := EffortByPoint(months);
    EffortByPointContents(months);
    SortBySorted(Keys(effort), PieKey);
    SortByDistinct(Keys(effort), PieKey);
  }

  /** The pie is the same whatever base is selected: filtering keeps every
      distribution. */
  lemma {:induction false} PieIgnoresSelection(months: seq<Month>, sel: Selection, bases: seq<nat>)
    ensures EffortByPoint(FilteredMonths(months, sel, bases)) == EffortByPoint(months)
    decreases |months|
  {
    if months != [] {
      var n := |months| - 1;
      var f := FilteredMonths(months, sel, bases);
      assert f[..n] == FilteredMonths(months[..n], sel, bases);
      PieIgnoresSelection(months[..n], sel, bases);
    }
  }

  // ----- The whole aggregation -----

  /** The data `generateDashboardHTML` returns, without colours and averages. */
  datatype Dashboard = Dashboard(
    filteredMonths: seq<Month>,
    chartLabels: seq<string>,
    sortedTransitions: seq<Transition>,
    transitionData: seq<seq<nat>>,
    totalChangesData: seq<nat>,
    totalIssuesData: seq<nat>,
    grandTotalIssues: nat,
    grandTotalChanges: nat,
    grandTotalByTransition: Dict<Transition, nat>,
    pieLabels: seq<string>,
    pieData: seq<nat>)

  function MonthName(e: Month): string {
    e.1.name
  }

  function CellsOf(filtered: seq<Month>): Transition -> seq<nat> {
    (t: Transition) => Map(filtered, Cell(t))
  }

  /** The data `generateDashboardHTML(data, selectedBase)` computes, with
      `BASE_POINTS` given. */
  function Aggregate(months: seq<Month>, sel: Selection, bases: seq<nat>): Dashboard {
    var filtered := FilteredMonths(months, sel, bases);
    var sorted := SortedTransitions(months, sel, bases);
    var effort := EffortByPoint(filtered);
    var labels := SortBy(Keys(effort), PieKey);
    Dashboard(filtered, Map(months, MonthName), sorted, Map(sorted, CellsOf(filtered)),
      Map(filtered, MonthChanges), Map(filtered, MonthIssues),
      SumOf(filtered, MonthIssues), SumOf(filtered, MonthChanges),
      TransitionTotals(filtered, sorted), labels, Map(labels, CountIn(effort)))
  }

  /** `generateDashboardHTML(data, selectedBase)` takes `BASE_POINTS` from
      `config.analysis.basePoints`; the dashboard route runs the same code with
      the mode's base points. */
  method GenerateDashboardData(months: seq<Month>, sel: Selection, bases: seq<nat>) returns (r: Dashboard)
    ensures r == Aggregate(months, sel, bases)
  {
    var all := CollectTransitions(months, sel, bases);
    var sorted := SortBy(all, TransitionKey);
    var filtered := FilterMonths(months, sel, bases);
    var effort := TotalEffortByPoint(filtered);
    var labels := SortBy(Keys(effort), PieKey);
    r := Dashboard(filtered, Map(months, MonthName), sorted, Map(sorted, CellsOf(filtered)),
      Map(filtered, MonthChanges), Map(filtered, MonthIssues),
      SumOf(filtered, MonthIssues), SumOf(filtered, MonthChanges),
      TransitionTotals(filtered, sorted), labels, Map(labels, CountIn(effort)));
  }
}
