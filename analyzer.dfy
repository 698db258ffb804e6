/** The change detector and the tabulators of src/services/analyzer.js. */
module Analyzer {
  import opened Common
  import opened Dicts
  import opened Numbers
  import opened Config
  import opened Jira
  import opened ChangeScan

  /** `{key, from, to}`: the watched field of issue `key` rose from `from` to `to`. */
  datatype Change = Change(key: string, from: real, to: real)

  /** `parseFloat` of a property that may be null or undefined (both NaN). */
  function ParseOpt(s: Option<string>): Option<real> {
    if s.None? then None else ParseFloat(s.value)
  }

  /** `basePoints.includes(x)`: NaN is never included. */
  predicate IsBase(x: Option<real>, basePoints: seq<nat>) {
    x.Some? && exists b :: b in basePoints && x.value == b as real
  }

  /** The test of one change item: the watched field (both its id and its
      label), a base `from` and a strictly greater `to`. */
  function ItemChange(fieldId: string, fieldName: string, basePoints: seq<nat>, key: string, item: ChangeItem): (r: Option<Change>)
    ensures r.Some? ==> item.fieldId == Some(fieldId) && item.field == Some(fieldName)
    ensures r.Some? ==> r.value.key == key && r.value.to > r.value.from
    ensures r.Some? ==> ParseOpt(item.fromString) == Some(r.value.from) && ParseOpt(item.toString) == Some(r.value.to)
    ensures r.Some? ==> exists b :: b in basePoints && r.value.from == b as real
  {
    if item.fieldId == Some(fieldId) && item.field == Some(fieldName) then
      var fromValue := ParseOpt(item.fromString);
      var toValue := ParseOpt(item.toString);
      if IsBase(fromValue, basePoints) && toValue.Some? && toValue.value > fromValue.value then
        Some(Change(key, fromValue.value, toValue.value))
      else None
    else None
  }

  function EffortRule(cfg: ModeConfig, basePoints: seq<nat>): Rule<Change> {
    (key: string, h: History, item: ChangeItem) => ItemChange(cfg.customFieldId, cfg.fieldName, basePoints, key, item)
  }

  /** The project prefix every examined key must start with. */
  const KeyPrefix: string := Project + "-"

  /** What `analyzeEffortChanges` returns for a registered mode. */
  function EffortChanges(issues: seq<Issue>, basePoints: seq<nat>, cfg: ModeConfig): seq<Change> {
    Scan(issues, KeyPrefix, EffortRule(cfg, basePoints))
  }

  /** `analyzeEffortChanges(issues, basePoints, mode)` */
  method AnalyzeEffortChanges(issues: seq<Issue>, basePoints: seq<nat>, mode: string) returns (r: Result<seq<Change>>)
    ensures LookupMode(mode).Err? ==> r == Err(InvalidModeMessage(mode))
    ensures LookupMode(mode).Ok? ==> r == Ok(EffortChanges(issues, basePoints, LookupMode(mode).value))
  {
    var cfg := LookupMode(mode);
    if cfg.Err? {
      return Err(cfg.message);
    }
    var acc := ScanChanges(issues, KeyPrefix, EffortRule(cfg.value, basePoints));
    r := Ok(acc);
  }

  /** `analyzeStoryPointChanges(issues, basePoints)`: the `dev` mode. */
  method AnalyzeStoryPointChanges(issues: seq<Issue>, basePoints: seq<nat>) returns (r: Result<seq<Change>>)
    ensures r == Ok(EffortChanges(issues, basePoints, Dev))
  {
    ModeFields();
    r := AnalyzeEffortChanges(issues, basePoints, "dev");
  }

  /** The distribution bucket of an issue: the field's text, or `'null'`. */
  function Bucket(fieldId: string, issue: Issue): string {
    if fieldId in issue.fields then issue.fields[fieldId] else "null"
  }

  function Buckets(issues: seq<Issue>, fieldId: string): seq<string> {
    Map(issues, (i: Issue) => Bucket(fieldId, i))
  }

  /** What `analyzeEffortDistribution` returns for a registered mode. */
  function Distribution(issues: seq<Issue>, fieldId: string): Dict<string, nat> {
    Tally(Buckets(issues, fieldId))
  }

  /** `analyzeEffortDistribution(issues, mode)` */
  method AnalyzeEffortDistribution(issues: seq<Issue>, mode: string) returns (r: Result<Dict<string, nat>>)
    ensures LookupMode(mode).Err? ==> r == Err(InvalidModeMessage(mode))
    ensures LookupMode(mode).Ok? ==> r == Ok(Distribution(issues, LookupMode(mode).value.customFieldId))
  {
    var cfg := LookupMode(mode);
    if cfg.Err? {
      return Err(cfg.message);
    }
    var fieldId := cfg.value.customFieldId;
    var distribution: Dict<string, nat> := [];
    var i := 0;
    while i < |issues|
      invariant i <= |issues|
      invariant distribution == Distribution(issues[..i], fieldId)
    {
      BucketsStep(issues, fieldId, i);
      distribution := AddTo(distribution, Bucket(fieldId, issues[i]), 1);
      i := i + 1;
    }
    assert issues[..i] == issues;
    r := Ok(distribution);
  }

  /** `analyzeStoryPointDistribution(issues)`: the `dev` mode. */
  method AnalyzeStoryPointDistribution(issues: seq<Issue>) returns (r: Result<Dict<string, nat>>)
    ensures r == Ok(Distribution(issues, Dev.customFieldId))
  {
    ModeFields();
    r := AnalyzeEffortDistribution(issues, "dev");
  }

  lemma BucketsStep(issues: seq<Issue>, fieldId: string, i: nat)
    requires i < |issues|
    ensures Buckets(issues[..i + 1], fieldId) == Buckets(issues[..i], fieldId) + [Bucket(fieldId, issues[i])]
  {
  }

  /** `c => c.from === base` */
  function FromIs(base: nat): Change -> bool {
    (c: Change) => c.from == base as real
  }

  function Target(c: Change): real {
    c.to
  }

  /** The `target -> count` table of one base. */
  function TargetCounts(changes: seq<Change>, base: nat): Dict<real, nat> {
    Tally(Map(Filter(changes, FromIs(base)), Target))
  }

  /** What `groupChangesByBaseAndTarget` returns: each base in turn set to its table. */
  function ByBaseAndTarget(changes: seq<Change>, basePoints: seq<nat>): Dict<nat, Dict<real, nat>>
    decreases |basePoints|
  {
    if basePoints == [] then []
    else
      var n := |basePoints| - 1;
      Put(ByBaseAndTarget(changes, basePoints[..n]), basePoints[n], TargetCounts(changes, basePoints[n]))
  }

  /** `groupChangesByBaseAndTarget(changes, basePoints)` */
  method GroupChangesByBaseAndTarget(changes: seq<Change>, basePoints: seq<nat>) returns (acc: Dict<nat, Dict<real, nat>>)
    ensures acc == ByBaseAndTarget(changes, basePoints)
  {
    acc := [];
    var i := 0;
    while i < |basePoints|
      invariant i <= |basePoints|
      invariant acc == ByBaseAndTarget(changes, basePoints[..i])
    {
      var base := basePoints[i];
      var inner := CountTargets(changes, base);
      assert basePoints[..i + 1][..i] == basePoints[..i];
      acc := Put(acc, base, inner);
      i := i + 1;
    }
    assert basePoints[..i] == basePoints;
  }

  /** The inner `changes.forEach` of one base: `acc[base][c.to]` counted up
      for each change from that base. */
  method CountTargets(changes: seq<Change>, base: nat) returns (inner: Dict<real, nat>)
    ensures inner == TargetCounts(changes, base)
  {
    inner := [];
    var j := 0;
    while j < |changes|
      invariant j <= |changes|
      invariant inner == TargetCounts(changes[..j], base)
    {
      TargetCountsStep(changes, base, j);
      if changes[j].from == base as real {
        inner := AddTo(inner, changes[j].to, 1);
      }
      j := j + 1;
    }
    assert changes[..j] == changes;
  }

  lemma MapSnoc<T, U>(s: seq<T>, x: T, f: T -> U)
    ensures Map(s + [x], f) == Map(s, f) + [f(x)]
  {
  }

  lemma TallySnoc<K>(ks: seq<K>, k: K)
    ensures Tally(ks + [k]) == AddTo(Tally(ks), k, 1)
  {
    assert (ks + [k])[..|ks|] == ks;
  }

  lemma TargetCountsStep(changes: seq<Change>, base: nat, j: nat)
    requires j < |changes|
    ensures TargetCounts(changes[..j + 1], base)
      == if changes[j].from == base as real then AddTo(TargetCounts(changes[..j], base), changes[j].to, 1)
         else TargetCounts(changes[..j], base)
  {
    assert changes[..j + 1][..j] == changes[..j];
    var f := Filter(changes[..j], FromIs(base));
    if changes[j].from == base as real {
      MapSnoc(f, changes[j], Target);
      TallySnoc(Map(f, Target), changes[j].to);
    }
  }

  /** `totalEffort` and `totalTasks` of `calculateAverageEffort`: the weighted
      sum of the numeric buckets (NaN once any bucket other than `'null'` is not
      a number) and the number of tasks they hold. */
  function EffortSum(dist: Dict<string, nat>): Option<real>
    decreases |dist|
  {
    if dist == [] then Some(0.0)
    else
      var n := |dist| - 1;
      AddEffort(EffortSum(dist[..n]), dist[n])
  }

  /** `totalEffort += parseFloat(points) * count` for a bucket other than `'null'`. */
  function AddEffort(sum: Option<real>, entry: (string, nat)): Option<real> {
    if entry.0 == "null" then sum
    else
      var p := ParseFloat(entry.0);
      if sum.Some? && p.Some? then Some(sum.value + Weight(p.value, entry.1)) else None
  }

  /** `totalEffort / totalTasks` */
  function Quotient(sum: real, count: nat): real
    requires count > 0
  {
    sum / count as real
  }

  /** `parseFloat(points) * count` */
  function Weight(points: real, count: nat): real {
    points * count as real
  }

  function TaskCount(dist: Dict<string, nat>): nat
    decreases |dist|
  {
    if dist == [] then 0
    else
      var n := |dist| - 1;
      TaskCount(dist[..n]) + if dist[n].0 == "null" then 0 else dist[n].1
  }

  /** The average, or NaN (`None`); 0 when no task has a numeric bucket. */
  function Average(dist: Dict<string, nat>): Option<real> {
    if TaskCount(dist) == 0 then Some(0.0)
    else match EffortSum(dist) {
      case Some(s) => Some(Quotient(s, TaskCount(dist)))
      case None => None
    }
  }

  /** `calculateAverageEffort(monthData)`, given `monthData.distribution`
      (`None` when it is missing). Real arithmetic stands in for floating point. */
  method CalculateAverageEffort(distribution: Option<Dict<string, nat>>) returns (avg: Option<real>)
    ensures distribution.None? ==> avg == Some(0.0)
    ensures distribution.Some? ==> avg == Average(distribution.value)
  {
    if distribution.None? {
      return Some(0.0);
    }
    var dist := distribution.value;
    var totalEffort, totalTasks := SumEfforts(dist);
    if totalTasks > 0 {
      avg := if totalEffort.Some? then Some(Quotient(totalEffort.value, totalTasks)) else None;
    } else {
      avg := Some(0.0);
    }
  }

  /** The loop of `calculateAverageEffort` over `Object.entries(dist)`. */
  method SumEfforts(dist: Dict<string, nat>) returns (totalEffort: Option<real>, totalTasks: nat)
    ensures totalEffort == EffortSum(dist) && totalTasks == TaskCount(dist)
  {
    totalEffort := Some(0.0);
    totalTasks := 0;
    var i := 0;
    while i < |dist|
      invariant i <= |dist|
      invariant totalEffort == EffortSum(dist[..i]) && totalTasks == TaskCount(dist[..i])
    {
      AverageStep(dist, i);
      var entry := dist[i];
      if entry.0 != "null" {
        var p := ParseFloat(entry.0);
        AddNumericEffort(totalEffort, entry, p);
        totalEffort := if totalEffort.Some? && p.Some? then Some(totalEffort.value + Weight(p.value, entry.1)) else None;
        totalTasks := totalTasks + entry.1;
      }
      i := i + 1;
    }
    assert dist[..i] == dist;
  }

  lemma AddNumericEffort(sum: Option<real>, entry: (string, nat), p: Option<real>)
    requires entry.0 != "null" && p == ParseFloat(entry.0)
    ensures AddEffort(sum, entry) == if sum.Some? && p.Some? then Some(sum.value + Weight(p.value, entry.1)) else None
  {
  }

  lemma AverageStep(dist: Dict<string, nat>, i: nat)
    requires i < |dist|
    ensures EffortSum(dist[..i + 1]) == AddEffort(EffortSum(dist[..i]), dist[i])
    ensures TaskCount(dist[..i + 1]) == TaskCount(dist[..i]) + if dist[i].0 == "null" then 0 else dist[i].1
  {
    assert dist[..i + 1][..i] == dist[..i];
  }

  // ----- Properties of the detector -----

  /** An event is emitted for an item exactly when the item is on the watched
      field, its `from` parses to a base point and its `to` parses to a larger
      number. */
  lemma ItemChangeIff(cfg: ModeConfig, basePoints: seq<nat>, key: string, item: ChangeItem)
    ensures ItemChange(cfg.customFieldId, cfg.fieldName, basePoints, key, item).Some?
      <==> item.fieldId == Some(cfg.customFieldId) && item.field == Some(cfg.fieldName)
           && IsBase(ParseOpt(item.fromString), basePoints)
           && ParseOpt(item.toString).Some? && ParseOpt(item.toString).value > ParseOpt(item.fromString).value
  {
  }

  /** NaN on either side never qualifies. */
  lemma NaNNeverQualifies(cfg: ModeConfig, basePoints: seq<nat>, key: string, item: ChangeItem)
    requires ParseOpt(item.fromString).None? || ParseOpt(item.toString).None?
    ensures ItemChange(cfg.customFieldId, cfg.fieldName, basePoints, key, item).None?
  {
  }

  /** There is no decrease branch: a value that falls or stays never qualifies. */
  lemma NoDecrease(cfg: ModeConfig, basePoints: seq<nat>, key: string, item: ChangeItem, f: real, t: real)
    requires ParseOpt(item.fromString) == Some(f) && ParseOpt(item.toString) == Some(t) && t <= f
    ensures ItemChange(cfg.customFieldId, cfg.fieldName, basePoints, key, item).None?
  {
  }

  /** Every event has a base `from`, a greater `to`, and a key with the project prefix. */
  lemma EffortChangesSound(issues: seq<Issue>, basePoints: seq<nat>, cfg: ModeConfig)
    ensures forall c :: c in EffortChanges(issues, basePoints, cfg) ==>
      IsBase(Some(c.from), basePoints) && c.to > c.from && StartsWith(c.key, KeyPrefix)
  {
    var rule := EffortRule(cfg, basePoints);
    var ok := (c: Change) => IsBase(Some(c.from), basePoints) && c.to > c.from && StartsWith(c.key, KeyPrefix);
    forall key, h, item | StartsWith(key, KeyPrefix) && rule(key, h, item).Some?
      ensures ok(rule(key, h, item).value)
    {
      var r := ItemChange(cfg.customFieldId, cfg.fieldName, basePoints, key, item);
      assert rule(key, h, item) == r;
    }
    ScanSound(issues, KeyPrefix, rule, ok);
  }

  /** The `dev` detector and the one the aliases call are the same function of the issues. */
  lemma AliasIsDev(issues: seq<Issue>, basePoints: seq<nat>)
    ensures LookupMode("dev") == Ok(Dev)
    ensures EffortChanges(issues, basePoints, LookupMode("dev").value) == EffortChanges(issues, Dev.basePoints, Dev)
      <== basePoints == AnalysisBasePoints
  {
    ModeFields();
  }

  // ----- Properties of the distribution -----

  /** The bucket counts add up to the number of issues. */
  lemma DistributionTotal(issues: seq<Issue>, fieldId: string)
    ensures Total(Distribution(issues, fieldId)) == |issues|
  {
    TallyTotal(Buckets(issues, fieldId));
  }

  /** Each bucket counts exactly the issues whose value renders as its key,
      and `'null'` gathers those without a value. */
  lemma {:induction false} DistributionCount(issues: seq<Issue>, fieldId: string, k: string)
    ensures Count(Distribution(issues, fieldId), k) == |Filter(issues, (i: Issue) => Bucket(fieldId, i) == k)|
    decreases |issues|
  {
    TallyCount(Buckets(issues, fieldId), k);
    BucketMultiset(issues, fieldId, k);
  }

  lemma {:induction false} BucketMultiset(issues: seq<Issue>, fieldId: string, k: string)
    ensures multiset(Buckets(issues, fieldId))[k] == |Filter(issues, (i: Issue) => Bucket(fieldId, i) == k)|
    decreases |issues|
  {
    if issues != [] {
      var n := |issues| - 1;
      BucketMultiset(issues[..n], fieldId, k);
      BucketsStep(issues, fieldId, n);
      assert issues[..n + 1] == issues;
    }
  }

  /** The buckets are the distinct values met, each listed once. */
  lemma DistributionKeys(issues: seq<Issue>, fieldId: string)
    ensures Distinct(Keys(Distribution(issues, fieldId)))
    ensures forall k :: k in Keys(Distribution(issues, fieldId)) <==> exists i :: i in issues && Bucket(fieldId, i) == k
  {
    var bs := Buckets(issues, fieldId);
    TallyKeys(bs);
    forall k ensures k in bs <==> exists i :: i in issues && Bucket(fieldId, i) == k {
      if k in bs {
        var j :| 0 <= j < |bs| && bs[j] == k;
        assert issues[j] in issues;
      }
    }
  }

  // ----- Properties of the base/target table -----

  /** Every base is a key, mapped to the table of its own changes (possibly empty). */
  lemma {:induction false} ByBaseAndTargetGet(changes: seq<Change>, basePoints: seq<nat>, b: nat)
    ensures b in Keys(ByBaseAndTarget(changes, basePoints)) <==> b in basePoints
    ensures b in basePoints ==> Get(ByBaseAndTarget(changes, basePoints), b) == Some(TargetCounts(changes, b))
    decreases |basePoints|
  {
    if basePoints != [] {
      var n := |basePoints| - 1;
      var g := ByBaseAndTarget(changes, basePoints[..n]);
      ByBaseAndTargetGet(changes, basePoints[..n], b);
      PutKeys(g, basePoints[n], TargetCounts(changes, basePoints[n]));
      PutGet(g, basePoints[n], TargetCounts(changes, basePoints[n]), b);
      assert basePoints == basePoints[..n] + [basePoints[n]];
    }
  }

  /** The base/target table of distinct base points has them as its keys, in order. */
  lemma {:induction false} ByBaseAndTargetKeys(changes: seq<Change>, basePoints: seq<nat>)
    requires Distinct(basePoints)
    ensures Keys(ByBaseAndTarget(changes, basePoints)) == basePoints
    decreases |basePoints|
  {
    if basePoints != [] {
      var n := |basePoints| - 1;
      assert Distinct(basePoints[..n]);
      ByBaseAndTargetKeys(changes, basePoints[..n]);
      ByBaseAndTargetGet(changes, basePoints[..n], basePoints[n]);
      PutKeys(ByBaseAndTarget(changes, basePoints[..n]), basePoints[n], TargetCounts(changes, basePoints[n]));
      assert basePoints[..n] + [basePoints[n]] == basePoints;
    }
  }

  /** A base's counts add up to the number of its changes. */
  lemma TargetCountsTotal(changes: seq<Change>, b: nat)
    ensures Total(TargetCounts(changes, b)) == |Filter(changes, FromIs(b))|
  {
    TallyTotal(Map(Filter(changes, FromIs(b)), Target));
  }

  function BaseTotal(e: (nat, Dict<real, nat>)): nat {
    Total(e.1)
  }

  /** `c => basePoints.includes(c.from)` */
  function FromAnyOf(basePoints: seq<nat>): Change -> bool {
    (c: Change) => IsBase(Some(c.from), basePoints)
  }

  /** With distinct bases, all the counts add up to the number of changes whose
      `from` is a base. */
  lemma {:induction false} ByBaseAndTargetTotal(changes: seq<Change>, basePoints: seq<nat>)
    requires Distinct(basePoints)
    ensures SumOf(ByBaseAndTarget(changes, basePoints), BaseTotal) == |Filter(changes, FromAnyOf(basePoints))|
    decreases |basePoints|
  {
    if basePoints == [] {
      FilterNone(changes, FromAnyOf(basePoints));
    } else {
      var n := |basePoints| - 1;
      var b := basePoints[n];
      var g := ByBaseAndTarget(changes, basePoints[..n]);
      ByBaseAndTargetTotal(changes, basePoints[..n]);
      ByBaseAndTargetGet(changes, basePoints[..n], b);
      SumOfAppend(g, [(b, TargetCounts(changes, b))], BaseTotal);
      assert [(b, TargetCounts(changes, b))][..0] == [];
      TargetCountsTotal(changes, b);
      BasesSplit(basePoints);
      FilterSplit(changes, FromAnyOf(basePoints), FromAnyOf(basePoints[..n]), FromIs(b));
    }
  }

  /** `base => changes.filter(c => c.from === base).length` */
  function ChangesFrom(changes: seq<Change>): nat -> nat {
    (b: nat) => |Filter(changes, FromIs(b))|
  }

  /** With distinct bases, the per-base change counts add up to the number of
      changes whose `from` is a base. */
  lemma {:induction false} ChangesFromTotal(changes: seq<Change>, basePoints: seq<nat>)
    requires Distinct(basePoints)
    ensures SumOf(basePoints, ChangesFrom(changes)) == |Filter(changes, FromAnyOf(basePoints))|
    decreases |basePoints|
  {
    if basePoints == [] {
      FilterNone(changes, FromAnyOf(basePoints));
    } else {
      var n := |basePoints| - 1;
      assert Distinct(basePoints[..n]);
      ChangesFromTotal(changes, basePoints[..n]);
      BasesSplit(basePoints);
      FilterSplit(changes, FromAnyOf(basePoints), FromAnyOf(basePoints[..n]), FromIs(basePoints[n]));
    }
  }

  /** Every event's `from` is a base, so with distinct bases the table counts every change. */
  lemma ByBaseAndTargetCountsAll(issues: seq<Issue>, basePoints: seq<nat>, cfg: ModeConfig)
    requires Distinct(basePoints)
    ensures var changes := EffortChanges(issues, basePoints, cfg);
      SumOf(ByBaseAndTarget(changes, basePoints), BaseTotal) == |changes|
  {
    var changes := EffortChanges(issues, basePoints, cfg);
    EffortChangesSound(issues, basePoints, cfg);
    ByBaseAndTargetTotal(changes, basePoints);
    FilterAll(changes, FromAnyOf(basePoints));
  }

  lemma BasesSplit(basePoints: seq<nat>)
    requires Distinct(basePoints) && basePoints != []
    ensures var n := |basePoints| - 1;
      forall c :: FromAnyOf(basePoints)(c) == (FromAnyOf(basePoints[..n])(c) || FromIs(basePoints[n])(c))
    ensures var n := |basePoints| - 1;
      forall c :: !(FromAnyOf(basePoints[..n])(c) && FromIs(basePoints[n])(c))
  {
    var n := |basePoints| - 1;
    assert basePoints == basePoints[..n] + [basePoints[n]];
    forall c ensures FromAnyOf(basePoints)(c) == (FromAnyOf(basePoints[..n])(c) || FromIs(basePoints[n])(c)) {
      if FromAnyOf(basePoints)(c) {
        var b :| b in basePoints && c.from == b as real;
        if b != basePoints[n] {
          assert b in basePoints[..n];
        }
      }
      if FromIs(basePoints[n])(c) {
        assert basePoints[n] in basePoints;
      }
      if FromAnyOf(basePoints[..n])(c) {
        var b :| b in basePoints[..n] && c.from == b as real;
        assert b in basePoints;
      }
    }
  }

  lemma {:induction false} FilterNone<T>(s: seq<T>, p: T -> bool)
    requires forall x :: x in s ==> !p(x)
    ensures Filter(s, p) == []
    decreases |s|
  {
    if s != [] {
      var n := |s| - 1;
      assert forall x :: x in s[..n] ==> x in s;
      FilterNone(s[..n], p);
    }
  }

  /** Filtering by `p` where `p` is `q` or `r` for disjoint `q` and `r` counts both. */
  lemma {:induction false} FilterSplit<T>(s: seq<T>, p: T -> bool, q: T -> bool, r: T -> bool)
    requires forall x :: p(x) == (q(x) || r(x))
    requires forall x :: !(q(x) && r(x))
    ensures |Filter(s, p)| == |Filter(s, q)| + |Filter(s, r)|
    decreases |s|
  {
    if s != [] {
      FilterSplit(s[..|s| - 1], p, q, r);
    }
  }

  // ----- Properties of the average -----

  /** Only `'null'` buckets (or none at all): the average is 0. */
  lemma {:induction false} OnlyNullAverage(dist: Dict<string, nat>)
    requires forall i :: 0 <= i < |dist| ==> dist[i].0 == "null"
    ensures TaskCount(dist) == 0 && Average(dist) == Some(0.0)
    decreases |dist|
  {
    if dist != [] {
      OnlyNullAverage(dist[..|dist| - 1]);
    }
  }
}
