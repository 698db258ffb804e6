/** The month loop of the legacy scripts, for any kind of record: for each
    window in order, `try` to build the month's record and store it under the
    month key; a month whose attempt throws is left out of the map. */
module MonthRuns {
  import opened Common
  import opened Dicts
  import opened DateUtils

  /** The statistics map after the given months. */
  function Collect<V>(months: Dict<string, Window>, attempt: Window -> Result<V>): Dict<string, V>
    decreases |months|
  {
    if months == [] then []
    else
      var n := |months| - 1;
      var prev := Collect(months[..n], attempt);
      match attempt(months[n].1)
      case Ok(v) => Put(prev, months[n].0, v)
      case Err(_) => prev
  }

  /** One more month stores its record, or nothing when its attempt failed. */
  lemma CollectStep<V>(months: Dict<string, Window>, attempt: Window -> Result<V>, i: nat)
    requires i < |months|
    ensures Collect(months[..i + 1], attempt)
      == match attempt(months[i].1) {
           case Ok(v) => Put(Collect(months[..i], attempt), months[i].0, v)
           case Err(_) => Collect(months[..i], attempt)
         }
  {
    assert months[..i + 1][..i] == months[..i];
  }

  /** One turn of a month loop that stores each month's record and adds an
      entry per month to the report. */
  lemma RunStep<V, E>(months: Dict<string, Window>, attempt: Window -> Result<V>, reportOf: ((string, Window)) -> E,
                      i: nat, stats: Dict<string, V>, report: seq<E>, r: Result<V>, entry: E)
    requires i < |months|
    requires stats == Collect(months[..i], attempt) && report == Map(months[..i], reportOf)
    requires r == attempt(months[i].1) && entry == reportOf(months[i])
    ensures Collect(months[..i + 1], attempt) == match r {
              case Ok(v) => Put(stats, months[i].0, v)
              case Err(_) => stats
            }
    ensures Map(months[..i + 1], reportOf) == report + [entry]
  {
    CollectStep(months, attempt, i);
    assert months[..i + 1] == months[..i] + [months[i]];
  }

  /** Only month keys are stored. */
  lemma {:induction false} CollectKeys<V>(months: Dict<string, Window>, attempt: Window -> Result<V>)
    ensures forall k :: k in Keys(Collect(months, attempt)) ==> k in Keys(months)
    decreases |months|
  {
    if months != [] {
      var n := |months| - 1;
      var prev := Collect(months[..n], attempt);
      CollectKeys(months[..n], attempt);
      assert Keys(months) == Keys(months[..n]) + [months[n].0];
      match attempt(months[n].1)
      case Ok(v) => PutKeys(prev, months[n].0, v);
      case Err(_) =>
    }
  }

  /** Every stored record is the result of a successful attempt, so what
      holds of every such result holds of every record. */
  lemma {:induction false} CollectSound<V>(months: Dict<string, Window>, attempt: Window -> Result<V>, ok: V -> bool)
    requires forall w :: attempt(w).Ok? ==> ok(attempt(w).value)
    ensures forall i :: 0 <= i < |Collect(months, attempt)| ==> ok(Collect(months, attempt)[i].1)
    decreases |months|
  {
    if months != [] {
      var n := |months| - 1;
      var prev := Collect(months[..n], attempt);
      CollectSound(months[..n], attempt, ok);
      match attempt(months[n].1)
      case Ok(v) =>
        var next := Put(prev, months[n].0, v);
        forall i | 0 <= i < |next| ensures ok(next[i].1) {
          PutKeys(prev, months[n].0, v);
          if months[n].0 in Keys(prev) {
            var j := IndexOf(Keys(prev), months[n].0);
            assert next == prev[j := (months[n].0, v)];
          }
        }
      case Err(_) =>
    }
  }

  /** A month that succeeded is stored under its key with its own record; a
      month that failed is absent, not zero. */
  lemma {:induction false} CollectAt<V>(months: Dict<string, Window>, attempt: Window -> Result<V>, i: nat)
    requires Distinct(Keys(months)) && i < |months|
    ensures Get(Collect(months, attempt), months[i].0)
      == match attempt(months[i].1) {
           case Ok(v) => Some(v)
           case Err(_) => None
         }
    decreases |months|
  {
    var n := |months| - 1;
    var prev := Collect(months[..n], attempt);
    assert Keys(months[..n]) == Keys(months)[..n];
    if i == n {
      CollectKeys(months[..n], attempt);
      assert months[n].0 !in Keys(months[..n]);
      match attempt(months[n].1)
      case Ok(v) => PutGet(prev, months[n].0, v, months[n].0);
      case Err(_) =>
    } else {
      CollectAt(months[..n], attempt, i);
      assert months[..n][i] == months[i];
      assert Keys(months)[i] != Keys(months)[n];
      match attempt(months[n].1)
      case Ok(v) => PutGet(prev, months[n].0, v, months[i].0);
      case Err(_) =>
    }
  }

  function EntryMeasure<V>(f: V -> nat): ((string, V)) -> nat {
    (e: (string, V)) => f(e.1)
  }

  /** `Object.values(stats).reduce((sum, s) => sum + f(s), 0)` */
  method SumValues<V>(stats: Dict<string, V>, f: V -> nat) returns (total: nat)
    ensures total == SumOf(stats, EntryMeasure(f))
  {
    total := 0;
    var i := 0;
    while i < |stats|
      invariant i <= |stats|
      invariant total == SumOf(stats[..i], EntryMeasure(f))
    {
      assert stats[..i + 1][..i] == stats[..i];
      total := total + f(stats[i].1);
      i := i + 1;
    }
    assert stats[..i] == stats;
  }

  /** A month's measure, 0 for a month that failed. */
  function MeasureOf<V>(r: Result<V>, f: V -> nat): nat {
    match r
    case Ok(v) => f(v)
    case Err(_) => 0
  }

  function Succeeded<V>(attempt: Window -> Result<V>, f: V -> nat): ((string, Window)) -> nat {
    (m: (string, Window)) => MeasureOf(attempt(m.1), f)
  }

  /** A grand total over the map adds up the successful months only. */
  lemma {:induction false} CollectSum<V>(months: Dict<string, Window>, attempt: Window -> Result<V>, f: V -> nat)
    requires Distinct(Keys(months))
    ensures SumOf(Collect(months, attempt), EntryMeasure(f)) == SumOf(months, Succeeded(attempt, f))
    decreases |months|
  {
    if months != [] {
      var n := |months| - 1;
      var prev := Collect(months[..n], attempt);
      assert Keys(months[..n]) == Keys(months)[..n];
      CollectSum(months[..n], attempt, f);
      CollectKeys(months[..n], attempt);
      assert months[n].0 !in Keys(months[..n]);
      match attempt(months[n].1)
      case Ok(v) =>
        assert Put(prev, months[n].0, v) == prev + [(months[n].0, v)];
        SumOfAppend(prev, [(months[n].0, v)], EntryMeasure(f));
        assert [(months[n].0, v)][..0] == [];
      case Err(_) =>
    }
  }
}
