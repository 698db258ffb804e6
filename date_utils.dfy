/** Month windows (src/utils/date.js): the calendar months from a start date
    through an end date, each with its first day, its last day (clipped to the
    end date in the end date's month), a key such as `march2025` and a name such
    as `March 2025`; the current month's window; and HTML escaping.
    Dates are explicit (year, month 1..12, day) values. */
module DateUtils {
  import opened Common
  import opened Numbers
  import opened Dicts

  const MonthNames: seq<string> :=
    ["January", "February", "March", "April", "May", "June",
     "July", "August", "September", "October", "November", "December"]

  const LowerMonthNames: seq<string> :=
    ["january", "february", "march", "april", "may", "june",
     "july", "august", "september", "october", "november", "december"]

  datatype Date = Date(year: nat, month: nat, day: nat)

  predicate IsLeapYear(y: nat) {
    y % 4 == 0 && (y % 100 != 0 || y % 400 == 0)
  }

  /** `new Date(year, month, 0).getDate()`: the number of days in a month. */
  function DaysInMonth(y: nat, m: nat): (n: nat)
    requires 1 <= m <= 12
    ensures 28 <= n <= 31
    ensures m == 2 ==> (n == 29 <==> IsLeapYear(y))
  {
    if m == 2 then (if IsLeapYear(y) then 29 else 28)
    else if m == 4 || m == 6 || m == 9 || m == 11 then 30
    else 31
  }

  predicate ValidDate(d: Date) {
    1 <= d.month <= 12 && 1 <= d.day <= DaysInMonth(d.year, d.month)
  }

  /** `a < b` on dates. */
  predicate Before(a: Date, b: Date) {
    a.year < b.year || (a.year == b.year && (a.month < b.month || (a.month == b.month && a.day < b.day)))
  }

  /** Months since year 0: consecutive calendar months have consecutive indices. */
  function MonthIndex(d: Date): int {
    d.year * 12 + d.month - 1
  }

  /** `d.setMonth(d.getMonth() + 1)`: the same day of the next month, where a
      day the next month does not have rolls over into the month after it. */
  function NextMonth(d: Date): (r: Date)
    requires ValidDate(d)
    ensures ValidDate(r)
    ensures MonthIndex(d) < MonthIndex(r) <= MonthIndex(d) + 2
    ensures d.day <= 28 ==> MonthIndex(r) == MonthIndex(d) + 1 && r.day == d.day
  {
    var (y, m) := if d.month == 12 then (d.year + 1, 1) else (d.year, d.month + 1);
    var dim := DaysInMonth(y, m);
    if d.day <= dim then Date(y, m, d.day)
    else if m == 12 then Date(y + 1, 1, d.day - dim)
    else Date(y, m + 1, d.day - dim)
  }

  /** `s.toLowerCase()` on ASCII letters. */
  function ToLower(s: string): (r: string)
    ensures |r| == |s|
  {
    seq(|s|, i requires 0 <= i < |s| => if 'A' <= s[i] <= 'Z' then (s[i] as int + 32) as char else s[i])
  }

  /** `MONTH_NAMES[month].toLowerCase() + year` */
  function MonthKey(y: nat, m: nat): string
    requires 1 <= m <= 12
  {
    ToLower(MonthNames[m - 1]) + NatToString(y)
  }

  /** `${monthName} ${year}` */
  function MonthName(y: nat, m: nat): string
    requires 1 <= m <= 12
  {
    MonthNames[m - 1] + " " + NatToString(y)
  }

  /** `${year}-${MM}-${DD}` */
  function DateText(y: nat, m: nat, d: nat): string {
    NatToString(y) + "-" + TwoDigits(m) + "-" + TwoDigits(d)
  }

  /** One value of the months object: `{ start, end, name }`. */
  datatype Window = Window(start: string, end: string, name: string)

  /** The window of month `m` of year `y` for a range ending at `end`. */
  function MonthWindow(y: nat, m: nat, end: Date): Window
    requires 1 <= m <= 12
  {
    var lastDay := if y == end.year && m == end.month then end.day else DaysInMonth(y, m);
    Window(DateText(y, m, 1), DateText(y, m, lastDay), MonthName(y, m))
  }

  /** The successive values of `current` in `generateMonths`, from `cur` on. */
  function Visits(cur: Date, end: Date): (vs: seq<Date>)
    requires ValidDate(cur)
    ensures forall i :: 0 <= i < |vs| ==> ValidDate(vs[i])
    decreases MonthIndex(end) - MonthIndex(cur) + 2
  {
    if Before(end, cur) then [] else [cur] + Visits(NextMonth(cur), end)
  }

  /** The entry `months[key] = { start, end, name }` for the month of `d`. */
  function Entry(d: Date, end: Date): (string, Window)
    requires 1 <= d.month <= 12
  {
    (MonthKey(d.year, d.month), MonthWindow(d.year, d.month, end))
  }

  /** `Entry`, for the dates of a month loop (which all have a valid month). */
  function EntryOf(end: Date): Date -> (string, Window) {
    (d: Date) => if 1 <= d.month <= 12 then Entry(d, end) else ("", Window("", "", ""))
  }

  function Entries(ds: seq<Date>, end: Date): (es: Dict<string, Window>)
    requires forall i :: 0 <= i < |ds| ==> ValidDate(ds[i])
    ensures |es| == |ds|
    ensures forall i :: 0 <= i < |ds| ==> ValidDate(ds[i]) && es[i] == Entry(ds[i], end)
  {
    Map(ds, EntryOf(end))
  }

  /** The months object `generateMonths` builds while `current` runs from `cur`. */
  function Windows(cur: Date, end: Date): Dict<string, Window>
    requires ValidDate(cur)
  {
    Entries(Visits(cur, end), end)
  }

  /** The first day of the month with index `idx`. */
  function DateAt(idx: nat): (d: Date)
    ensures ValidDate(d) && d.day == 1 && MonthIndex(d) == idx
  {
    Date(idx / 12, idx % 12 + 1, 1)
  }

  /** The entry of the month with index `idx`. */
  function WindowAt(idx: nat, end: Date): (string, Window) {
    Entry(DateAt(idx), end)
  }

  /** `generateMonths(start, end)` as written: `current` starts at `start` and
      keeps its day of the month. */
  method GenerateMonths(start: Date, end: Date) returns (months: Dict<string, Window>)
    requires ValidDate(start)
    ensures months == Windows(start, end)
  {
    months := [];
    var current := start;
    while !Before(end, current)
      invariant ValidDate(current)
      invariant months + Windows(current, end) == Windows(start, end)
      decreases MonthIndex(end) - MonthIndex(current) + 2
    {
      var key := MonthKey(current.year, current.month);
      var w := MonthWindow(current.year, current.month, end);
      var next := NextMonth(current);
      StepWindows(months, current, start, end);
      months := Put(months, key, w);
      current := next;
    }
  }

  /** The first day of `d`'s month. */
  function FirstOfMonth(d: Date): (r: Date)
    ensures r.day == 1 && MonthIndex(r) == MonthIndex(d)
  {
    Date(d.year, d.month, 1)
  }

  /** The intended `generateMonths`: `current` starts at the first day of the
      start date's month, so that every month up to the end date's month is
      visited. */
  method GenerateMonthsFromFirst(start: Date, end: Date) returns (months: Dict<string, Window>)
    requires ValidDate(start)
    ensures months == Windows(FirstOfMonth(start), end)
  {
    months := GenerateMonths(FirstOfMonth(start), end);
  }

  /** `getCurrentMonth()` for the given `today`. */
  function GetCurrentMonth(today: Date): (string, Window)
    requires ValidDate(today)
  {
    var w := MonthWindow(today.year, today.month, today);
    (MonthKey(today.year, today.month), w)
  }

  // ----- Properties of the month keys -----

  lemma LowerMonthNamesAre()
    ensures |MonthNames| == |LowerMonthNames| == 12
    ensures forall i :: 0 <= i < 12 ==> ToLower(MonthNames[i]) == LowerMonthNames[i]
  {
    assert ToLower(MonthNames[0]) == LowerMonthNames[0];
    assert ToLower(MonthNames[1]) == LowerMonthNames[1];
    assert ToLower(MonthNames[2]) == LowerMonthNames[2];
    assert ToLower(MonthNames[3]) == LowerMonthNames[3];
    assert ToLower(MonthNames[4]) == LowerMonthNames[4];
    assert ToLower(MonthNames[5]) == LowerMonthNames[5];
    assert ToLower(MonthNames[6]) == LowerMonthNames[6];
    assert ToLower(MonthNames[7]) == LowerMonthNames[7];
    assert ToLower(MonthNames[8]) == LowerMonthNames[8];
    assert ToLower(MonthNames[9]) == LowerMonthNames[9];
    assert ToLower(MonthNames[10]) == LowerMonthNames[10];
    assert ToLower(MonthNames[11]) == LowerMonthNames[11];
  }

  lemma LowerMonthNamesLetters()
    ensures forall i, k :: 0 <= i < 12 && 0 <= k < |LowerMonthNames[i]| ==> !IsDigit(LowerMonthNames[i][k])
  {
  }

  lemma LowerMonthNamesDistinct()
    ensures Distinct(LowerMonthNames)
  {
    assert LowerMonthNames[0][1] == 'a' && LowerMonthNames[5][1] == 'u' && LowerMonthNames[6][2] == 'l';
    assert LowerMonthNames[5][2] == 'n';
    assert LowerMonthNames[2][2] == 'r' && LowerMonthNames[4][2] == 'y';
    assert LowerMonthNames[3][1] == 'p' && LowerMonthNames[7][1] == 'u';
  }

  /** Keys of different months are different, across years too. */
  lemma MonthKeyDistinct(y1: nat, m1: nat, y2: nat, m2: nat)
    requires 1 <= m1 <= 12 && 1 <= m2 <= 12
    requires y1 != y2 || m1 != m2
    ensures MonthKey(y1, m1) != MonthKey(y2, m2)
  {
    LowerMonthNamesAre();
    LowerMonthNamesLetters();
    LowerMonthNamesDistinct();
    var a, b := LowerMonthNames[m1 - 1], LowerMonthNames[m2 - 1];
    var s1, s2 := NatToString(y1), NatToString(y2);
    var k1, k2 := a + s1, b + s2;
    assert MonthKey(y1, m1) == k1 && MonthKey(y2, m2) == k2;
    if |a| < |b| {
      assert k1[|a|] == s1[0] && k2[|a|] == b[|a|];
    } else if |b| < |a| {
      assert k1[|b|] == a[|b|] && k2[|b|] == s2[0];
    } else if a != b {
      var i :| 0 <= i < |a| && a[i] != b[i];
      assert k1[i] == a[i] && k2[i] == b[i];
    } else {
      assert s1 == k1[|a|..] && s2 == k2[|b|..];
      if s1 == s2 {
        NatToStringInjective(y1, y2);
      }
    }
  }

  /** Each visit is a valid date in a later month than the one before, and no
      later than the end date. */
  lemma {:induction false} VisitsIncreasing(cur: Date, end: Date)
    requires ValidDate(cur)
    ensures var vs := Visits(cur, end);
      && (forall i :: 0 <= i < |vs| ==> MonthIndex(cur) <= MonthIndex(vs[i]) && !Before(end, vs[i]))
      && (forall i, j :: 0 <= i < j < |vs| ==> MonthIndex(vs[i]) < MonthIndex(vs[j]))
    decreases MonthIndex(end) - MonthIndex(cur) + 2
  {
    if !Before(end, cur) {
      var next := NextMonth(cur);
      VisitsIncreasing(next, end);
      var vs := Visits(cur, end);
      assert vs == [cur] + Visits(next, end);
      forall i | 0 < i < |vs| ensures vs[i] == Visits(next, end)[i - 1] {}
    }
  }

  lemma WindowsUnfold(cur: Date, end: Date)
    requires ValidDate(cur) && !Before(end, cur)
    ensures Windows(cur, end) == [Entry(cur, end)] + Windows(NextMonth(cur), end)
  {
    var rest := Visits(NextMonth(cur), end);
    assert Visits(cur, end) == [cur] + rest;
    MapCons(cur, rest, EntryOf(end));
  }

  /** The key of the `i`-th window is the key of the `i`-th visited month. */
  lemma WindowKey(cur: Date, end: Date, i: nat)
    requires ValidDate(cur) && i < |Visits(cur, end)|
    ensures var v := Visits(cur, end)[i];
      i < |Keys(Windows(cur, end))| && Keys(Windows(cur, end))[i] == MonthKey(v.year, v.month)
  {
  }

  /** `generateMonths` never produces the same key twice, so each `months[key] = …` adds a new entry. */
  lemma WindowsKeysDistinct(cur: Date, end: Date)
    requires ValidDate(cur)
    ensures Distinct(Keys(Windows(cur, end)))
  {
    var vs := Visits(cur, end);
    var ks := Keys(Windows(cur, end));
    VisitsIncreasing(cur, end);
    forall i, j | 0 <= i < j < |ks| ensures ks[i] != ks[j] {
      WindowKey(cur, end, i);
      WindowKey(cur, end, j);
      assert MonthIndex(vs[i]) < MonthIndex(vs[j]);
      MonthKeyDistinct(vs[i].year, vs[i].month, vs[j].year, vs[j].month);
    }
  }

  lemma KeyNotYetSeen(done: Dict<string, Window>, rest: Dict<string, Window>)
    requires rest != [] && Distinct(Keys(done + rest))
    ensures rest[0].0 !in Keys(done)
  {
    var ks := Keys(done + rest);
    assert ks[|done|] == rest[0].0;
    forall i | 0 <= i < |done| ensures Keys(done)[i] != rest[0].0 {
      assert ks[i] == Keys(done)[i];
    }
  }

  /** One turn of the `generateMonths` loop adds the current month's entry at the end. */
  lemma StepWindows(months: Dict<string, Window>, cur: Date, start: Date, end: Date)
    requires ValidDate(cur) && ValidDate(start) && !Before(end, cur)
    requires months + Windows(cur, end) == Windows(start, end)
    ensures Put(months, MonthKey(cur.year, cur.month), MonthWindow(cur.year, cur.month, end)) + Windows(NextMonth(cur), end)
      == Windows(start, end)
  {
    StepKeyFresh(months, cur, start, end);
    WindowsUnfold(cur, end);
    PutFreshThenRest(months, MonthKey(cur.year, cur.month), MonthWindow(cur.year, cur.month, end),
      Windows(NextMonth(cur), end), Windows(start, end));
  }

  lemma PutFreshThenRest<V>(d: Dict<string, V>, k: string, v: V, rest: Dict<string, V>, full: Dict<string, V>)
    requires k !in Keys(d) && d + ([(k, v)] + rest) == full
    ensures Put(d, k, v) + rest == full
  {
    assert d + [(k, v)] + rest == d + ([(k, v)] + rest);
  }

  /** The current month's key is not yet in the months object. */
  lemma StepKeyFresh(months: Dict<string, Window>, cur: Date, start: Date, end: Date)
    requires ValidDate(cur) && ValidDate(start) && !Before(end, cur)
    requires months + Windows(cur, end) == Windows(start, end)
    ensures MonthKey(cur.year, cur.month) !in Keys(months)
  {
    WindowsUnfold(cur, end);
    WindowsKeysDistinct(start, end);
    KeyNotYetSeen(months, Windows(cur, end));
  }

  // ----- Properties of the windows -----

  /** Start after end gives no windows at all. */
  lemma WindowsEmpty(start: Date, end: Date)
    requires ValidDate(start)
    ensures Windows(start, end) == [] <==> Before(end, start)
  {
    if !Before(end, start) {
      assert Visits(start, end)[0] == start;
    }
  }

  /** A first of the month is the first day of the month with its index. */
  lemma DateAtIndex(d: Date)
    requires ValidDate(d) && d.day == 1
    ensures DateAt(MonthIndex(d)) == d
  {
    var idx := MonthIndex(d);
    assert idx == d.year * 12 + (d.month - 1);
    assert idx / 12 == d.year && idx % 12 == d.month - 1;
  }

  /** From the first of a month, `current` visits exactly the consecutive calendar
      months from that month through the end date's month, in order. */
  lemma {:induction false} VisitsFromFirst(cur: Date, end: Date)
    requires ValidDate(cur) && ValidDate(end) && cur.day == 1
    ensures |Visits(cur, end)| == (if MonthIndex(end) < MonthIndex(cur) then 0 else MonthIndex(end) - MonthIndex(cur) + 1)
    ensures forall i :: 0 <= i < |Visits(cur, end)| ==> Visits(cur, end)[i] == DateAt(MonthIndex(cur) + i)
    decreases MonthIndex(end) - MonthIndex(cur) + 2
  {
    assert Before(end, cur) <==> MonthIndex(end) < MonthIndex(cur);
    if !Before(end, cur) {
      var next := NextMonth(cur);
      VisitsFromFirst(next, end);
      var vs := Visits(cur, end);
      var rest := Visits(next, end);
      assert vs == [cur] + rest;
      DateAtIndex(cur);
      forall i | 0 < i < |vs| ensures vs[i] == DateAt(MonthIndex(cur) + i) {
        assert vs[i] == rest[i - 1];
      }
    }
  }

  /** The intended windows are exactly the months from the start date's month
      through the end date's month, one entry per month, in order. */
  lemma WindowsFromFirst(start: Date, end: Date)
    requires ValidDate(start) && ValidDate(end)
    ensures |Windows(FirstOfMonth(start), end)| == (if MonthIndex(end) < MonthIndex(start) then 0 else MonthIndex(end) - MonthIndex(start) + 1)
    ensures forall i :: 0 <= i < |Windows(FirstOfMonth(start), end)| ==>
      Windows(FirstOfMonth(start), end)[i] == WindowAt(MonthIndex(start) + i, end)
  {
    var first := FirstOfMonth(start);
    VisitsFromFirst(first, end);
    forall i | 0 <= i < |Windows(first, end)| ensures Windows(first, end)[i] == WindowAt(MonthIndex(start) + i, end) {
      WindowFromFirstAt(start, end, i);
    }
  }

  lemma WindowFromFirstAt(start: Date, end: Date, i: nat)
    requires ValidDate(start) && ValidDate(end) && i < |Visits(FirstOfMonth(start), end)|
    ensures i < |Windows(FirstOfMonth(start), end)|
    ensures Windows(FirstOfMonth(start), end)[i] == WindowAt(MonthIndex(start) + i, end)
  {
    VisitFromFirstAt(start, end, i);
    WindowOfVisit(FirstOfMonth(start), end, i);
  }

  lemma VisitFromFirstAt(start: Date, end: Date, i: nat)
    requires ValidDate(start) && ValidDate(end) && i < |Visits(FirstOfMonth(start), end)|
    ensures Visits(FirstOfMonth(start), end)[i] == DateAt(MonthIndex(start) + i)
  {
    VisitsFromFirst(FirstOfMonth(start), end);
  }

  /** Each window starts on the first day of its month, the month written with
      two digits. */
  lemma WindowStart(y: nat, m: nat, end: Date)
    requires 1 <= m <= 12
    ensures MonthWindow(y, m, end).start == DateText(y, m, 1)
    ensures |TwoDigits(m)| == 2 && DigitsValue(TwoDigits(m)) == m
  {
    TwoDigitsValue(m);
  }

  /** The first day is written `01`. */
  lemma FirstDayText()
    ensures TwoDigits(1) == "01"
  {
    assert NatToString(1) == "1";
  }

  /** The window of the end date's month ends on the end date; any other window
      ends on the last day of its month. */
  lemma WindowEnd(y: nat, m: nat, end: Date)
    requires 1 <= m <= 12
    ensures MonthWindow(y, m, end).end ==
      DateText(y, m, if y == end.year && m == end.month then end.day else DaysInMonth(y, m))
  {
  }

  /** Keys are the lower-case English month name followed by the year; names
      are the month name, a space and the year. */
  lemma EntryNaming(d: Date, end: Date)
    requires ValidDate(d)
    ensures Entry(d, end).0 == LowerMonthNames[d.month - 1] + NatToString(d.year)
    ensures Entry(d, end).1.name == MonthNames[d.month - 1] + " " + NatToString(d.year)
  {
    LowerMonthNamesAre();
  }

  /** With a start day that every month has and that is not after the end date's
      day, the loop as written visits the same months as the intended one. */
  lemma {:induction false} VisitsAsWrittenAgree(cur: Date, end: Date)
    requires ValidDate(cur) && cur.day <= 28 && cur.day <= end.day
    ensures Entries(Visits(cur, end), end) == Entries(Visits(FirstOfMonth(cur), end), end)
    decreases MonthIndex(end) - MonthIndex(cur) + 2
  {
    var first := FirstOfMonth(cur);
    assert Before(end, cur) <==> Before(end, first);
    if !Before(end, cur) {
      var next := NextMonth(cur);
      VisitsAsWrittenAgree(next, end);
      assert FirstOfMonth(next) == NextMonth(first);
      WindowsUnfold(cur, end);
      WindowsUnfold(first, end);
    }
  }

  /** The callers' start date, the first of a month, makes both versions agree. */
  lemma WindowsAsWrittenAgree(start: Date, end: Date)
    requires ValidDate(start) && start.day <= 28 && start.day <= end.day
    ensures Windows(start, end) == Windows(FirstOfMonth(start), end)
  {
    VisitsAsWrittenAgree(start, end);
  }

  /** `getCurrentMonth(today)` is the last window the intended `generateMonths`
      produces for any start on or before today. */
  lemma CurrentMonthIsLastWindow(start: Date, today: Date)
    requires ValidDate(start) && ValidDate(today) && !Before(today, start)
    ensures var w := Windows(FirstOfMonth(start), today);
      |w| > 0 && w[|w| - 1] == GetCurrentMonth(today)
  {
    var first := FirstOfMonth(start);
    var vs := Visits(first, today);
    LastVisitFromFirst(start, today);
    WindowOfVisit(first, today, |vs| - 1);
    LastWindowIsCurrent(today);
  }

  /** From the first of the start's month, the last month visited is the first of the end's month. */
  lemma LastVisitFromFirst(start: Date, end: Date)
    requires ValidDate(start) && ValidDate(end) && !Before(end, start)
    ensures var vs := Visits(FirstOfMonth(start), end);
      |vs| > 0 && vs[|vs| - 1] == FirstOfMonth(end)
  {
    var first := FirstOfMonth(start);
    VisitsFromFirst(first, end);
    var n := MonthIndex(end) - MonthIndex(start);
    assert Visits(first, end)[n] == DateAt(MonthIndex(end));
    DateAtIndex(FirstOfMonth(end));
  }

  /** The `i`-th window is the entry of the `i`-th visited month. */
  lemma WindowOfVisit(cur: Date, end: Date, i: nat)
    requires ValidDate(cur) && i < |Visits(cur, end)|
    ensures |Windows(cur, end)| == |Visits(cur, end)|
    ensures Windows(cur, end)[i] == Entry(Visits(cur, end)[i], end)
  {
  }

  lemma LastWindowIsCurrent(today: Date)
    requires ValidDate(today)
    ensures Entry(FirstOfMonth(today), today) == GetCurrentMonth(today)
  {
  }

  /** The current month's window runs from day 01 to today's day. */
  lemma CurrentMonthShape(today: Date)
    requires ValidDate(today)
    ensures GetCurrentMonth(today).1.start == DateText(today.year, today.month, 1)
    ensures GetCurrentMonth(today).1.end == DateText(today.year, today.month, today.day)
    ensures GetCurrentMonth(today).0 == LowerMonthNames[today.month - 1] + NatToString(today.year)
  {
    LowerMonthNamesAre();
  }

  // ----- The day-of-month defect of the loop as written -----

  lemma Year2025()
    ensures NatToString(2025) == "2025"
  {
    assert NatToString(2) == "2";
    assert NatToString(20) == "20";
    assert NatToString(202) == "202";
  }

  /** The keys of a sequence of visited months. */
  function MonthKeys(ds: seq<Date>): (ks: seq<string>)
    requires forall i :: 0 <= i < |ds| ==> ValidDate(ds[i])
    ensures |ks| == |ds|
  {
    seq(|ds|, i requires 0 <= i < |ds| => var d := ds[i]; assert ValidDate(d); MonthKey(d.year, d.month))
  }

  lemma WindowsKeys(cur: Date, end: Date)
    requires ValidDate(cur)
    ensures Keys(Windows(cur, end)) == MonthKeys(Visits(cur, end))
  {
    var ks, mk := Keys(Windows(cur, end)), MonthKeys(Visits(cur, end));
    forall i | 0 <= i < |ks| ensures ks[i] == mk[i] {
      WindowKey(cur, end, i);
    }
  }

  lemma Key2025(m: nat)
    requires 1 <= m <= 12
    ensures MonthKey(2025, m) == LowerMonthNames[m - 1] + "2025"
  {
    LowerMonthNamesAre();
    Year2025();
  }

  lemma VisitsFromJanuary31()
    ensures Visits(Date(2025, 1, 31), Date(2025, 3, 31)) == [Date(2025, 1, 31), Date(2025, 3, 3)]
  {
    var end := Date(2025, 3, 31);
    assert Visits(Date(2025, 4, 3), end) == [];
    assert Visits(Date(2025, 3, 3), end) == [Date(2025, 3, 3)];
  }

  lemma VisitsFromJanuary1()
    ensures Visits(Date(2025, 1, 1), Date(2025, 3, 31)) == [Date(2025, 1, 1), Date(2025, 2, 1), Date(2025, 3, 1)]
  {
    var end := Date(2025, 3, 31);
    assert Visits(Date(2025, 4, 1), end) == [];
    assert Visits(Date(2025, 3, 1), end) == [Date(2025, 3, 1)];
    assert Visits(Date(2025, 2, 1), end) == [Date(2025, 2, 1), Date(2025, 3, 1)];
  }

  lemma VisitsFromMarch15()
    ensures Visits(Date(2025, 3, 15), Date(2025, 5, 10)) == [Date(2025, 3, 15), Date(2025, 4, 15)]
  {
    var end := Date(2025, 5, 10);
    assert Visits(Date(2025, 5, 15), end) == [];
    assert Visits(Date(2025, 4, 15), end) == [Date(2025, 4, 15)];
  }

  lemma VisitsFromMarch1()
    ensures Visits(Date(2025, 3, 1), Date(2025, 5, 10)) == [Date(2025, 3, 1), Date(2025, 4, 1), Date(2025, 5, 1)]
  {
    var end := Date(2025, 5, 10);
    assert Visits(Date(2025, 6, 1), end) == [];
    assert Visits(Date(2025, 5, 1), end) == [Date(2025, 5, 1)];
    assert Visits(Date(2025, 4, 1), end) == [Date(2025, 4, 1), Date(2025, 5, 1)];
  }

  lemma KeysOfTwo(a: Date, b: Date)
    requires ValidDate(a) && ValidDate(b)
    ensures MonthKeys([a, b]) == [MonthKey(a.year, a.month), MonthKey(b.year, b.month)]
  {
  }

  lemma KeysOfThree(a: Date, b: Date, c: Date)
    requires ValidDate(a) && ValidDate(b) && ValidDate(c)
    ensures MonthKeys([a, b, c]) == [MonthKey(a.year, a.month), MonthKey(b.year, b.month), MonthKey(c.year, c.month)]
  {
  }

  lemma KeysIn2025()
    ensures MonthKey(2025, 1) == "january2025"
    ensures MonthKey(2025, 2) == "february2025"
    ensures MonthKey(2025, 3) == "march2025"
    ensures MonthKey(2025, 4) == "april2025"
    ensures MonthKey(2025, 5) == "may2025"
  {
    Key2025(1);
    Key2025(2);
    Key2025(3);
    Key2025(4);
    Key2025(5);
  }

  /** Starting on 31 January, `current` jumps from 31 January to 3 March, so
      February is skipped; from the first of January it is not. */
  lemma SkipsFebruaryFromJanuary31()
    ensures Keys(Windows(Date(2025, 1, 31), Date(2025, 3, 31))) == ["january2025", "march2025"]
    ensures Keys(Windows(FirstOfMonth(Date(2025, 1, 31)), Date(2025, 3, 31))) == ["january2025", "february2025", "march2025"]
  {
    var end := Date(2025, 3, 31);
    WindowsKeys(Date(2025, 1, 31), end);
    assert FirstOfMonth(Date(2025, 1, 31)) == Date(2025, 1, 1);
    WindowsKeys(Date(2025, 1, 1), end);
    VisitsFromJanuary31();
    VisitsFromJanuary1();
    KeysIn2025();
    KeysOfTwo(Date(2025, 1, 31), Date(2025, 3, 3));
    KeysOfThree(Date(2025, 1, 1), Date(2025, 2, 1), Date(2025, 3, 1));
  }

  /** Starting on the 15th with an end on the 10th, `current` passes the end
      date inside the end date's month, so that month is missing; from the first
      of the month it is not. */
  lemma MissesEndMonthFromMidMonth()
    ensures Keys(Windows(Date(2025, 3, 15), Date(2025, 5, 10))) == ["march2025", "april2025"]
    ensures Keys(Windows(FirstOfMonth(Date(2025, 3, 15)), Date(2025, 5, 10))) == ["march2025", "april2025", "may2025"]
  {
    var end := Date(2025, 5, 10);
    WindowsKeys(Date(2025, 3, 15), end);
    assert FirstOfMonth(Date(2025, 3, 15)) == Date(2025, 3, 1);
    WindowsKeys(Date(2025, 3, 1), end);
    VisitsFromMarch15();
    VisitsFromMarch1();
    KeysIn2025();
    KeysOfTwo(Date(2025, 3, 15), Date(2025, 4, 15));
    KeysOfThree(Date(2025, 3, 1), Date(2025, 4, 1), Date(2025, 5, 1));
  }

  // ----- HTML escaping -----

  /** `s.replace(/c/g, rep)` */
  function ReplaceAll(s: string, c: char, rep: string): string
    decreases |s|
  {
    if s == [] then [] else (if s[0] == c then rep else [s[0]]) + ReplaceAll(s[1..], c, rep)
  }

  /** `escapeHtml(text)`: five replacements in turn, `&` first. */
  function EscapeHtml(text: string): string {
    ReplaceAll(ReplaceAll(ReplaceAll(ReplaceAll(ReplaceAll(text, '&', "&amp;"), '<', "&lt;"), '>', "&gt;"), '"', "&quot;"), '\'', "&#039;")
  }

  /** The entity for each special character, and the character itself otherwise. */
  function EscapeChar(c: char): string {
    match c
    case '&' => "&amp;"
    case '<' => "&lt;"
    case '>' => "&gt;"
    case '"' => "&quot;"
    case '\'' => "&#039;"
    case _ => [c]
  }

  /** Escaping character by character. */
  function EscapeEach(s: string): string
    decreases |s|
  {
    if s == [] then [] else EscapeChar(s[0]) + EscapeEach(s[1..])
  }

  predicate IsSpecial(c: char) {
    c == '&' || c == '<' || c == '>' || c == '"' || c == '\''
  }

  lemma {:induction false} ReplaceAllAppend(a: string, b: string, c: char, rep: string)
    ensures ReplaceAll(a + b, c, rep) == ReplaceAll(a, c, rep) + ReplaceAll(b, c, rep)
    decreases |a|
  {
    if a == [] {
      assert a + b == b;
    } else {
      assert (a + b)[0] == a[0];
      assert (a + b)[1..] == a[1..] + b;
      ReplaceAllAppend(a[1..], b, c, rep);
    }
  }

  lemma {:induction false} ReplaceAllAbsent(s: string, c: char, rep: string)
    requires forall i :: 0 <= i < |s| ==> s[i] != c
    ensures ReplaceAll(s, c, rep) == s
    decreases |s|
  {
    if s != [] {
      ReplaceAllAbsent(s[1..], c, rep);
    }
  }

  lemma ReplaceAllOne(x: char, c: char, rep: string)
    ensures ReplaceAll([x], c, rep) == if x == c then rep else [x]
  {
    assert [x][1..] == [];
  }

  lemma EscapeHtmlAppend(a: string, b: string)
    ensures EscapeHtml(a + b) == EscapeHtml(a) + EscapeHtml(b)
  {
    var a1, b1 := ReplaceAll(a, '&', "&amp;"), ReplaceAll(b, '&', "&amp;");
    ReplaceAllAppend(a, b, '&', "&amp;");
    var a2, b2 := ReplaceAll(a1, '<', "&lt;"), ReplaceAll(b1, '<', "&lt;");
    ReplaceAllAppend(a1, b1, '<', "&lt;");
    var a3, b3 := ReplaceAll(a2, '>', "&gt;"), ReplaceAll(b2, '>', "&gt;");
    ReplaceAllAppend(a2, b2, '>', "&gt;");
    var a4, b4 := ReplaceAll(a3, '"', "&quot;"), ReplaceAll(b3, '"', "&quot;");
    ReplaceAllAppend(a3, b3, '"', "&quot;");
    ReplaceAllAppend(a4, b4, '\'', "&#039;");
  }

  /** Runs the four later passes over text that none of them touches. */
  lemma LaterPassesKeep(s: string, from: nat)
    requires 1 <= from <= 4
    requires forall i :: 0 <= i < |s| ==> s[i] != '<' && s[i] != '>' && s[i] != '"' && s[i] != '\''
    ensures from == 1 ==> ReplaceAll(ReplaceAll(ReplaceAll(ReplaceAll(s, '<', "&lt;"), '>', "&gt;"), '"', "&quot;"), '\'', "&#039;") == s
    ensures from == 2 ==> ReplaceAll(ReplaceAll(ReplaceAll(s, '>', "&gt;"), '"', "&quot;"), '\'', "&#039;") == s
    ensures from == 3 ==> ReplaceAll(ReplaceAll(s, '"', "&quot;"), '\'', "&#039;") == s
    ensures from == 4 ==> ReplaceAll(s, '\'', "&#039;") == s
  {
    ReplaceAllAbsent(s, '<', "&lt;");
    ReplaceAllAbsent(s, '>', "&gt;");
    ReplaceAllAbsent(s, '"', "&quot;");
    ReplaceAllAbsent(s, '\'', "&#039;");
  }

  lemma EscapeHtmlChar(c: char)
    ensures EscapeHtml([c]) == EscapeChar(c)
  {
    ReplaceAllOne(c, '&', "&amp;");
    if c == '&' {
      LaterPassesKeep("&amp;", 1);
    } else {
      ReplaceAllOne(c, '<', "&lt;");
      if c == '<' {
        LaterPassesKeep("&lt;", 2);
      } else {
        ReplaceAllOne(c, '>', "&gt;");
        if c == '>' {
          LaterPassesKeep("&gt;", 3);
        } else {
          ReplaceAllOne(c, '"', "&quot;");
          if c == '"' {
            LaterPassesKeep("&quot;", 4);
          } else {
            ReplaceAllOne(c, '\'', "&#039;");
          }
        }
      }
    }
  }

  /** Replacing `&` first means no entity produced by a later step is escaped
      again: the five passes escape each character on its own. */
  lemma {:induction false} EscapeHtmlEach(s: string)
    ensures EscapeHtml(s) == EscapeEach(s)
    decreases |s|
  {
    if s != [] {
      assert s == [s[0]] + s[1..];
      EscapeHtmlAppend([s[0]], s[1..]);
      EscapeHtmlChar(s[0]);
      EscapeHtmlEach(s[1..]);
    }
  }

  lemma {:induction false} EscapeEachPlain(s: string)
    requires forall i :: 0 <= i < |s| ==> !IsSpecial(s[i])
    ensures EscapeEach(s) == s
    decreases |s|
  {
    if s != [] {
      EscapeEachPlain(s[1..]);
    }
  }

  /** Text without any of the five special characters is left unchanged. */
  lemma EscapeHtmlPlain(s: string)
    requires forall i :: 0 <= i < |s| ==> !IsSpecial(s[i])
    ensures EscapeHtml(s) == s
  {
    EscapeHtmlEach(s);
    EscapeEachPlain(s);
  }
}
