/**
 * Import-interval codes of a data source import schedule: a unit name with an
 * optional multiplier suffix (`HOUR`, `HOUR2`, `DAY2`, `WEEK2`, ...), and the
 * length of each interval in minutes.
 */
module ImportIntervals {
  import opened Wrappers
  import opened Decimal

  datatype IntervalUnit = Hour | Day | Week | Month | Quarter | Year

  const MinutesPerHour: nat := 60
  const MinutesPerDay: nat := 24 * MinutesPerHour

  /** The minutes in one unit: a month counts as 31 days, a quarter as 93, a year as 365. */
  function BaseMinutes(u: IntervalUnit): (m: nat)
    ensures u.Hour? ==> m == MinutesPerHour
    ensures u.Day? ==> m == MinutesPerDay
    ensures u.Week? ==> m == 7 * MinutesPerDay
    ensures u.Month? ==> m == 31 * MinutesPerDay
    ensures u.Quarter? ==> m == 93 * MinutesPerDay
    ensures u.Year? ==> m == 365 * MinutesPerDay
  {
    match u
    case Hour => 60
    case Day => 1440
    case Week => 10080
    case Month => 44640
    case Quarter => 133920
    case Year => 525600
  }

  function UnitName(u: IntervalUnit): string {
    match u
    case Hour => "HOUR"
    case Day => "DAY"
    case Week => "WEEK"
    case Month => "MONTH"
    case Quarter => "QUARTER"
    case Year => "YEAR"
  }

  function UnitNamed(name: string): (r: Option<IntervalUnit>)
    ensures r.Some? ==> UnitName(r.value) == name
    ensures r.None? ==> forall u: IntervalUnit :: UnitName(u) != name
  {
    if name == "HOUR" then Some(Hour)
    else if name == "DAY" then Some(Day)
    else if name == "WEEK" then Some(Week)
    else if name == "MONTH" then Some(Month)
    else if name == "QUARTER" then Some(Quarter)
    else if name == "YEAR" then Some(Year)
    else None
  }

  /** An import interval: `multiplier` consecutive units. */
  datatype Interval = Interval(unit: IntervalUnit, multiplier: nat)

  function Minutes(i: Interval): (m: nat)
    ensures i.multiplier == 1 ==> m == BaseMinutes(i.unit)
    ensures i.multiplier >= 1 ==> m >= BaseMinutes(i.unit)
  {
    i.multiplier * BaseMinutes(i.unit)
  }

  /** The code of an interval: the bare unit name for multiplier 1, else the name and the multiplier. */
  function IntervalCode(i: Interval): string
    requires i.multiplier >= 1
  {
    UnitName(i.unit) + if i.multiplier == 1 then "" else ToDecimal(i.multiplier)
  }

  /** The length of the leading run of non-digit characters. */
  function NameLength(s: string): (k: nat)
    ensures k <= |s|
    ensures forall j :: 0 <= j < k ==> !IsDigit(s[j])
    ensures k < |s| ==> IsDigit(s[k])
  {
    if |s| == 0 || IsDigit(s[0]) then 0 else 1 + NameLength(s[1..])
  }

  /**
   * Reads an interval code: a unit name, then either nothing (multiplier 1)
   * or a canonical decimal multiplier of at least 2. Every accepted code is
   * the code of the interval it is read as.
   */
  function ParseInterval(code: string): (r: Option<Interval>)
    ensures r.Some? ==> r.value.multiplier >= 1 && IntervalCode(r.value) == code
  {
    var k := NameLength(code);
    var name, suffix := code[..k], code[k..];
    assert code == name + suffix;
    match UnitNamed(name)
    case None => None
    case Some(u) =>
      if suffix == "" then Some(Interval(u, 1))
      else match ParseNat(suffix)
        case Some(m) => ToDecimalParse(suffix); if m >= 2 then Some(Interval(u, m)) else None
        case None => None
  }

  lemma {:induction false} NameLengthSplit(a: string, b: string)
    requires forall j :: 0 <= j < |a| ==> !IsDigit(a[j])
    requires |b| == 0 || IsDigit(b[0])
    ensures NameLength(a + b) == |a|
    decreases |a|
  {
    if |a| > 0 {
      assert (a + b)[1..] == a[1..] + b;
      NameLengthSplit(a[1..], b);
    }
  }

  /** A unit name holds no digit and names its unit back. */
  lemma UnitNameRead(u: IntervalUnit)
    ensures UnitNamed(UnitName(u)) == Some(u)
    ensures forall j :: 0 <= j < |UnitName(u)| ==> !IsDigit(UnitName(u)[j])
  {
    match u
    case Hour => case Day => case Week => case Month => case Quarter => case Year =>
  }

  /** Every interval is recognised from its own code. */
  lemma ParseIntervalCode(i: Interval)
    requires i.multiplier >= 1
    ensures ParseInterval(IntervalCode(i)) == Some(i)
  {
    var name := UnitName(i.unit);
    var suffix := if i.multiplier == 1 then "" else ToDecimal(i.multiplier);
    var code := name + suffix;
    UnitNameRead(i.unit);
    NameLengthSplit(name, suffix);
    assert code[..|name|] == name && code[|name|..] == suffix;
    if i.multiplier != 1 {
      ParseToDecimal(i.multiplier);
    }
  }

  /** The minutes spanned by `k` consecutive units, added up one unit at a time. */
  function SpanMinutes(u: IntervalUnit, k: nat): nat
    decreases k
  {
    if k == 0 then 0 else SpanMinutes(u, k - 1) + BaseMinutes(u)
  }

  lemma {:induction false} MinutesIsSpan(u: IntervalUnit, k: nat)
    ensures Minutes(Interval(u, k)) == SpanMinutes(u, k)
    decreases k
  {
    if k > 0 {
      MinutesIsSpan(u, k - 1);
    }
  }

  /**
   * The code of `k` units reads back as those `k` units, lasting `k` times
   * the unit's minutes: exactly the span of `k` consecutive units.
   */
  lemma CodeMinutes(u: IntervalUnit, k: nat)
    requires k >= 1
    ensures var r := ParseInterval(IntervalCode(Interval(u, k)));
      && r == Some(Interval(u, k))
      && Minutes(r.value) == k * BaseMinutes(u)
      && Minutes(r.value) == SpanMinutes(u, k)
  {
    ParseIntervalCode(Interval(u, k));
    MinutesIsSpan(u, k);
  }

  /** The hourly rows of the interval table: code, unit, multiplier and minutes. */
  lemma HourlyIntervalTable()
    ensures ParseInterval("HOUR") == Some(Interval(Hour, 1)) && Minutes(Interval(Hour, 1)) == 60
    ensures ParseInterval("HOUR2") == Some(Interval(Hour, 2)) && Minutes(Interval(Hour, 2)) == 120
    ensures ParseInterval("HOUR4") == Some(Interval(Hour, 4)) && Minutes(Interval(Hour, 4)) == 240
    ensures ParseInterval("HOUR8") == Some(Interval(Hour, 8)) && Minutes(Interval(Hour, 8)) == 480
  {
    TableRow(Interval(Hour, 1), "HOUR");
    TableRow(Interval(Hour, 2), "HOUR2");
    TableRow(Interval(Hour, 4), "HOUR4");
    TableRow(Interval(Hour, 8), "HOUR8");
  }

  /** The daily and weekly rows of the interval table. */
  lemma DailyIntervalTable()
    ensures ParseInterval("DAY") == Some(Interval(Day, 1)) && Minutes(Interval(Day, 1)) == 1440
    ensures ParseInterval("DAY2") == Some(Interval(Day, 2)) && Minutes(Interval(Day, 2)) == 2880
    ensures ParseInterval("WEEK") == Some(Interval(Week, 1)) && Minutes(Interval(Week, 1)) == 10080
    ensures ParseInterval("WEEK2") == Some(Interval(Week, 2)) && Minutes(Interval(Week, 2)) == 20160
  {
    TableRow(Interval(Day, 1), "DAY");
    TableRow(Interval(Day, 2), "DAY2");
    TableRow(Interval(Week, 1), "WEEK");
    TableRow(Interval(Week, 2), "WEEK2");
  }

  /** The monthly, quarterly and yearly rows of the interval table. */
  lemma CalendarIntervalTable()
    ensures ParseInterval("MONTH") == Some(Interval(Month, 1)) && Minutes(Interval(Month, 1)) == 44640
    ensures ParseInterval("QUARTER") == Some(Interval(Quarter, 1)) && Minutes(Interval(Quarter, 1)) == 133920
    ensures ParseInterval("YEAR") == Some(Interval(Year, 1)) && Minutes(Interval(Year, 1)) == 525600
  {
    TableRow(Interval(Month, 1), "MONTH");
    TableRow(Interval(Quarter, 1), "QUARTER");
    TableRow(Interval(Year, 1), "YEAR");
  }

  lemma TableRow(i: Interval, code: string)
    requires i.multiplier >= 1 && IntervalCode(i) == code
    ensures ParseInterval(code) == Some(i)
  {
    ParseIntervalCode(i);
  }
}
