/**
 * The `lastChange` timestamp of a dashboard, sent in the IMF-fixdate form of
 * section 7.1.1.1 of RFC 7231 (`Mon, 16 Apr 2012 10:17:26 GMT`), and the
 * calendar fields it denotes (always GMT, whole seconds).
 */
module HttpDate {
  import opened Wrappers
  import opened Decimal

  /** A GMT calendar instant; `month` runs 1..12 (Java's `Calendar` counts April as 3, here it is 4). */
  datatype DateTime = DateTime(year: nat, month: nat, day: nat, hour: nat, minute: nat, second: nat)

  predicate IsLeapYear(y: nat) {
    y % 4 == 0 && (y % 100 != 0 || y % 400 == 0)
  }

  function DaysInMonth(y: nat, m: nat): nat
    requires 1 <= m <= 12
  {
    if m == 2 then (if IsLeapYear(y) then 29 else 28)
    else if m == 4 || m == 6 || m == 9 || m == 11 then 30
    else 31
  }

  /** A real instant that the four-digit-year form can express. */
  predicate Valid(d: DateTime) {
    && 1 <= d.year <= 9999
    && 1 <= d.month <= 12
    && 1 <= d.day <= DaysInMonth(d.year, d.month)
    && d.hour < 24 && d.minute < 60 && d.second < 60
  }

  /** Day of the week by Zeller's congruence: 0 is Saturday, 1 Sunday, 2 Monday, and so on. */
  function Weekday(d: DateTime): (w: nat)
    requires Valid(d)
    ensures w < 7
  {
    var m := if d.month < 3 then d.month + 12 else d.month;
    var y := if d.month < 3 then d.year - 1 else d.year;
    var k, j := y % 100, y / 100;
    (d.day + (13 * (m + 1)) / 5 + k + k / 4 + j / 4 + 5 * j) % 7
  }

  function DayName(w: nat): (name: string)
    requires w < 7
    ensures |name| == 3 && IsDayName(name)
  {
    match w
    case 0 => "Sat" case 1 => "Sun" case 2 => "Mon" case 3 => "Tue"
    case 4 => "Wed" case 5 => "Thu" case _ => "Fri"
  }

  predicate IsDayName(name: string) {
    name == "Mon" || name == "Tue" || name == "Wed" || name == "Thu"
    || name == "Fri" || name == "Sat" || name == "Sun"
  }

  function MonthName(m: nat): (name: string)
    requires 1 <= m <= 12
    ensures |name| == 3
  {
    match m
    case 1 => "Jan" case 2 => "Feb" case 3 => "Mar" case 4 => "Apr"
    case 5 => "May" case 6 => "Jun" case 7 => "Jul" case 8 => "Aug"
    case 9 => "Sep" case 10 => "Oct" case 11 => "Nov" case _ => "Dec"
  }

  /** The month (1..12) a three-letter English abbreviation names. */
  function MonthNumber(name: string): (r: Option<nat>)
    ensures r.Some? ==> 1 <= r.value <= 12 && MonthName(r.value) == name
  {
    if name == "Jan" then Some(1) else if name == "Feb" then Some(2)
    else if name == "Mar" then Some(3) else if name == "Apr" then Some(4)
    else if name == "May" then Some(5) else if name == "Jun" then Some(6)
    else if name == "Jul" then Some(7) else if name == "Aug" then Some(8)
    else if name == "Sep" then Some(9) else if name == "Oct" then Some(10)
    else if name == "Nov" then Some(11) else if name == "Dec" then Some(12)
    else None
  }

  function Read2(a: char, b: char): nat
    requires IsDigit(a) && IsDigit(b)
  {
    DigitValue(a) * 10 + DigitValue(b)
  }

  function Read4(a: char, b: char, c: char, e: char): nat
    requires IsDigit(a) && IsDigit(b) && IsDigit(c) && IsDigit(e)
  {
    Read2(a, b) * 100 + Read2(c, e)
  }

  /** The day-name field of a fixdate. */
  function DayField(s: string): string
    requires |s| == 29
  {
    [s[0], s[1], s[2]]
  }

  /** The month-name field of a fixdate. */
  function MonthField(s: string): string
    requires |s| == 29
  {
    [s[8], s[9], s[10]]
  }

  /** The fixed layout `www, DD mmm YYYY hh:mm:ss GMT`, 29 characters long. */
  predicate HasFixdateShape(s: string) {
    && |s| == 29
    && IsDayName(DayField(s))
    && MonthNumber(MonthField(s)).Some?
    && HasFixdateFrame(s)
  }

  /** The digits and punctuation around the two name fields. */
  predicate HasFixdateFrame(s: string)
    requires |s| == 29
  {
    && s[3] == ',' && s[4] == ' '
    && IsDigit(s[5]) && IsDigit(s[6])
    && s[7] == ' '
    && s[11] == ' '
    && IsDigit(s[12]) && IsDigit(s[13]) && IsDigit(s[14]) && IsDigit(s[15])
    && s[16] == ' '
    && IsDigit(s[17]) && IsDigit(s[18]) && s[19] == ':'
    && IsDigit(s[20]) && IsDigit(s[21]) && s[22] == ':'
    && IsDigit(s[23]) && IsDigit(s[24])
    && s[25] == ' ' && s[26] == 'G' && s[27] == 'M' && s[28] == 'T'
  }

  /**
   * Reads an IMF-fixdate. Text of another shape, or one naming an instant
   * that does not exist, is rejected; the day name is not checked against
   * the date.
   */
  function Parse(s: string): (r: Option<DateTime>)
    ensures r.Some? ==> Valid(r.value) && HasFixdateShape(s)
  {
    if !HasFixdateShape(s) then None
    else
      var month := MonthNumber(MonthField(s)).value;
      var d := DateTime(Read4(s[12], s[13], s[14], s[15]), month, Read2(s[5], s[6]),
                        Read2(s[17], s[18]), Read2(s[20], s[21]), Read2(s[23], s[24]));
      if Valid(d) then Some(d) else None
  }

  /** The last decimal digit of `n`. */
  function Digit(n: nat): (c: char)
    ensures IsDigit(c)
  {
    DigitChar(n % 10)
  }

  /** Renders a valid instant as an IMF-fixdate, with its true day name. */
  function Format(d: DateTime): (s: string)
    requires Valid(d)
    ensures |s| == 29
  {
    Layout(DayName(Weekday(d)), MonthName(d.month), Numerals(d))
  }

  /** The twelve digits of a rendered instant: day, four-digit year, hour, minute, second. */
  function Numerals(d: DateTime): (n: string)
    ensures |n| == 12
    ensures forall i :: 0 <= i < 12 ==> IsDigit(n[i])
  {
    [Digit(d.day / 10), Digit(d.day),
     Digit(d.year / 100 / 10), Digit(d.year / 100), Digit(d.year % 100 / 10), Digit(d.year % 100),
     Digit(d.hour / 10), Digit(d.hour),
     Digit(d.minute / 10), Digit(d.minute),
     Digit(d.second / 10), Digit(d.second)]
  }

  /** The fixdate layout around a day name, a month name and the numerals. */
  function Layout(w: string, m: string, n: string): (s: string)
    requires |w| == 3 && |m| == 3 && |n| == 12
    ensures |s| == 29
  {
    [w[0], w[1], w[2], ',', ' ', n[0], n[1], ' ',
     m[0], m[1], m[2], ' ', n[2], n[3], n[4], n[5], ' ',
     n[6], n[7], ':', n[8], n[9], ':', n[10], n[11], ' ', 'G', 'M', 'T']
  }

  lemma LayoutShape(w: string, m: string, n: string)
    requires |w| == 3 && |m| == 3 && |n| == 12
    requires IsDayName(w) && MonthNumber(m).Some? && forall i :: 0 <= i < 12 ==> IsDigit(n[i])
    ensures HasFixdateShape(Layout(w, m, n))
    ensures MonthField(Layout(w, m, n)) == m
  {
    LayoutFields(w, m, n);
    LayoutFrame(w, m, n);
  }

  lemma LayoutFields(w: string, m: string, n: string)
    requires |w| == 3 && |m| == 3 && |n| == 12
    ensures DayField(Layout(w, m, n)) == w && MonthField(Layout(w, m, n)) == m
  {
  }

  lemma LayoutFrame(w: string, m: string, n: string)
    requires |w| == 3 && |m| == 3 && |n| == 12
    requires forall i :: 0 <= i < 12 ==> IsDigit(n[i])
    ensures HasFixdateFrame(Layout(w, m, n))
  {
    var s := Layout(w, m, n);
    assert s[5] == n[0] && s[6] == n[1];
    assert s[12] == n[2] && s[13] == n[3] && s[14] == n[4] && s[15] == n[5];
    assert s[17] == n[6] && s[18] == n[7] && s[20] == n[8] && s[21] == n[9] && s[23] == n[10] && s[24] == n[11];
  }

  lemma MonthNumberName(m: nat)
    requires 1 <= m <= 12
    ensures MonthNumber(MonthName(m)) == Some(m)
  {
  }

  lemma ReadTwoDigits(n: nat)
    requires n < 100
    ensures Read2(Digit(n / 10), Digit(n)) == n
  {
  }

  lemma ReadFourDigits(n: nat)
    requires n < 10000
    ensures Read4(Digit(n / 100 / 10), Digit(n / 100), Digit(n % 100 / 10), Digit(n % 100)) == n
  {
    ReadTwoDigits(n / 100);
    ReadTwoDigits(n % 100);
  }

  /** A rendered instant has the fixdate layout and names its own month. */
  lemma FormatShape(d: DateTime)
    requires Valid(d)
    ensures HasFixdateShape(Format(d))
    ensures MonthNumber(MonthField(Format(d))) == Some(d.month)
  {
    MonthNumberName(d.month);
    LayoutShape(DayName(Weekday(d)), MonthName(d.month), Numerals(d));
  }

  /** Reading a rendered instant gives back the same calendar fields. */
  lemma ParseFormat(d: DateTime)
    requires Valid(d)
    ensures Parse(Format(d)) == Some(d)
  {
    var s := Format(d);
    FormatShape(d);
    ReadTwoDigits(d.day);
    ReadTwoDigits(d.hour);
    ReadTwoDigits(d.minute);
    ReadTwoDigits(d.second);
    ReadFourDigits(d.year);
    var e := DateTime(Read4(s[12], s[13], s[14], s[15]), d.month, Read2(s[5], s[6]),
                      Read2(s[17], s[18]), Read2(s[20], s[21]), Read2(s[23], s[24]));
    assert e == d;
  }

  lemma TwoDigitsRead(a: char, b: char)
    requires IsDigit(a) && IsDigit(b)
    ensures Digit(Read2(a, b) / 10) == a && Digit(Read2(a, b)) == b
  {
  }

  lemma FourDigitsRead(a: char, b: char, c: char, e: char)
    requires IsDigit(a) && IsDigit(b) && IsDigit(c) && IsDigit(e)
    ensures var n := Read4(a, b, c, e);
      Digit(n / 100 / 10) == a && Digit(n / 100) == b && Digit(n % 100 / 10) == c && Digit(n % 100) == e
  {
    TwoDigitsRead(a, b);
    TwoDigitsRead(c, e);
    var n := Read4(a, b, c, e);
    assert n / 100 == Read2(a, b) && n % 100 == Read2(c, e);
  }

  /**
   * Every accepted text spells out the fields it is read as: it is the
   * layout of its own day name, the month and the numerals of the result,
   * and it is exactly the rendering of the result when its day name is the
   * true one.
   */
  lemma ParseLayout(s: string)
    requires Parse(s).Some?
    ensures Layout(DayField(s), MonthField(s), Numerals(Parse(s).value)) == s
    ensures DayField(s) == DayName(Weekday(Parse(s).value)) ==> Format(Parse(s).value) == s
  {
    var d := Parse(s).value;
    assert HasFixdateFrame(s);
    assert MonthName(d.month) == MonthField(s);
    assert d.day == Read2(s[5], s[6]) && d.year == Read4(s[12], s[13], s[14], s[15]);
    assert d.hour == Read2(s[17], s[18]) && d.minute == Read2(s[20], s[21]) && d.second == Read2(s[23], s[24]);
    TwoDigitsRead(s[5], s[6]);
    FourDigitsRead(s[12], s[13], s[14], s[15]);
    TwoDigitsRead(s[17], s[18]);
    TwoDigitsRead(s[20], s[21]);
    TwoDigitsRead(s[23], s[24]);
    var n := Numerals(d);
    assert n == [s[5], s[6], s[12], s[13], s[14], s[15], s[17], s[18], s[20], s[21], s[23], s[24]];
    var t := Layout(DayField(s), MonthField(s), n);
    assert forall i :: 0 <= i < 29 ==> t[i] == s[i];
  }

  /** The dashboard timestamp of the storage tests: 16 April 2012, 10:17:26.000 GMT. */
  lemma LastChangeExample()
    ensures Parse("Mon, 16 Apr 2012 10:17:26 GMT") == Some(DateTime(2012, 4, 16, 10, 17, 26))
  {
    var d := DateTime(2012, 4, 16, 10, 17, 26);
    assert Weekday(d) == 2;
    assert Digit(1) == '1' && Digit(16) == '6' && Digit(2) == '2' && Digit(20) == '0'
      && Digit(12) == '2' && Digit(10) == '0' && Digit(17) == '7' && Digit(26) == '6';
    assert Numerals(d) == "162012101726";
    assert Format(d) == Layout("Mon", "Apr", Numerals(d));
    assert Layout("Mon", "Apr", Numerals(d)) == "Mon, 16 Apr 2012 10:17:26 GMT";
    ParseFormat(d);
  }
}
