/** Wire times: instants of millisecond resolution in the fixed layout 2006-01-02T15:04:05.000Z.
    Within the years 0 to 9999 their strings compare as the instants do (section 5.1 of RFC 3339),
    which is what every comparison of wire strings in the install workflow relies on. */
module WireTimes {
  import opened Lib

  datatype Moment = Moment(year: nat, month: nat, day: nat, hour: nat, minute: nat, second: nat, milli: nat)

  // ---------- the proleptic Gregorian calendar in UTC ----------

  predicate Leap(year: nat) { year % 4 == 0 && (year % 100 != 0 || year % 400 == 0) }

  /** Days of the year before the first of a month, in a common year. */
  const BEFORE_MONTH: seq<nat> := [0, 31, 59, 90, 120, 151, 181, 212, 243, 273, 304, 334, 365]

  function DaysBeforeMonth(year: nat, month: nat): nat
    requires 1 <= month <= 13
  {
    BEFORE_MONTH[month - 1] + if month > 2 && Leap(year) then 1 else 0
  }

  /** Days before the first of January, counted from the year 0. */
  function DaysBeforeYear(year: nat): int {
    365 * year + (year + 3) / 4 - (year + 99) / 100 + (year + 399) / 400
  }

  predicate Valid(m: Moment) {
    && m.year <= 9999 && 1 <= m.month <= 12
    && 1 <= m.day <= DaysBeforeMonth(m.year, m.month + 1) - DaysBeforeMonth(m.year, m.month)
    && m.hour < 24 && m.minute < 60 && m.second < 60 && m.milli < 1000
  }

  function Day(m: Moment): int
    requires Valid(m)
  {
    DaysBeforeYear(m.year) + DaysBeforeMonth(m.year, m.month) + m.day - 1
  }

  /** Milliseconds since the start of the year 0. */
  function Instant(m: Moment): int
    requires Valid(m)
  {
    (((Day(m) * 24 + m.hour) * 60 + m.minute) * 60 + m.second) * 1000 + m.milli
  }

  lemma MultiplesNest(year: nat)
    ensures year % 100 == 0 ==> year % 4 == 0
    ensures year % 400 == 0 ==> year % 100 == 0
  {
    assert year == 100 * (year / 100) + year % 100 && 100 * (year / 100) == 4 * (25 * (year / 100));
    assert year == 400 * (year / 400) + year % 400 && 400 * (year / 400) == 100 * (4 * (year / 400));
  }

  lemma NextYear(year: nat)
    ensures DaysBeforeYear(year + 1) == DaysBeforeYear(year) + DaysBeforeMonth(year, 13)
  {
    assert (year + 4) / 4 == (year + 3) / 4 + if year % 4 == 0 then 1 else 0;
    assert (year + 100) / 100 == (year + 99) / 100 + if year % 100 == 0 then 1 else 0;
    assert (year + 400) / 400 == (year + 399) / 400 + if year % 400 == 0 then 1 else 0;
    MultiplesNest(year);
  }

  lemma {:induction false} YearsFollow(a: nat, b: nat)
    requires a < b
    ensures DaysBeforeYear(a) + DaysBeforeMonth(a, 13) <= DaysBeforeYear(b)
    decreases b
  {
    NextYear(b - 1);
    if a + 1 < b { YearsFollow(a, b - 1); }
  }

  lemma MonthsFollow(year: nat, a: nat, b: nat)
    requires 1 <= a < b <= 13
    ensures DaysBeforeMonth(year, a + 1) <= DaysBeforeMonth(year, b)
  {
  }

  function Fields(m: Moment): seq<nat> { [m.year, m.month, m.day, m.hour, m.minute, m.second, m.milli] }

  predicate FieldsLess(f: seq<nat>, g: seq<nat>)
    requires |f| == |g|
  {
    f != [] && (f[0] < g[0] || (f[0] == g[0] && FieldsLess(f[1..], g[1..])))
  }

  lemma EarlierDay(a: Moment, b: Moment)
    requires Valid(a) && Valid(b)
    ensures a.year < b.year || (a.year == b.year && (a.month < b.month || (a.month == b.month && a.day < b.day))) ==> Day(a) < Day(b)
  {
    if a.year < b.year {
      YearsFollow(a.year, b.year);
      if a.month < 12 { MonthsFollow(a.year, a.month, 13); }
    } else if a.month < b.month {
      MonthsFollow(a.year, a.month, b.month);
    }
  }

  lemma EarlierFields(a: Moment, b: Moment)
    requires Valid(a) && Valid(b)
    ensures FieldsLess(Fields(a), Fields(b)) <==>
      a.year < b.year || (a.year == b.year && (a.month < b.month || (a.month == b.month && (a.day < b.day || (a.day == b.day
      && (a.hour < b.hour || (a.hour == b.hour && (a.minute < b.minute || (a.minute == b.minute
      && (a.second < b.second || (a.second == b.second && a.milli < b.milli)))))))))))
  {
    var f, g := Fields(a), Fields(b);
    assert f[1..][1..] == f[2..] && g[1..][1..] == g[2..];
    assert f[2..][1..] == f[3..] && g[2..][1..] == g[3..];
    assert f[3..][1..] == f[4..] && g[3..][1..] == g[4..];
    assert f[4..][1..] == f[5..] && g[4..][1..] == g[5..];
    assert f[5..][1..] == f[6..] && g[5..][1..] == g[6..];
    assert FieldsLess(f[6..], g[6..]) == (a.milli < b.milli);
    assert FieldsLess(f[5..], g[5..]) == (a.second < b.second || (a.second == b.second && FieldsLess(f[6..], g[6..])));
    assert FieldsLess(f[4..], g[4..]) == (a.minute < b.minute || (a.minute == b.minute && FieldsLess(f[5..], g[5..])));
    assert FieldsLess(f[3..], g[3..]) == (a.hour < b.hour || (a.hour == b.hour && FieldsLess(f[4..], g[4..])));
    assert FieldsLess(f[2..], g[2..]) == (a.day < b.day || (a.day == b.day && FieldsLess(f[3..], g[3..])));
    assert FieldsLess(f[1..], g[1..]) == (a.month < b.month || (a.month == b.month && FieldsLess(f[2..], g[2..])));
  }

  lemma FieldsOrderInstants(a: Moment, b: Moment)
    requires Valid(a) && Valid(b)
    ensures FieldsLess(Fields(a), Fields(b)) <==> Instant(a) < Instant(b)
  {
    EarlierFields(a, b);
    EarlierFields(b, a);
    EarlierDay(a, b);
    EarlierDay(b, a);
  }

  // ---------- the layout ----------

  function Pow10(width: nat): nat { if width == 0 then 1 else 10 * Pow10(width - 1) }

  function Digits(n: nat, width: nat): (s: string)
    ensures |s| == width
    decreases width
  {
    if width == 0 then "" else Digits(n / 10, width - 1) + ["0123456789"[n % 10]]
  }

  lemma {:induction false} DigitsOrder(n: nat, k: nat, width: nat)
    requires n < Pow10(width) && k < Pow10(width)
    ensures (Less(Digits(n, width), Digits(k, width)) <==> n < k) && (Digits(n, width) == Digits(k, width) <==> n == k)
    decreases width
  {
    if width > 0 {
      DigitsOrder(n / 10, k / 10, width - 1);
      var p, q, x, y := Digits(n / 10, width - 1), Digits(k / 10, width - 1), ["0123456789"[n % 10]], ["0123456789"[k % 10]];
      LessByPrefix(p, q, x, y);
      assert (p + x)[..width - 1] == p && (q + y)[..width - 1] == q && (p + x)[width - 1] == x[0] && (q + y)[width - 1] == y[0];
      DigitOrder(n % 10, k % 10);
    }
  }

  lemma DigitOrder(n: nat, k: nat)
    requires n < 10 && k < 10
    ensures Less(["0123456789"[n]], ["0123456789"[k]]) <==> n < k
    ensures "0123456789"[n] == "0123456789"[k] <==> n == k
  {
  }

  /** A field's width and the text behind it. */
  datatype Column = Column(width: nat, suffix: string)

  const LAYOUT := [Column(4, "-"), Column(2, "-"), Column(2, "T"), Column(2, ":"), Column(2, ":"), Column(2, "."), Column(3, "Z")]

  function Render(fields: seq<nat>, layout: seq<Column>): string
    requires |fields| == |layout|
    decreases |fields|
  {
    if fields == [] then "" else Digits(fields[0], layout[0].width) + (layout[0].suffix + Render(fields[1..], layout[1..]))
  }

  ghost predicate Fits(fields: seq<nat>, layout: seq<Column>) {
    |fields| == |layout| && forall i :: 0 <= i < |fields| ==> fields[i] < Pow10(layout[i].width)
  }

  /** Fixed widths make the strings compare field by field. */
  lemma {:induction false} RenderOrder(f: seq<nat>, g: seq<nat>, layout: seq<Column>)
    requires Fits(f, layout) && Fits(g, layout)
    ensures Less(Render(f, layout), Render(g, layout)) <==> FieldsLess(f, g)
    decreases |f|
  {
    if f != [] {
      var c, rest := layout[0], layout[1..];
      DigitsOrder(f[0], g[0], c.width);
      LessByPrefix(Digits(f[0], c.width), Digits(g[0], c.width), c.suffix + Render(f[1..], rest), c.suffix + Render(g[1..], rest));
      LessByPrefix(c.suffix, c.suffix, Render(f[1..], rest), Render(g[1..], rest));
      NotLessSelf(c.suffix);
      RenderOrder(f[1..], g[1..], rest);
    }
  }

  lemma NotLessSelf(a: string)
    ensures !Less(a, a)
  {
    if Less(a, a) { LessIsAsymmetric(a, a); }
  }

  function WireTime(m: Moment): string
    requires Valid(m)
  {
    Render(Fields(m), LAYOUT)
  }

  lemma MomentsFit(m: Moment)
    requires Valid(m)
    ensures Fits(Fields(m), LAYOUT)
  {
    assert Pow10(2) == 10 * Pow10(1) && Pow10(3) == 10 * Pow10(2) && Pow10(4) == 10 * Pow10(3);
  }

  /** Wire strings compare exactly as the instants they stand for. */
  lemma WireTimesCompare(a: Moment, b: Moment)
    requires Valid(a) && Valid(b)
    ensures Less(WireTime(a), WireTime(b)) <==> Instant(a) < Instant(b)
  {
    MomentsFit(a);
    MomentsFit(b);
    RenderOrder(Fields(a), Fields(b), LAYOUT);
    FieldsOrderInstants(a, b);
  }

  function LaterWireTime(left: string, right: string): string { if Less(left, right) then right else left }

  // ---------- instants as moments ----------

  /** The year 10000 starts here. */
  const YEARS_END: int := DaysBeforeYear(10_000) * 86_400_000

  predicate InYears(t: int) { 0 <= t < YEARS_END }

  function YearFrom(day: nat, year: nat): (y: nat)
    requires DaysBeforeYear(year) <= day
    ensures DaysBeforeYear(y) <= day < DaysBeforeYear(y + 1)
    decreases day - DaysBeforeYear(year)
  {
    NextYear(year);
    if day < DaysBeforeYear(year + 1) then year else YearFrom(day, year + 1)
  }

  function MonthFrom(year: nat, day: nat, month: nat): (m: nat)
    requires 1 <= month <= 12 && DaysBeforeMonth(year, month) <= day < DaysBeforeMonth(year, 13)
    ensures 1 <= m <= 12 && DaysBeforeMonth(year, m) <= day < DaysBeforeMonth(year, m + 1)
    decreases 12 - month
  {
    if day < DaysBeforeMonth(year, month + 1) then month else MonthFrom(year, day, month + 1)
  }

  lemma YearsInRange(day: nat, year: nat)
    requires DaysBeforeYear(year) <= day < DaysBeforeYear(10_000)
    ensures year <= 9999
  {
    if year > 10_000 { YearsFollow(10_000, year); }
  }

  /** The civil moment of an instant: the inverse of `Instant` within the years 0 to 9999. */
  function MomentOf(t: int): (m: Moment)
    requires InYears(t)
    ensures Valid(m) && Instant(m) == t
  {
    var seconds := t / 1000;
    var minutes := seconds / 60;
    var hours := minutes / 60;
    var days: nat := hours / 24;
    var year := YearFrom(days, 0);
    NextYear(year);
    YearsInRange(days, year);
    var day := days - DaysBeforeYear(year);
    var month := MonthFrom(year, day, 1);
    Moment(year, month, day - DaysBeforeMonth(year, month) + 1, hours % 24, minutes % 60, seconds % 60, t % 1000)
  }

  /** A formatter of instants that has the fixed layout wherever the layout is fixed. */
  ghost predicate Renders(wire: int -> string) {
    forall t :: InYears(t) ==> wire(t) == WireTime(MomentOf(t))
  }

  /** Comparing what such a formatter yields is comparing the instants. */
  lemma RenderedCompare(wire: int -> string, a: int, b: int)
    requires Renders(wire) && InYears(a) && InYears(b)
    ensures (Less(wire(a), wire(b)) <==> a < b) && (wire(a) == wire(b) <==> a == b)
    ensures LaterWireTime(wire(a), wire(b)) == wire(Max(a, b))
  {
    WireTimesCompare(MomentOf(a), MomentOf(b));
    WireTimesCompare(MomentOf(b), MomentOf(a));
    NotLessSelf(wire(a));
  }
}
