/**
 Proleptic Gregorian dates, UTC instants as integer microseconds since the Unix
 epoch, and the fixed timestamp text used by canonical evidence.
 */
module Calendar {
  import opened Outcomes
  import opened Text

  const SECOND := 1_000_000
  const DAY_SECONDS := 86_400
  const DAY := DAY_SECONDS * SECOND
  /** Ordinal of 1970-01-01; ordinal 1 is 0001-01-01. */
  const EPOCH_ORDINAL := 719_163

  predicate IsLeap(year: int) {
    year % 4 == 0 && (year % 100 != 0 || year % 400 == 0)
  }

  function YearLength(year: int): int {
    if IsLeap(year) then 366 else 365
  }

  function MonthLength(year: int, month: int): (n: int)
    ensures 28 <= n <= 31
  {
    if month == 2 then (if IsLeap(year) then 29 else 28)
    else if month in {4, 6, 9, 11} then 30
    else 31
  }

  function DaysBeforeYear(year: int): int {
    var y := year - 1;
    y * 365 + y / 4 - y / 100 + y / 400
  }

  function DaysBeforeMonth(year: int, month: int): (n: int)
    requires 1 <= month <= 13
    ensures 0 <= n <= 31 * (month - 1)
    decreases month
  {
    if month == 1 then 0 else DaysBeforeMonth(year, month - 1) + MonthLength(year, month - 1)
  }

  /** Days before each month, with one more after February of a leap year. */
  lemma MonthTable(year: int)
    ensures DaysBeforeMonth(year, 1) == 0 && DaysBeforeMonth(year, 2) == 31
    ensures var leap := if IsLeap(year) then 1 else 0;
      && DaysBeforeMonth(year, 3) == 59 + leap && DaysBeforeMonth(year, 4) == 90 + leap
      && DaysBeforeMonth(year, 5) == 120 + leap && DaysBeforeMonth(year, 6) == 151 + leap
      && DaysBeforeMonth(year, 7) == 181 + leap && DaysBeforeMonth(year, 8) == 212 + leap
      && DaysBeforeMonth(year, 9) == 243 + leap && DaysBeforeMonth(year, 10) == 273 + leap
      && DaysBeforeMonth(year, 11) == 304 + leap && DaysBeforeMonth(year, 12) == 334 + leap
  {
    hide IsLeap;
    assert DaysBeforeMonth(year, 4) == 90 + if IsLeap(year) then 1 else 0;
    assert DaysBeforeMonth(year, 6) == 151 + if IsLeap(year) then 1 else 0;
    assert DaysBeforeMonth(year, 8) == 212 + if IsLeap(year) then 1 else 0;
    assert DaysBeforeMonth(year, 10) == 273 + if IsLeap(year) then 1 else 0;
  }

  lemma TwelveMonths(year: int)
    ensures DaysBeforeMonth(year, 13) == YearLength(year)
  {
    hide IsLeap;
    MonthTable(year);
  }

  /** A proleptic Gregorian date. */
  datatype Date = Date(year: int, month: int, day: int) {
    predicate Valid() {
      1 <= year && 1 <= month <= 12 && 1 <= day <= MonthLength(year, month)
    }

    function Ordinal(): int
      requires Valid()
    {
      DaysBeforeYear(year) + DaysBeforeMonth(year, month) + day
    }
  }

  lemma DivStep(y: int, k: int)
    requires k >= 2
    ensures (y + 1) / k == y / k + if (y + 1) % k == 0 then 1 else 0
  {
    var q, r := y / k, y % k;
    if r + 1 == k {
      assert y + 1 == k * (q + 1);
      DivUnique(y + 1, k, q + 1, 0);
    } else {
      DivUnique(y + 1, k, q, r + 1);
    }
  }

  lemma DivUnique(x: int, k: int, q: int, r: int)
    requires k >= 1 && 0 <= r < k && x == k * q + r
    ensures x / k == q && x % k == r
  {
    var d := x / k - q;
    assert k * d == r - x % k;
    assert d >= 1 ==> k * d >= k;
    assert d <= -1 ==> k * d <= -k;
  }

  lemma CenturiesDivide(year: int)
    ensures year % 400 == 0 ==> year % 100 == 0
    ensures year % 100 == 0 ==> year % 4 == 0
  {
    if year % 400 == 0 { DivUnique(year, 100, 4 * (year / 400), 0); }
    if year % 100 == 0 { DivUnique(year, 4, 25 * (year / 100), 0); }
  }

  lemma YearStep(year: int)
    ensures DaysBeforeYear(year + 1) == DaysBeforeYear(year) + YearLength(year)
  {
    var y := year - 1;
    CenturiesDivide(year);
    assert year / 4 == y / 4 + if year % 4 == 0 then 1 else 0 by { DivStep(y, 4); }
    assert year / 100 == y / 100 + if year % 100 == 0 then 1 else 0 by { DivStep(y, 100); }
    assert year / 400 == y / 400 + if year % 400 == 0 then 1 else 0 by { DivStep(y, 400); }
  }

  lemma {:induction false} YearsAscend(a: int, b: int)
    requires a <= b
    ensures DaysBeforeYear(a) + 365 * (b - a) <= DaysBeforeYear(b) <= DaysBeforeYear(a) + 366 * (b - a)
    decreases b - a
  {
    if a < b {
      YearsAscend(a, b - 1);
      YearStep(b - 1);
    }
  }

  lemma {:induction false} MonthsAscend(year: int, a: int, b: int)
    requires 1 <= a <= b <= 13
    ensures DaysBeforeMonth(year, a) + 28 * (b - a) <= DaysBeforeMonth(year, b)
    ensures a < b ==> DaysBeforeMonth(year, a) + MonthLength(year, a) <= DaysBeforeMonth(year, b)
    decreases b - a
  {
    if a < b {
      MonthsAscend(year, a, b - 1);
    }
  }

  /** The year whose days include ordinal `n`, searching upward. */
  function YearOf(n: int, from: int): (year: int)
    requires DaysBeforeYear(from) < n
    ensures from <= year && DaysBeforeYear(year) < n <= DaysBeforeYear(year + 1)
    decreases n - DaysBeforeYear(from)
  {
    YearStep(from);
    if n <= DaysBeforeYear(from + 1) then from else YearOf(n, from + 1)
  }

  function MonthOf(year: int, d: int, from: int): (month: int)
    requires 1 <= from <= 12 && DaysBeforeMonth(year, from) < d <= DaysBeforeMonth(year, 13)
    ensures 1 <= month <= 12
    ensures DaysBeforeMonth(year, month) < d <= DaysBeforeMonth(year, month + 1)
    decreases 12 - from
  {
    if d <= DaysBeforeMonth(year, from + 1) then from else MonthOf(year, d, from + 1)
  }

  lemma YearContains(n: int, year: int)
    requires DaysBeforeYear(year) < n <= DaysBeforeYear(year + 1)
    ensures 0 < n - DaysBeforeYear(year) <= DaysBeforeMonth(year, 13)
  {
    hide DaysBeforeYear, YearLength;
    YearStep(year);
    TwelveMonths(year);
  }

  lemma DayOfMonth(n: int, year: int, month: int)
    requires year >= 1 && 1 <= month <= 12
    requires DaysBeforeMonth(year, month) < n - DaysBeforeYear(year) <= DaysBeforeMonth(year, month + 1)
    ensures var d := Date(year, month, n - DaysBeforeYear(year) - DaysBeforeMonth(year, month));
            d.Valid() && d.Ordinal() == n
  {
    hide DaysBeforeYear, MonthLength;
  }

  function FromOrdinal(n: int): (d: Date)
    requires n >= 1
    ensures d.Valid() && d.Ordinal() == n
  {
    var year := YearOf(n, 1);
    YearContains(n, year);
    var month := MonthOf(year, n - DaysBeforeYear(year), 1);
    DayOfMonth(n, year, month);
    Date(year, month, n - DaysBeforeYear(year) - DaysBeforeMonth(year, month))
  }

  /** Ordinals name dates uniquely. */
  lemma OrdinalInjective(a: Date, b: Date)
    requires a.Valid() && b.Valid() && a.Ordinal() == b.Ordinal()
    ensures a == b
  {
    hide DaysBeforeYear, YearLength, MonthLength, DaysBeforeMonth;
    YearBounds(a);
    YearBounds(b);
    if a.year < b.year {
      YearsAscend(a.year + 1, b.year);
    } else if b.year < a.year {
      YearsAscend(b.year + 1, a.year);
    } else if a.month < b.month {
      MonthsAscend(a.year, a.month, b.month);
    } else if b.month < a.month {
      MonthsAscend(a.year, b.month, a.month);
    }
  }

  lemma YearBounds(d: Date)
    requires d.Valid()
    ensures DaysBeforeYear(d.year) < d.Ordinal() <= DaysBeforeYear(d.year + 1)
  {
    hide DaysBeforeYear, YearLength, IsLeap, MonthLength;
    YearStep(d.year);
    TwelveMonths(d.year);
    MonthsAscend(d.year, d.month, 13);
  }

  // ---- Instants ----

  datatype Clock = Clock(hour: int, minute: int, second: int, micro: int) {
    predicate Valid() {
      0 <= hour < 24 && 0 <= minute < 60 && 0 <= second < 60 && 0 <= micro < SECOND
    }

    function Micros(): (m: int)
      requires Valid()
      ensures 0 <= m < DAY
    {
      ((hour * 60 + minute) * 60 + second) * SECOND + micro
    }
  }

  function ClockOf(m: int): (c: Clock)
    requires 0 <= m < DAY
    ensures c.Valid() && c.Micros() == m
  {
    var s := m / SECOND;
    Clock(s / 3600, s / 60 % 60, s % 60, m % SECOND)
  }

  lemma ClockInjective(a: Clock, b: Clock)
    requires a.Valid() && b.Valid() && a.Micros() == b.Micros()
    ensures a == b
  {
    var x, y := (a.hour * 60 + a.minute) * 60 + a.second, (b.hour * 60 + b.minute) * 60 + b.second;
    assert x == a.Micros() / SECOND && y == b.Micros() / SECOND;
    assert a.hour * 60 + a.minute == x / 60 && b.hour * 60 + b.minute == y / 60;
  }

  function Instant(d: Date, c: Clock): int
    requires d.Valid() && c.Valid()
  {
    (d.Ordinal() - EPOCH_ORDINAL) * DAY + c.Micros()
  }

  /** The instants a Python datetime can hold: years 1 to 9999. */
  predicate Representable(t: int) {
    -719_162 * DAY <= t < 2_932_897 * DAY
  }

  /** A datetime in UTC. */
  type UtcTime = t: int | Representable(t) witness 0

  function DateOf(t: int): (d: Date)
    requires Representable(t)
    ensures d.Valid() && d.Ordinal() == t / DAY + EPOCH_ORDINAL && d.year <= 9999
  {
    DayRange(t);
    var d := FromOrdinal(t / DAY + EPOCH_ORDINAL);
    BeforeYear10000(d);
    d
  }

  lemma DayRange(t: int)
    requires Representable(t)
    ensures 1 <= t / DAY + EPOCH_ORDINAL <= 3_652_059
  {}

  lemma BeforeYear10000(d: Date)
    requires d.Valid() && d.Ordinal() <= 3_652_059
    ensures d.year <= 9999
  {
    assert DaysBeforeYear(10_000) == 3_652_059;
    YearsFrom10000(d);
  }

  lemma YearsFrom10000(d: Date)
    requires d.Valid() && d.Ordinal() <= DaysBeforeYear(10_000)
    ensures d.year <= 9999
  {
    hide DaysBeforeYear, Date.Ordinal;
    YearBounds(d);
    if d.year > 9999 { YearsAscend(10_000, d.year); }
  }

  lemma InstantParts(t: int)
    requires Representable(t)
    ensures Instant(DateOf(t), ClockOf(t % DAY)) == t
  {
    DayParts(t);
  }

  lemma DayParts(t: int)
    ensures t / DAY * DAY + t % DAY == t && 0 <= t % DAY < DAY
  {}

  // ---- Canonical timestamps: YYYY-MM-DDTHH:MM:SS.ffffffZ ----

  function FormatDate(d: Date): (s: string)
    requires d.Valid()
    ensures |s| == 10
  {
    Padded(d.year, 4) + "-" + Padded(d.month, 2) + "-" + Padded(d.day, 2)
  }

  function FormatClock(c: Clock): (s: string)
    requires c.Valid()
    ensures |s| == 15
  {
    Padded(c.hour, 2) + ":" + Padded(c.minute, 2) + ":" + Padded(c.second, 2) + "." + Padded(c.micro, 6)
  }

  function FormatTimestamp(t: int): (s: string)
    requires Representable(t)
    ensures |s| == 27
  {
    FormatDate(DateOf(t)) + "T" + FormatClock(ClockOf(t % DAY)) + "Z"
  }

  /** Splits at the first occurrence of `c`. */
  function Cut(s: string, c: char): (r: Option<(string, string)>)
    ensures r.Some? ==> c !in r.value.0 && s == r.value.0 + [c] + r.value.1
    ensures r.None? ==> c !in s
  {
    if s == "" then None
    else if s[0] == c then Some(("", s[1..]))
    else match Cut(s[1..], c)
      case None => None
      case Some(p) => Some(([s[0]] + p.0, p.1))
  }

  lemma {:induction false} CutAt(a: string, c: char, rest: string)
    requires c !in a
    ensures Cut(a + [c] + rest, c) == Some((a, rest))
  {
    var s := a + [c] + rest;
    if a == "" {
      assert s[1..] == rest;
    } else {
      assert s[1..] == a[1..] + [c] + rest;
      CutAt(a[1..], c, rest);
      assert a == [a[0]] + a[1..];
    }
  }

  /** A numeric field of one to `width` digits within bounds. */
  function Field(s: string, width: nat, lo: int, hi: int): Option<int> {
    if 1 <= |s| <= width && AllDigits(s) && lo <= NatValue(s) <= hi
    then Some(NatValue(s)) else None
  }

  type Figure = n: nat | n < 10

  /**
   What the interpreter's Unicode tables make of a character beyond ASCII: the
   value of a decimal digit, or nothing. Which characters these are depends on the
   interpreter, so nothing is assumed about it.
   */
  const ForeignDigit: char -> Option<Figure>

  /** The value of any decimal digit a pattern's \d takes. */
  function FigureOf(c: char): (f: Option<nat>)
    ensures f.Some? ==> f.value < 10 && (IsDigit(c) || c >= '\U{80}')
    ensures IsDigit(c) ==> f == Some(DigitValue(c))
  {
    if IsDigit(c) then Some(DigitValue(c))
    else if c < '\U{80}' then None
    else match ForeignDigit(c) case None => None case Some(n) => Some(n)
  }

  /** Four decimal digits, not all zero. */
  function Year(s: string): (y: Option<int>)
    ensures y.Some? ==> 1 <= y.value <= 9999
  {
    if |s| != 4 then None
    else
      match (FigureOf(s[0]), FigureOf(s[1]), FigureOf(s[2]), FigureOf(s[3]))
      case (Some(a), Some(b), Some(c), Some(d)) =>
        var y := 1000 * a + 100 * b + 10 * c + d;
        if y >= 1 then Some(y) else None
      case _ => None
  }

  /** One decimal digit, or an ASCII digit up to `top` and a decimal digit. */
  function UpTo(s: string, top: char): (n: Option<int>)
    requires IsDigit(top)
    ensures n.Some? ==> 0 <= n.value < 10 * (DigitValue(top) + 1)
  {
    if |s| == 1 then
      match FigureOf(s[0]) case None => None case Some(d) => Some(d)
    else if |s| == 2 && '0' <= s[0] <= top then
      match FigureOf(s[1]) case None => None case Some(d) => Some(10 * DigitValue(s[0]) + d)
    else None
  }

  function Hour(s: string): (h: Option<int>)
    ensures h.Some? ==> 0 <= h.value < 24
  {
    if |s| == 2 && s[0] == '2' then (if '0' <= s[1] <= '3' then Some(20 + DigitValue(s[1])) else None)
    else UpTo(s, '1')
  }

  /** Of two-digit days only those from 10 to 29 may end in a digit beyond ASCII; a space may stand for a zero. */
  function Day(s: string): (r: Option<int>)
    ensures r.Some? ==> 1 <= r.value <= 31
  {
    if |s| == 2 && s[0] == ' ' then Field(s[1..], 1, 1, 9)
    else if |s| == 2 && '1' <= s[0] <= '2' then UpTo(s, '2')
    else Field(s, 2, 1, 31)
  }

  /** A fraction of one to six digits, scaled to microseconds. */
  function Fraction(s: string): (m: Option<int>)
    ensures m.Some? ==> 0 <= m.value < SECOND
  {
    if 1 <= |s| <= 6 && AllDigits(s) then
      NatValueBound(s);
      Scaled(NatValue(s), |s|)
    else None
  }

  function Scaled(n: nat, width: nat): (m: Option<int>)
    requires 1 <= width <= 6 && n < Pow10(width)
    ensures m.Some? && 0 <= m.value < SECOND
    ensures width == 6 ==> m == Some(n)
    decreases 6 - width
  {
    assert width == 6 ==> Pow10(6) == SECOND;
    if width == 6 then Some(n) else Scaled(10 * n, width + 1)
  }

  lemma {:induction false} NatValueBound(s: string)
    requires AllDigits(s)
    ensures NatValue(s) < Pow10(|s|)
  {
    if s != "" { NatValueBound(s[..|s| - 1]); }
  }

  function ParseDate(s: string): (r: Option<Date>)
    ensures r.Some? ==> r.value.Valid() && r.value.year <= 9999
  {
    match Cut(s, '-')
    case None => None
    case Some((ys, r1)) =>
      match Cut(r1, '-')
      case None => None
      case Some((ms, ds)) => DateFrom(Year(ys), Field(ms, 2, 1, 12), Day(ds))
  }

  /** The date of three fields, if each was read and the day exists. */
  function DateFrom(y: Option<int>, m: Option<int>, d: Option<int>): (r: Option<Date>)
    requires (y.Some? ==> 1 <= y.value <= 9999) && (m.Some? ==> 1 <= m.value <= 12) && (d.Some? ==> d.value >= 1)
    ensures r.Some? ==> r.value.Valid() && r.value.year <= 9999
  {
    match (y, m, d)
    case (Some(y), Some(m), Some(d)) => if d <= MonthLength(y, m) then Some(Date(y, m, d)) else None
    case _ => None
  }

  function ParseClock(s: string): (r: Option<Clock>)
    ensures r.Some? ==> r.value.Valid()
  {
    match Cut(s, ':')
    case None => None
    case Some((hs, r1)) =>
      match Cut(r1, ':')
      case None => None
      case Some((ms, r2)) =>
        match Cut(r2, '.')
        case None => None
        case Some((ss, us)) => ClockFrom(Hour(hs), UpTo(ms, '5'), UpTo(ss, '5'), Fraction(us))
  }

  function ClockFrom(h: Option<int>, m: Option<int>, s: Option<int>, u: Option<int>): (r: Option<Clock>)
    requires (h.Some? ==> 0 <= h.value < 24) && (m.Some? ==> 0 <= m.value < 60) && (s.Some? ==> 0 <= s.value < 60)
    requires u.Some? ==> 0 <= u.value < SECOND
    ensures r.Some? ==> r.value.Valid()
  {
    match (h, m, s, u)
    case (Some(h), Some(m), Some(s), Some(u)) => Some(Clock(h, m, s, u))
    case _ => None
  }

  /** Splits at the date's end, whichever case its letter has. */
  function CutTime(s: string): Option<(string, string)> {
    match Cut(s, 'T') case None => Cut(s, 't') case Some(p) => Some(p)
  }

  /**
   Reads a canonical timestamp, and all else that strptime reads under the same
   pattern: either case of its two letters, unpadded month, day and clock fields,
   one to six fraction digits, and decimal digits beyond ASCII.
   */
  function ParseTimestamp(s: string): Option<int> {
    if |s| == 0 || (s[|s| - 1] != 'Z' && s[|s| - 1] != 'z') then None
    else
      match CutTime(s[..|s| - 1])
      case None => None
      case Some((ds, cs)) =>
        match (ParseDate(ds), ParseClock(cs))
        case (Some(d), Some(c)) => Some(Instant(d, c))
        case _ => None
  }

  // ---- Reading what was written ----

  /** Two digits, spelled out. */
  lemma TwoPlaces(n: nat)
    requires n < 100
    ensures Padded(n, 2) == [DigitChar(n / 10), DigitChar(n % 10)]
  {
    assert Padded(n / 100, 0) == "";
  }

  lemma FourPlaces(n: nat)
    requires n < 10_000
    ensures Padded(n, 4) == [DigitChar(n / 1000), DigitChar(n / 100 % 10), DigitChar(n / 10 % 10), DigitChar(n % 10)]
  {
    TwoPlaces(n / 100);
    assert n / 100 / 10 == n / 1000 && n / 10 / 10 == n / 100;
    assert Padded(n, 4) == Padded(n / 100, 2) + [DigitChar(n / 10 % 10)] + [DigitChar(n % 10)];
  }

  lemma DigitCharValue(d: nat)
    requires d < 10
    ensures DigitValue(DigitChar(d)) == d
  {}

  lemma TwoDigitsBack(n: nat, top: char)
    requires IsDigit(top) && n < 10 * (DigitValue(top) + 1)
    ensures UpTo(Padded(n, 2), top) == Some(n)
  {
    hide Padded, UpTo;
    TwoPlaces(n);
    UpToOfDigits(n / 10, n % 10, top);
  }

  lemma UpToOfDigits(a: nat, b: nat, top: char)
    requires IsDigit(top) && a <= DigitValue(top) && b < 10
    ensures UpTo([DigitChar(a), DigitChar(b)], top) == Some(10 * a + b)
  {
    hide DigitChar;
    DigitCharValue(a);
    DigitCharValue(b);
  }

  lemma HourBack(n: nat)
    requires n < 24
    ensures Hour(Padded(n, 2)) == Some(n)
  {
    hide Padded, UpTo;
    TwoPlaces(n);
    DigitCharValue(n / 10);
    DigitCharValue(n % 10);
    if n < 20 { TwoDigitsBack(n, '1'); }
  }

  lemma DayBack(n: nat)
    requires 1 <= n <= 31
    ensures Day(Padded(n, 2)) == Some(n)
  {
    hide Padded, UpTo, Field;
    TwoPlaces(n);
    DigitCharValue(n / 10);
    PaddedField(n, 2, 1, 31);
    if n < 30 { TwoDigitsBack(n, '2'); }
  }

  lemma YearBack(n: nat)
    requires 1 <= n <= 9999
    ensures Year(Padded(n, 4)) == Some(n)
  {
    hide Padded, Year;
    FourPlaces(n);
    Places(n);
    YearOfDigits(n / 1000, n / 100 % 10, n / 10 % 10, n % 10);
  }

  lemma YearOfDigits(a: nat, b: nat, c: nat, d: nat)
    requires a < 10 && b < 10 && c < 10 && d < 10
    ensures var y := 1000 * a + 100 * b + 10 * c + d;
      y >= 1 ==> Year([DigitChar(a), DigitChar(b), DigitChar(c), DigitChar(d)]) == Some(y)
  {
    hide DigitChar;
    DigitCharValue(a);
    DigitCharValue(b);
    DigitCharValue(c);
    DigitCharValue(d);
  }

  lemma Places(n: nat)
    ensures 1000 * (n / 1000) + 100 * (n / 100 % 10) + 10 * (n / 10 % 10) + n % 10 == n
  {
    assert n / 100 == 10 * (n / 1000) + n / 100 % 10;
    assert n / 10 == 10 * (n / 100) + n / 10 % 10;
  }

  lemma PaddedField(n: nat, width: nat, lo: int, hi: int)
    requires width >= 1 && n < Pow10(width) && lo <= n <= hi
    ensures Field(Padded(n, width), width, lo, hi) == Some(n)
    ensures forall c | !IsDigit(c) :: c !in Padded(n, width)
  {
    PaddedValue(n, width);
  }

  /** The date reader sees exactly the three fields between the dashes. */
  lemma ParseDateText(ys: string, ms: string, ds: string)
    requires '-' !in ys && '-' !in ms
    ensures ParseDate(ys + "-" + ms + "-" + ds) == DateFrom(Year(ys), Field(ms, 2, 1, 12), Day(ds))
  {
    hide Cut, Day, Year, Field, DateFrom;
    assert ys + "-" + ms + "-" + ds == ys + ['-'] + (ms + ['-'] + ds);
    CutAt(ys, '-', ms + ['-'] + ds);
    CutAt(ms, '-', ds);
  }

  lemma ParseFormattedDate(d: Date)
    requires d.Valid() && d.year <= 9999
    ensures ParseDate(FormatDate(d)) == Some(d) && 'T' !in FormatDate(d) && 't' !in FormatDate(d)
  {
    hide ParseDate, Cut, NatValue, Padded, Year, Field, Day;
    assert Pow10(4) == 10_000 && Pow10(2) == 100;
    YearBack(d.year);
    DayBack(d.day);
    PaddedField(d.year, 4, 1, 9999);
    PaddedField(d.month, 2, 1, 12);
    PaddedField(d.day, 2, 1, 31);
    ParseDateText(Padded(d.year, 4), Padded(d.month, 2), Padded(d.day, 2));
  }

  function ClockText(hs: string, ms: string, ss: string, us: string): string {
    hs + ":" + ms + ":" + ss + "." + us
  }

  /** The clock reader sees exactly the four fields between the separators. */
  lemma ParseClockText(hs: string, ms: string, ss: string, us: string)
    requires ':' !in hs && ':' !in ms && '.' !in ss
    ensures ParseClock(ClockText(hs, ms, ss, us)) == ClockFrom(Hour(hs), UpTo(ms, '5'), UpTo(ss, '5'), Fraction(us))
  {
    hide Hour, UpTo, Fraction, Cut, ClockFrom;
    assert ClockText(hs, ms, ss, us) == hs + [':'] + (ms + [':'] + (ss + ['.'] + us));
    CutAt(hs, ':', ms + [':'] + (ss + ['.'] + us));
    CutAt(ms, ':', ss + ['.'] + us);
    CutAt(ss, '.', us);
  }

  lemma ParseFormattedClock(c: Clock)
    requires c.Valid()
    ensures ParseClock(FormatClock(c)) == Some(c)
  {
    hide ParseClock, Cut, NatValue, Padded, Hour, UpTo;
    assert Pow10(6) == SECOND && Pow10(2) == 100;
    HourBack(c.hour);
    TwoDigitsBack(c.minute, '5');
    TwoDigitsBack(c.second, '5');
    PaddedField(c.hour, 2, 0, 23);
    PaddedField(c.minute, 2, 0, 59);
    PaddedField(c.second, 2, 0, 59);
    PaddedField(c.micro, 6, 0, SECOND);
    var hs, ms, ss, us := Padded(c.hour, 2), Padded(c.minute, 2), Padded(c.second, 2), Padded(c.micro, 6);
    assert FormatClock(c) == ClockText(hs, ms, ss, us);
    ParseClockText(hs, ms, ss, us);
  }

  /** The timestamp reader sees exactly the date before the letter and the clock after it. */
  lemma ParseJoined(ds: string, letter: char, cs: string, end: char)
    requires 'T' !in ds && 't' !in ds && letter in "Tt" && end in "Zz" && 'T' !in cs
    ensures ParseTimestamp(ds + [letter] + cs + [end])
         == match (ParseDate(ds), ParseClock(cs)) case (Some(d), Some(c)) => Some(Instant(d, c)) case _ => None
  {
    hide ParseDate, ParseClock, Cut;
    var s := ds + [letter] + cs + [end];
    assert s[..|s| - 1] == ds + [letter] + cs;
    CutAt(ds, letter, cs);
    CutFinds(ds + [letter] + cs, 'T');
  }

  lemma CutFinds(s: string, c: char)
    ensures Cut(s, c).Some? ==> c in s
  {
    if Cut(s, c).Some? { assert s[|Cut(s, c).value.0|] == c; }
  }

  lemma FormattedClockHasNoLetter(c: Clock)
    requires c.Valid()
    ensures 'T' !in FormatClock(c)
  {}

  /** Formatting then parsing is the identity on every representable instant. */
  lemma FormatThenParse(t: int)
    requires Representable(t)
    ensures ParseTimestamp(FormatTimestamp(t)) == Some(t)
  {
    hide ParseDate, ParseClock, ParseTimestamp, FormatDate, FormatClock;
    var d, c := DateOf(t), ClockOf(t % DAY);
    ParseFormattedDate(d);
    ParseFormattedClock(c);
    FormattedClockHasNoLetter(c);
    ParseJoined(FormatDate(d), 'T', FormatClock(c), 'Z');
    InstantParts(t);
  }

  // ---- Many spellings, one canonical ----

  /** The other way is nowhere injective: every instant has a second spelling. */
  lemma ParseNotInjective(t: int)
    requires Representable(t)
    ensures var s := FormatTimestamp(t);
      var other := s[10 := 't'];
      other != s && ParseTimestamp(other) == ParseTimestamp(s) == Some(t)
  {
    hide ParseTimestamp, DateOf, ClockOf, FormatDate, FormatClock, Instant;
    FormatThenParse(t);
    var d, c := DateOf(t), ClockOf(t % DAY);
    LowerLetter(d, c);
    InstantParts(t);
  }

  lemma LowerLetter(d: Date, c: Clock)
    requires d.Valid() && d.year <= 9999 && c.Valid()
    ensures var s := FormatDate(d) + "T" + FormatClock(c) + "Z";
      s[10 := 't'] != s && ParseTimestamp(s[10 := 't']) == Some(Instant(d, c))
  {
    hide ParseDate, ParseClock, ParseTimestamp, FormatDate, FormatClock, Instant;
    ParseFormattedDate(d);
    ParseFormattedClock(c);
    FormattedClockHasNoLetter(c);
    ParseJoined(FormatDate(d), 't', FormatClock(c), 'Z');
    var s := FormatDate(d) + "T" + FormatClock(c) + "Z";
    assert s[10] == 'T' && s[10 := 't'][10] == 't';
    assert s[10 := 't'] == FormatDate(d) + ['t'] + FormatClock(c) + ['Z'];
  }

  /** The separator at each place of a canonical timestamp; every other place holds a digit. */
  function SeparatorAt(i: nat): Option<char> {
    if i == 4 || i == 7 then Some('-')
    else if i == 10 then Some('T')
    else if i == 13 || i == 16 then Some(':')
    else if i == 19 then Some('.')
    else if i == 26 then Some('Z')
    else None
  }

  /** The shape of a canonical timestamp: fixed width, fixed separators, ASCII digits elsewhere. */
  predicate CanonicalShape(s: string) {
    |s| == 27 && forall i | 0 <= i < 27 ::
      if SeparatorAt(i).Some? then s[i] == SeparatorAt(i).value else IsDigit(s[i])
  }

  lemma {:induction false} PaddedBack(s: string)
    requires AllDigits(s)
    ensures Padded(NatValue(s), |s|) == s
  {
    if s != "" {
      var init, d := s[..|s| - 1], DigitValue(s[|s| - 1]);
      PaddedBack(init);
      DivUnique(NatValue(s), 10, NatValue(init), d);
      assert DigitChar(d) == s[|s| - 1];
      assert s == init + [s[|s| - 1]];
    }
  }

  lemma PairBack(s: string)
    requires |s| == 2 && IsDigit(s[0]) && IsDigit(s[1])
    ensures NatValue(s) == 10 * DigitValue(s[0]) + DigitValue(s[1]) && Padded(NatValue(s), 2) == s
  {
    hide Padded;
    PaddedBack(s);
    assert AllDigits(s[..1]) && s[..1][..0] == "" && s[..1][0] == s[0];
    assert NatValue(s[..1]) == 10 * NatValue("") + DigitValue(s[0]);
    assert NatValue(s) == 10 * NatValue(s[..1]) + DigitValue(s[1]);
  }

  lemma QuadBack(s: string)
    requires |s| == 4 && AllDigits(s)
    ensures NatValue(s) == 1000 * DigitValue(s[0]) + 100 * DigitValue(s[1]) + 10 * DigitValue(s[2]) + DigitValue(s[3])
    ensures Padded(NatValue(s), 4) == s
  {
    hide Padded;
    PaddedBack(s);
    PairBack(s[..2]);
    assert AllDigits(s[..3]) && s[..3][..2] == s[..2] && s[..3][2] == s[2];
    assert NatValue(s[..3]) == 10 * NatValue(s[..2]) + DigitValue(s[2]);
    assert NatValue(s) == 10 * NatValue(s[..3]) + DigitValue(s[3]);
  }

  /** A date in digits is the one text its value is written as. */
  lemma DateSpelling(s: string)
    requires |s| == 10 && s[4] == s[7] == '-' && forall i | 0 <= i < 10 && i != 4 && i != 7 :: IsDigit(s[i])
    ensures ParseDate(s).Some? ==> FormatDate(ParseDate(s).value) == s
  {
    hide ParseDate, Cut, NatValue, Padded;
    var ys, ms, ds := s[..4], s[5..7], s[8..];
    assert s == ys + "-" + ms + "-" + ds;
    ParseDateText(ys, ms, ds);
    QuadBack(ys);
    PairBack(ms);
    PairBack(ds);
  }

  lemma ClockSpelling(s: string)
    requires |s| == 15 && s[2] == s[5] == ':' && s[8] == '.'
    requires forall i | 0 <= i < 15 && i != 2 && i != 5 && i != 8 :: IsDigit(s[i])
    ensures ParseClock(s).Some? ==> FormatClock(ParseClock(s).value) == s
  {
    hide ParseClock, Cut, NatValue, Padded;
    var hs, ms, ss, us := s[..2], s[3..5], s[6..8], s[9..];
    assert s == ClockText(hs, ms, ss, us);
    ParseClockText(hs, ms, ss, us);
    PairBack(hs);
    PairBack(ms);
    PairBack(ss);
    PaddedBack(us);
  }

  /** A date and a clock are read back from the instant they make. */
  lemma InstantSplits(d: Date, c: Clock)
    requires d.Valid() && d.year <= 9999 && c.Valid()
    ensures Representable(Instant(d, c)) && DateOf(Instant(d, c)) == d && ClockOf(Instant(d, c) % DAY) == c
  {
    hide Date.Ordinal, Date.Valid, Clock.Micros, Clock.Valid;
    var t := Instant(d, c);
    OrdinalRange(d);
    DivUnique(t, DAY, d.Ordinal() - EPOCH_ORDINAL, c.Micros());
    OrdinalInjective(DateOf(t), d);
    ClockInjective(ClockOf(t % DAY), c);
  }

  lemma EdgeYears()
    ensures DaysBeforeYear(1) == 0 && DaysBeforeYear(10_000) == 3_652_059
  {}

  lemma OrdinalRange(d: Date)
    requires d.Valid() && d.year <= 9999
    ensures 1 <= d.Ordinal() <= 3_652_059
  {
    hide DaysBeforeYear;
    EdgeYears();
    YearBounds(d);
    YearsAscend(1, d.year);
    YearsAscend(d.year + 1, 10_000);
  }

  lemma ParsedParts(s: string)
    requires CanonicalShape(s)
    ensures ParseTimestamp(s) == match (ParseDate(s[..10]), ParseClock(s[11..26]))
                                 case (Some(d), Some(c)) => Some(Instant(d, c)) case _ => None
  {
    hide ParseDate, ParseClock, ParseTimestamp;
    var ds, cs := s[..10], s[11..26];
    assert s == ds + ['T'] + cs + ['Z'];
    ParseJoined(ds, 'T', cs, 'Z');
  }

  /** Of the texts that are read, those of the canonical shape are exactly those written for their own instant. */
  lemma CanonicalIsWritten(s: string)
    requires ParseTimestamp(s).Some?
    ensures Representable(ParseTimestamp(s).value)
    ensures CanonicalShape(s) <==> s == FormatTimestamp(ParseTimestamp(s).value)
  {
    hide ParseTimestamp, FormatTimestamp, CanonicalShape;
    ParsedIsRepresentable(s);
    WrittenShape(ParseTimestamp(s).value);
    if CanonicalShape(s) { ShapedIsWritten(s); }
  }

  lemma ShapedIsWritten(s: string)
    requires CanonicalShape(s) && ParseTimestamp(s).Some? && Representable(ParseTimestamp(s).value)
    ensures s == FormatTimestamp(ParseTimestamp(s).value)
  {
    hide ParseDate, ParseClock, ParseTimestamp, FormatDate, FormatClock, CanonicalShape, DateOf, ClockOf, Instant;
    ParsedParts(s);
    ShapedParts(s);
    DateSpelling(s[..10]);
    ClockSpelling(s[11..26]);
    InstantSplits(ParseDate(s[..10]).value, ParseClock(s[11..26]).value);
  }

  lemma ParsedIsRepresentable(s: string)
    requires ParseTimestamp(s).Some?
    ensures Representable(ParseTimestamp(s).value)
  {
    hide ParseDate, ParseClock, CutTime;
    var p := CutTime(s[..|s| - 1]).value;
    InstantSplits(ParseDate(p.0).value, ParseClock(p.1).value);
  }

  lemma ShapedParts(s: string)
    requires CanonicalShape(s)
    ensures |s| == 27 && s == s[..10] + "T" + s[11..26] + "Z"
    ensures s[..10][4] == s[..10][7] == '-' && forall i | 0 <= i < 10 && i != 4 && i != 7 :: IsDigit(s[..10][i])
    ensures s[11..26][2] == s[11..26][5] == ':' && s[11..26][8] == '.'
    ensures forall i | 0 <= i < 15 && i != 2 && i != 5 && i != 8 :: IsDigit(s[11..26][i])
  {
    forall i | 0 <= i < 15 ensures s[11..26][i] == s[11 + i] {}
  }

  lemma WrittenShape(t: int)
    requires Representable(t)
    ensures CanonicalShape(FormatTimestamp(t))
  {
    hide DateOf, ClockOf, Padded;
  }

  /** No instant has two spellings of the canonical shape. */
  lemma OneCanonicalSpelling(s: string, r: string)
    requires ParseTimestamp(s).Some? && ParseTimestamp(s) == ParseTimestamp(r)
    requires CanonicalShape(s) && CanonicalShape(r)
    ensures s == r
  {
    hide ParseTimestamp, CanonicalShape, FormatTimestamp;
    CanonicalIsWritten(s);
    CanonicalIsWritten(r);
  }
}
