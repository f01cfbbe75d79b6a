/** GPS time (epoch.py): calendar fields set once at construction and the
    quantities derived from them. Python's `int()` on a float truncates
    toward zero; the model computes on exact rationals (`real`) and writes
    that truncation out as `Trunc`. */
module Epochs {
  import opened Outcomes
  import opened PyText

  /** An epoch as its six calendar fields; the time-system argument of the
      constructor is accepted and discarded by the source. */
  datatype Epoch = Epoch(year: int, month: int, day: int, hour: int, minute: int, second: real)

  /** The constructor's defaults: 1980-01-01 00:00:00. */
  const DefaultEpoch := Epoch(1980, 1, 1, 0, 0, 0.0)

  /** Calendar fields in their usual ranges (day-of-month checked only
      against 31, as nothing in the source checks it at all). */
  predicate ValidFields(e: Epoch) {
    && 1 <= e.year
    && 1 <= e.month <= 12
    && 1 <= e.day <= 31
    && 0 <= e.hour <= 23
    && 0 <= e.minute <= 59
    && 0.0 <= e.second < 60.0
  }

  /** Python `int(x)` for a float: truncation toward zero. */
  function Trunc(x: real): (n: int)
    ensures 0.0 <= x ==> n as real <= x < n as real + 1.0
    ensures x < 0.0 ==> n as real - 1.0 < x <= n as real
  {
    if 0.0 <= x then x.Floor else -((-x).Floor)
  }

  /** `__eq__`: all six calendar fields equal. */
  function Eq(a: Epoch, b: Epoch): (r: bool)
    ensures r <==> a == b
  {
    a.year == b.year && a.month == b.month && a.day == b.day
    && a.hour == b.hour && a.minute == b.minute && a.second == b.second
  }

  // ---------------------------------------------------------------------
  // Julian Date. January and February count as months 13 and 14 of the
  // previous year.

  function ShiftedYear(e: Epoch): int {
    if e.month <= 2 then e.year - 1 else e.year
  }

  function ShiftedMonth(e: Epoch): int {
    if e.month <= 2 then e.month + 12 else e.month
  }

  /** The integer part of the Julian Date sum: the Julian Date at 0h is this
      number plus one half. */
  function DayNumber(e: Epoch): int {
    Trunc(365.25 * ShiftedYear(e) as real) + Trunc(30.6001 * (ShiftedMonth(e) + 1) as real)
    + e.day + 1720981
  }

  function JulianDate(e: Epoch): real {
    var y := ShiftedYear(e);
    var m := ShiftedMonth(e);
    (Trunc(365.25 * y as real) + Trunc(30.6001 * (m + 1) as real) + e.day) as real
    + e.hour as real / 24.0 + 1720981.5
  }

  function ModifiedJulianDate(e: Epoch): real {
    JulianDate(e) - 2400000.5
  }

  /** Seconds elapsed since the beginning of the day. */
  function GPSSec(e: Epoch): real {
    e.second + (e.minute * 60) as real + (e.hour * 3600) as real
  }

  /** Day of the GPS week, Sunday being 0. */
  function GPSDay(e: Epoch): (d: int)
    ensures 0 <= d <= 6
  {
    Trunc(JulianDate(e) + 1.5) % 7
  }

  function GPSWeek(e: Epoch): int {
    Trunc((JulianDate(e) - 2444244.5) / 7.0)
  }

  function GPSTimeOfWeek(e: Epoch): real {
    (GPSDay(e) * 86400) as real + GPSSec(e)
  }

  // ---------------------------------------------------------------------
  // Order.

  /** `__lt__`: by Modified Julian Date, ties broken by seconds of day. */
  function Less(a: Epoch, b: Epoch): bool {
    if ModifiedJulianDate(a) < ModifiedJulianDate(b) then true
    else if ModifiedJulianDate(a) > ModifiedJulianDate(b) then false
    else GPSSec(a) < GPSSec(b)
  }

  /** `__ge__`: true when the epoch is neither `<` nor `==` the other. */
  function Ge(a: Epoch, b: Epoch): bool {
    if !Less(a, b) && !Eq(a, b) then true else false
  }

  /** `__str__`, `DD/MM/YYYY HH:MM:SS.s`; the `%04.1f` rendering of the
      seconds is supplied by the caller. */
  function ToString(e: Epoch, formatSecond: real -> string): string {
    ZeroPadInt(e.day, 2) + "/" + ZeroPadInt(e.month, 2) + "/" + RJust(IntToString(e.year), 4)
    + " " + ZeroPadInt(e.hour, 2) + ":" + ZeroPadInt(e.minute, 2) + ":" + formatSecond(e.second)
  }

  // ---------------------------------------------------------------------
  // Lemmas.

  lemma TruncQuotient(n: nat, d: nat)
    requires d == 4 || d == 10000
    ensures Trunc(n as real / d as real) == n / d
  {
    var q, r := n / d, n % d;
    assert n == q * d + r;
    assert n as real / d as real == q as real + r as real / d as real;
  }

  /** The truncated products in the Julian Date are exact integer quotients:
      with a non-negative shifted year, `int(365.25*Y)` is `1461*Y div 4` and
      `int(30.6001*(M+1))` is `306001*(M+1) div 10000`. */
  lemma JulianDateIntegerForm(e: Epoch)
    requires ShiftedYear(e) >= 0 && 1 <= e.month <= 12
    ensures DayNumber(e) == 1461 * ShiftedYear(e) / 4 + 306001 * (ShiftedMonth(e) + 1) / 10000 + e.day + 1720981
    ensures JulianDate(e) == DayNumber(e) as real + 0.5 + e.hour as real / 24.0
  {
    var y := ShiftedYear(e);
    var k := ShiftedMonth(e) + 1;
    assert 365.25 * y as real == (1461 * y) as real / 4.0;
    TruncQuotient(1461 * y, 4);
    assert 30.6001 * k as real == (306001 * k) as real / 10000.0;
    TruncQuotient(306001 * k, 10000);
  }

  /** The GPS time origin, 1980-01-06 00:00:00, is Julian Date 2444244.5:
      week 0, day 0, second 0 of the week. */
  lemma GPSOrigin()
    ensures JulianDate(Epoch(1980, 1, 6, 0, 0, 0.0)) == 2444244.5
    ensures GPSWeek(Epoch(1980, 1, 6, 0, 0, 0.0)) == 0
    ensures GPSDay(Epoch(1980, 1, 6, 0, 0, 0.0)) == 0
    ensures GPSTimeOfWeek(Epoch(1980, 1, 6, 0, 0, 0.0)) == 0.0
  {
    var e := Epoch(1980, 1, 6, 0, 0, 0.0);
    JulianDateIntegerForm(e);
    assert DayNumber(e) == 2444244;
  }

  /** Seconds of day stay within one day. */
  lemma GPSSecRange(e: Epoch)
    requires ValidFields(e)
    ensures 0.0 <= GPSSec(e) < 86400.0
  {
  }

  /** Seconds of week stay within one week and split into whole days plus
      seconds of day. */
  lemma GPSTimeOfWeekRange(e: Epoch)
    requires ValidFields(e)
    ensures 0.0 <= GPSTimeOfWeek(e) < 604800.0
    ensures GPSTimeOfWeek(e) - GPSSec(e) == (GPSDay(e) * 86400) as real
  {
    GPSSecRange(e);
  }

  /** Days in a month of the Julian calendar, whose leap rule (every fourth
      year) the Julian Date formula follows. */
  function DaysInMonth(y: int, m: int): nat {
    if m == 2 then (if y % 4 == 0 then 29 else 28)
    else if m == 4 || m == 6 || m == 9 || m == 11 then 30
    else 31
  }

  function FirstOfNextMonth(y: int, m: int): Epoch {
    if m == 12 then Epoch(y + 1, 1, 1, 0, 0, 0.0) else Epoch(y, m + 1, 1, 0, 0, 0.0)
  }

  lemma YearLength(y: int)
    requires y >= 1
    ensures 1461 * y / 4 - 1461 * (y - 1) / 4 == if y % 4 == 0 then 366 else 365
  {
    var q, r := y / 4, y % 4;
    assert y == 4 * q + r;
    assert 1461 * y == 4 * (1461 * q + 365 * r) + r;
    assert 1461 * y / 4 == 1461 * q + 365 * r;
    if r == 0 {
      assert 1461 * (y - 1) == 4 * (1461 * q - 366) + 3;
    } else {
      assert 1461 * (y - 1) == 4 * (1461 * q + 365 * (r - 1)) + (r - 1);
    }
  }

  /** The Julian Date advances by exactly the length of the month from the
      first of one month to the first of the next: the `30.6001*(M+1)` term
      and the January/February shift together encode the month lengths. */
  lemma JulianDateMonthLength(y: int, m: int)
    requires y >= 1 && 1 <= m <= 12
    ensures JulianDate(FirstOfNextMonth(y, m)) - JulianDate(Epoch(y, m, 1, 0, 0, 0.0)) == DaysInMonth(y, m) as real
  {
    var a := Epoch(y, m, 1, 0, 0, 0.0);
    var b := FirstOfNextMonth(y, m);
    JulianDateIntegerForm(a);
    JulianDateIntegerForm(b);
    DayNumberMonthLength(y, m);
  }

  /** The integer part of `JulianDateMonthLength`. */
  lemma DayNumberMonthLength(y: int, m: int)
    requires y >= 1 && 1 <= m <= 12
    ensures DayNumber(FirstOfNextMonth(y, m)) - DayNumber(Epoch(y, m, 1, 0, 0, 0.0)) == DaysInMonth(y, m)
  {
    var a := Epoch(y, m, 1, 0, 0, 0.0);
    var b := FirstOfNextMonth(y, m);
    JulianDateIntegerForm(a);
    JulianDateIntegerForm(b);
    var ya, yb := ShiftedYear(a), ShiftedYear(b);
    var ka, kb := ShiftedMonth(a) + 1, ShiftedMonth(b) + 1;
    if m == 2 {
      YearLength(y);
      assert ya == y - 1 && yb == y && ka == 15 && kb == 4;
      assert 306001 * 4 / 10000 == 122 && 306001 * 15 / 10000 == 459;
    } else {
      assert ya == yb;
      assert DayNumber(b) - DayNumber(a) == 306001 * kb / 10000 - 306001 * ka / 10000;
      MonthTermStep(m);
    }
  }

  /** Outside February, consecutive `30.6001*(M+1)` terms differ by the
      month length. */
  lemma MonthTermStep(m: int)
    requires 1 <= m <= 12 && m != 2
    ensures
      var ka := if m == 1 then 14 else m + 1;
      var kb := if m == 1 then 15 else if m == 12 then 14 else m + 2;
      306001 * kb / 10000 - 306001 * ka / 10000 == DaysInMonth(0, m)
  {
    MonthTerms();
  }

  /** The `30.6001*(M+1)` term for M+1 in 4..15. */
  lemma MonthTerms()
    ensures 306001 * 4 / 10000 == 122 && 306001 * 5 / 10000 == 153
    ensures 306001 * 6 / 10000 == 183 && 306001 * 7 / 10000 == 214
    ensures 306001 * 8 / 10000 == 244 && 306001 * 9 / 10000 == 275
    ensures 306001 * 10 / 10000 == 306 && 306001 * 11 / 10000 == 336
    ensures 306001 * 12 / 10000 == 367 && 306001 * 13 / 10000 == 397
    ensures 306001 * 14 / 10000 == 428 && 306001 * 15 / 10000 == 459
  {
  }

  /** The Julian Date one calendar day later is one more. */
  lemma JulianDateNextDay(e: Epoch)
    ensures JulianDate(e.(day := e.day + 1)) == JulianDate(e) + 1.0
  {
  }

  /** Whole days elapsed since the GPS origin, counted from 0h. */
  function DaysSinceOrigin(e: Epoch): int {
    DayNumber(e) - 2444244
  }

  /** From the GPS origin on, the week and the day of the week are the
      quotient and remainder of the days elapsed divided by seven. */
  lemma GPSWeekAndDay(e: Epoch)
    requires 0 <= e.hour <= 23
    requires DaysSinceOrigin(e) >= 0
    ensures DaysSinceOrigin(e) == 7 * GPSWeek(e) + GPSDay(e)
  {
    var d := DaysSinceOrigin(e);
    var f := e.hour as real / 24.0;
    assert 0.0 <= f < 1.0;
    assert JulianDate(e) == DayNumber(e) as real + 0.5 + f;
    assert JulianDate(e) + 1.5 == (DayNumber(e) + 2) as real + f;
    assert Trunc(JulianDate(e) + 1.5) == DayNumber(e) + 2;
    assert (DayNumber(e) + 2) % 7 == d % 7 by {
      assert DayNumber(e) + 2 == d + 7 * 349178;
    }
    var w := d / 7;
    assert (JulianDate(e) - 2444244.5) / 7.0 == (d as real + f) / 7.0;
    assert d == 7 * w + d % 7;
    assert w as real <= (d as real + f) / 7.0 < w as real + 1.0;
    assert GPSWeek(e) == w;
  }

  /** Epochs on consecutive days have consecutive days of the week. */
  lemma GPSDayNextDay(e: Epoch)
    requires 0 <= e.hour <= 23
    requires JulianDate(e) >= 0.0
    ensures GPSDay(e.(day := e.day + 1)) == (GPSDay(e) + 1) % 7
  {
    var x := JulianDate(e) + 1.5;
    JulianDateNextDay(e);
    assert JulianDate(e.(day := e.day + 1)) + 1.5 == x + 1.0;
    TruncNext(x);
    ModSevenNext(Trunc(x));
  }

  lemma TruncNext(x: real)
    requires 0.0 <= x
    ensures Trunc(x + 1.0) == Trunc(x) + 1
  {
  }

  lemma ModSevenNext(t: int)
    ensures (t + 1) % 7 == (t % 7 + 1) % 7
  {
    assert t == 7 * (t / 7) + t % 7;
    assert t + 1 == 7 * (t / 7) + (t % 7 + 1);
    if t % 7 == 6 {
      assert t + 1 == 7 * (t / 7 + 1);
    }
  }

  lemma LessIrreflexive(a: Epoch)
    ensures !Less(a, a)
  {
  }

  lemma LessTransitive(a: Epoch, b: Epoch, c: Epoch)
    requires Less(a, b) && Less(b, c)
    ensures Less(a, c)
  {
  }

  /** Field-equal epochs are never `<` one another. */
  lemma EqNotLess(a: Epoch, b: Epoch)
    requires Eq(a, b)
    ensures !Less(a, b) && !Less(b, a)
  {
  }

  /** `__ge__` is strict: it holds exactly when the epoch is not `<` the
      other and differs from it in some field, so `e >= e` is false. */
  lemma GeIsStrict(a: Epoch, b: Epoch)
    ensures Ge(a, b) <==> !Less(a, b) && a != b
    ensures !Ge(a, a)
  {
  }

  /** Elapsed seconds on a single time line: whole days times 86400 plus the
      seconds of the day. */
  function TimeLine(e: Epoch): real {
    DayNumber(e) as real * 86400.0 + GPSSec(e)
  }

  /** On valid fields, `<` is the chronological order of the time line. */
  lemma LessIsChronological(a: Epoch, b: Epoch)
    requires ValidFields(a) && ValidFields(b)
    ensures Less(a, b) <==> TimeLine(a) < TimeLine(b)
  {
    var na, nb := DayNumber(a), DayNumber(b);
    assert JulianDate(a) == na as real + a.hour as real / 24.0 + 1720981.5 - 1720981.0 + 0.0;
    assert JulianDate(b) == nb as real + b.hour as real / 24.0 + 1720981.5 - 1720981.0 + 0.0;
    GPSSecRange(a);
    GPSSecRange(b);
    if na < nb {
      assert JulianDate(a) < JulianDate(b);
    } else if na > nb {
      assert JulianDate(a) > JulianDate(b);
    } else if a.hour < b.hour {
      assert JulianDate(a) < JulianDate(b);
    } else if a.hour > b.hour {
      assert JulianDate(a) > JulianDate(b);
    } else {
      assert JulianDate(a) == JulianDate(b);
    }
  }
  // ---------------------------------------------------------------------
  // The text form reads back.

  /** A two-digit field of `__str__` (`%02d`) reads back with `int()`. */
  lemma TwoDigitsRoundTrip(n: int)
    requires 0 <= n < 100
    ensures |ZeroPadInt(n, 2)| == 2
    ensures ParseInt(ZeroPadInt(n, 2)) == Some(n)
  {
    if n < 10 {
      var c := DigitChar(n);
      assert NatToString(n) == [c];
      assert Repeat('0', 1) == ['0'];
      assert ZeroPadInt(n, 2) == ['0', c];
      LeadingZero(c);
    } else {
      assert ZeroPadInt(n, 2) == NatToString(n);
      IntOfNatToString(n);
    }
  }

  /** `int()` ignores one leading zero before a digit. */
  lemma LeadingZero(c: char)
    requires IsDigit(c)
    ensures ParseInt(['0', c]) == Some(DigitValue(c))
  {
    LeadingZeroValue(c);
    ParseIntDigits(['0', c]);
  }

  lemma LeadingZeroValue(c: char)
    requires IsDigit(c)
    ensures AllDigits(['0', c]) && DigitsValue(['0', c]) == DigitValue(c)
  {
    var s := ['0', c];
    assert s[..1] == ['0'];
    assert ['0'][..0] == [];
  }

  /** A four-digit year (`%4d`) is its own decimal text. */
  lemma FourDigitYear(y: int)
    requires 1000 <= y <= 9999
    ensures RJust(IntToString(y), 4) == NatToString(y)
    ensures |NatToString(y)| == 4
  {
    assert NatToString(y) == NatToString(y / 10) + [DigitChar(y % 10)];
    assert NatToString(y / 10) == NatToString(y / 100) + [DigitChar(y / 10 % 10)];
  }

  /** Where each piece of the `DD/MM/YYYY HH:MM:` prefix sits. */
  lemma FieldLayout<T>(a: seq<T>, s1: seq<T>, b: seq<T>, s2: seq<T>, c: seq<T>, s3: seq<T>,
                       d: seq<T>, s4: seq<T>, e: seq<T>, s5: seq<T>, f: seq<T>)
    requires |a| == 2 && |s1| == 1 && |b| == 2 && |s2| == 1 && |c| == 4 && |s3| == 1
    requires |d| == 2 && |s4| == 1 && |e| == 2 && |s5| == 1
    ensures var r := a + s1 + b + s2 + c + s3 + d + s4 + e + s5 + f;
      && |r| == 17 + |f|
      && r[0..2] == a && r[2] == s1[0] && r[3..5] == b && r[5] == s2[0]
      && r[6..10] == c && r[10] == s3[0] && r[11..13] == d && r[13] == s4[0]
      && r[14..16] == e && r[16] == s5[0] && r[17..] == f
  {
  }

  /** On valid fields with a four-digit year, `__str__` puts the
      separators of `DD/MM/YYYY HH:MM:` in place and every integer field
      reads back with `int()` from its columns; the seconds follow. */
  lemma ToStringRoundTrip(e: Epoch, formatSecond: real -> string)
    requires ValidFields(e) && 1000 <= e.year <= 9999
    ensures var r := ToString(e, formatSecond);
      && |r| == 17 + |formatSecond(e.second)|
      && r[2] == '/' && r[5] == '/' && r[10] == ' ' && r[13] == ':' && r[16] == ':'
      && ParseInt(r[0..2]) == Some(e.day) && ParseInt(r[3..5]) == Some(e.month)
      && ParseInt(r[6..10]) == Some(e.year) && ParseInt(r[11..13]) == Some(e.hour)
      && ParseInt(r[14..16]) == Some(e.minute) && r[17..] == formatSecond(e.second)
  {
    TwoDigitsRoundTrip(e.day);
    TwoDigitsRoundTrip(e.month);
    TwoDigitsRoundTrip(e.hour);
    TwoDigitsRoundTrip(e.minute);
    FourDigitYear(e.year);
    IntOfNatToString(e.year);
    FieldLayout(ZeroPadInt(e.day, 2), "/", ZeroPadInt(e.month, 2), "/", RJust(IntToString(e.year), 4), " ",
                ZeroPadInt(e.hour, 2), ":", ZeroPadInt(e.minute, 2), ":", formatSecond(e.second));
  }
}
