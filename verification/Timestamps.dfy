/** Timestamps as the store writes them (`serialize_datetime`) and the order of their texts.

    A `Time` counts microseconds from 0001-01-01T00:00:00 UTC; a value outside the years 1 to 9999 is
    not representable by the original's `datetime`. */
module Timestamps {
  import opened CodexModel

  datatype DateTime = DateTime(
    year: nat, month: nat, day: nat, hour: nat, minute: nat, second: nat, microsecond: nat)

  /* ---- the proleptic Gregorian calendar ---- */

  predicate IsLeap(year: nat) {
    year % 4 == 0 && (year % 100 != 0 || year % 400 == 0)
  }

  function DaysInMonth(year: nat, month: nat): nat {
    if month == 2 then (if IsLeap(year) then 29 else 28)
    else if month == 4 || month == 6 || month == 9 || month == 11 then 30
    else 31
  }

  function DaysBeforeMonth(year: nat, month: nat): nat {
    if month <= 1 then 0 else DaysBeforeMonth(year, month - 1) + DaysInMonth(year, month - 1)
  }

  function DaysInYear(year: nat): nat {
    if IsLeap(year) then 366 else 365
  }

  function DaysBeforeYear(year: nat): nat {
    if year <= 1 then 0 else DaysBeforeYear(year - 1) + DaysInYear(year - 1)
  }

  predicate IsValid(d: DateTime) {
    && 1 <= d.year <= 9999 && 1 <= d.month <= 12 && 1 <= d.day <= DaysInMonth(d.year, d.month)
    && d.hour < 24 && d.minute < 60 && d.second < 60 && d.microsecond < 1_000_000
  }

  const MICROS_PER_DAY := 86_400_000_000

  function DayNumber(d: DateTime): int {
    DaysBeforeYear(d.year) + DaysBeforeMonth(d.year, d.month) + d.day - 1
  }

  function MicrosOfDay(d: DateTime): nat {
    ((d.hour * 60 + d.minute) * 60 + d.second) * 1_000_000 + d.microsecond
  }

  /** The point in time a date names. */
  function Instant(d: DateTime): Time {
    DayNumber(d) * MICROS_PER_DAY + MicrosOfDay(d)
  }

  /* ---- from a point in time to its date ---- */

  predicate Representable(t: Time) {
    0 <= t < DaysBeforeYear(10000) * MICROS_PER_DAY
  }

  function YearOf(day: nat, year: nat): nat
    decreases day
  {
    if day < DaysInYear(year) then year else YearOf(day - DaysInYear(year), year + 1)
  }

  function MonthOf(year: nat, day: nat, month: nat): nat
    decreases 12 - month
  {
    if month >= 12 || day < DaysInMonth(year, month) then month
    else MonthOf(year, day - DaysInMonth(year, month), month + 1)
  }

  function Date(t: nat): DateTime {
    var dayNumber, rest := t / MICROS_PER_DAY, t % MICROS_PER_DAY;
    var year := YearOf(dayNumber, 1);
    var dayOfYear := dayNumber - DaysBeforeYear(year);
    if dayOfYear < 0 then DateTime(0, 0, 0, 0, 0, 0, 0)
    else
      var month := MonthOf(year, dayOfYear, 1);
      var day := dayOfYear - DaysBeforeMonth(year, month);
      DateTime(year, month, if day < 0 then 0 else day + 1,
               rest / 3_600_000_000, rest / 60_000_000 % 60, rest / 1_000_000 % 60, rest % 1_000_000)
  }

  lemma {:induction false} YearOfIsExact(day: nat, year: nat)
    requires 1 <= year
    ensures var y := YearOf(day, year);
      year <= y && DaysBeforeYear(y) <= DaysBeforeYear(year) + day < DaysBeforeYear(y) + DaysInYear(y)
    decreases day
  {
    if day >= DaysInYear(year) {
      YearOfIsExact(day - DaysInYear(year), year + 1);
    }
  }

  lemma YearIsTwelveMonths(year: nat)
    ensures DaysBeforeMonth(year, 12) + DaysInMonth(year, 12) == DaysInYear(year)
  {
    var m := DaysBeforeMonth(year, 3);
    assert DaysBeforeMonth(year, 2) == 31;
    assert DaysBeforeMonth(year, 4) == m + 31;
    assert DaysBeforeMonth(year, 6) == m + 92 by { assert DaysBeforeMonth(year, 5) == m + 61; }
    assert DaysBeforeMonth(year, 8) == m + 153 by { assert DaysBeforeMonth(year, 7) == m + 122; }
    assert DaysBeforeMonth(year, 10) == m + 214 by { assert DaysBeforeMonth(year, 9) == m + 184; }
    assert DaysBeforeMonth(year, 12) == m + 275 by { assert DaysBeforeMonth(year, 11) == m + 245; }
  }

  lemma {:induction false} MonthOfIsExact(year: nat, day: nat, month: nat)
    requires 1 <= month <= 12 && DaysBeforeMonth(year, month) + day < DaysInYear(year)
    ensures var m := MonthOf(year, day, month);
      && month <= m <= 12
      && DaysBeforeMonth(year, m) <= DaysBeforeMonth(year, month) + day
      && DaysBeforeMonth(year, month) + day < DaysBeforeMonth(year, m) + DaysInMonth(year, m)
    decreases 12 - month
  {
    if month == 12 {
      YearIsTwelveMonths(year);
    } else if day >= DaysInMonth(year, month) {
      MonthOfIsExact(year, day - DaysInMonth(year, month), month + 1);
    }
  }

  lemma {:induction false} YearsAccumulate(a: nat, b: nat)
    requires 1 <= a < b
    ensures DaysBeforeYear(a) + DaysInYear(a) <= DaysBeforeYear(b)
    decreases b
  {
    if a + 1 < b {
      YearsAccumulate(a, b - 1);
    }
  }

  lemma {:induction false} MonthsAccumulate(year: nat, a: nat, b: nat)
    requires 1 <= a < b
    ensures DaysBeforeMonth(year, a) + DaysInMonth(year, a) <= DaysBeforeMonth(year, b)
    decreases b
  {
    if a + 1 < b {
      MonthsAccumulate(year, a, b - 1);
    }
  }

  lemma Multiples(n: nat, k: nat)
    requires n >= 1 && (k == 4 || k == 100 || k == 400)
    ensures n / k == (n - 1) / k + (if n % k == 0 then 1 else 0)
  {
    if k == 4 {
    } else if k == 100 {
    } else {
    }
  }

  lemma FourHundredsAreHundreds(n: nat)
    requires n % 400 == 0
    ensures n % 100 == 0
  {
    assert n == 100 * (4 * (n / 400));
  }

  lemma HundredsAreFours(n: nat)
    requires n % 100 == 0
    ensures n % 4 == 0
  {
    assert n == 4 * (25 * (n / 100));
  }

  lemma LeapDay(n: nat)
    ensures DaysInYear(n) ==
      365 + (if n % 4 == 0 then 1 else 0) - (if n % 100 == 0 then 1 else 0) + (if n % 400 == 0 then 1 else 0)
  {
    if n % 400 == 0 {
      FourHundredsAreHundreds(n);
    }
    if n % 100 == 0 {
      HundredsAreFours(n);
    }
  }

  /** The days before a year by the closed formula of the Gregorian calendar: every fourth year is a leap year, except
      every hundredth, except every four hundredth. */
  lemma {:induction false} DaysBeforeYearInClosedForm(year: nat)
    requires year >= 1
    ensures DaysBeforeYear(year) == 365 * (year - 1) + (year - 1) / 4 - (year - 1) / 100 + (year - 1) / 400
  {
    if year > 1 {
      DaysBeforeYearInClosedForm(year - 1);
      Multiples(year - 1, 4);
      Multiples(year - 1, 100);
      Multiples(year - 1, 400);
      LeapDay(year - 1);
    }
  }

  /** The days before a month by Zeller's rule. */
  lemma DaysBeforeMonthInClosedForm(year: nat, month: nat)
    requires 1 <= month <= 12
    ensures DaysBeforeMonth(year, month) ==
      (367 * month - 362) / 12 - (if month <= 2 then 0 else if IsLeap(year) then 1 else 2)
  {
    if month > 1 {
      DaysBeforeMonthInClosedForm(year, month - 1);
    }
  }

  lemma ClockIsExact(rest: nat)
    requires rest < MICROS_PER_DAY
    ensures rest / 3_600_000_000 < 24
    ensures ((rest / 3_600_000_000 * 60 + rest / 60_000_000 % 60) * 60 + rest / 1_000_000 % 60) * 1_000_000
      + rest % 1_000_000 == rest
  {
    var seconds := rest / 1_000_000;
    assert rest / 60_000_000 == seconds / 60;
    assert rest / 3_600_000_000 == seconds / 3600;
    assert seconds / 3600 == seconds / 60 / 60;
  }

  /** Every representable point in time has exactly the date computed for it. */
  lemma DateIsExact(t: Time)
    requires Representable(t)
    ensures IsValid(Date(t)) && Instant(Date(t)) == t
  {
    var dayNumber, rest := t / MICROS_PER_DAY, t % MICROS_PER_DAY;
    YearOfIsExact(dayNumber, 1);
    var year := YearOf(dayNumber, 1);
    assert dayNumber < DaysBeforeYear(10000);
    if year >= 10000 {
      if year > 10000 {
        YearsAccumulate(10000, year);
      }
      assert false;
    }
    MonthOfIsExact(year, dayNumber - DaysBeforeYear(year), 1);
    ClockIsExact(rest);
  }

  /* ---- the text ---- */

  function Digit(n: nat): char
    requires n < 10
  {
    '0' + n as char
  }

  /** `width` decimal digits, with leading zeros. */
  function Pad(n: nat, width: nat): string {
    if width == 0 then "" else Pad(n / 10, width - 1) + [Digit(n % 10)]
  }

  function Fraction(microsecond: nat): string {
    if microsecond == 0 then "+00:00" else ['.'] + (Pad(microsecond, 6) + "+00:00")
  }

  function ClockText(d: DateTime): string {
    Pad(d.hour, 2) + ([':'] + (Pad(d.minute, 2) + ([':'] + (Pad(d.second, 2) + Fraction(d.microsecond)))))
  }

  /** `value.isoformat()` of a UTC value: the fraction is left out when it is zero. */
  function Serialize(d: DateTime): string {
    Pad(d.year, 4) + (['-'] + (Pad(d.month, 2) + (['-'] + (Pad(d.day, 2) + (['T'] + ClockText(d))))))
  }

  function Stamp(t: Time): string {
    if t < 0 then "" else Serialize(Date(t))
  }

  /** The order of text columns: character by character, a proper prefix first. */
  predicate Less(a: string, b: string) {
    b != "" && (a == "" || a[0] < b[0] || (a[0] == b[0] && Less(a[1..], b[1..])))
  }

  function Pow10(width: nat): nat {
    if width == 0 then 1 else 10 * Pow10(width - 1)
  }

  lemma LessAfterSame(c: char, s: string, t: string)
    ensures Less([c] + s, [c] + t) <==> Less(s, t)
  {
    assert ([c] + s)[1..] == s && ([c] + t)[1..] == t;
  }

  lemma LessByFirst(c: char, d: char, s: string, t: string)
    requires c != d
    ensures Less([c] + s, [d] + t) <==> c < d
  {
  }

  /** Fields of equal width compare as numbers, and only then as what follows them. */
  lemma {:induction false} FieldOrder(x: nat, y: nat, width: nat, s: string, t: string)
    requires x < Pow10(width) && y < Pow10(width)
    ensures Less(Pad(x, width) + s, Pad(y, width) + t) <==> x < y || (x == y && Less(s, t))
    decreases width
  {
    if width == 0 {
      assert "" + s == s && "" + t == t;
    } else {
      var c, d := Digit(x % 10), Digit(y % 10);
      assert Pad(x, width) + s == Pad(x / 10, width - 1) + ([c] + s);
      assert Pad(y, width) + t == Pad(y / 10, width - 1) + ([d] + t);
      FieldOrder(x / 10, y / 10, width - 1, [c] + s, [d] + t);
      if c == d {
        LessAfterSame(c, s, t);
      } else {
        LessByFirst(c, d, s, t);
      }
    }
  }

  lemma FractionOrder(x: nat, y: nat)
    requires x < 1_000_000 && y < 1_000_000
    ensures Less(Fraction(x), Fraction(y)) <==> x < y
  {
    assert Pow10(6) == 1_000_000;
    assert "+00:00" == ['+'] + "00:00";
    var zone := "+00:00";
    Irreflexive(zone);
    if x == 0 || y == 0 {
      if x != y {
        LessByFirst('+', '.', "00:00", Pad(y, 6) + zone);
        LessByFirst('.', '+', Pad(x, 6) + zone, "00:00");
      }
    } else {
      LessAfterSame('.', Pad(x, 6) + zone, Pad(y, 6) + zone);
      FieldOrder(x, y, 6, zone, zone);
    }
  }

  lemma {:induction false} Irreflexive(s: string)
    ensures !Less(s, s)
  {
    if s != "" {
      Irreflexive(s[1..]);
    }
  }

  /* ---- main result ---- */

  lemma SeparatedFieldOrder(c: char, x: nat, y: nat, s: string, t: string)
    requires x < 100 && y < 100
    ensures Less([c] + (Pad(x, 2) + s), [c] + (Pad(y, 2) + t)) <==> x < y || (x == y && Less(s, t))
  {
    assert Pow10(2) == 100;
    LessAfterSame(c, Pad(x, 2) + s, Pad(y, 2) + t);
    FieldOrder(x, y, 2, s, t);
  }

  lemma ClockTextOrder(a: DateTime, b: DateTime)
    requires IsValid(a) && IsValid(b)
    ensures Less(ClockText(a), ClockText(b)) <==> MicrosOfDay(a) < MicrosOfDay(b)
  {
    assert Pow10(2) == 100;
    FractionOrder(a.microsecond, b.microsecond);
    var sa, sb := Pad(a.second, 2) + Fraction(a.microsecond), Pad(b.second, 2) + Fraction(b.microsecond);
    SeparatedFieldOrder(':', a.second, b.second, Fraction(a.microsecond), Fraction(b.microsecond));
    SeparatedFieldOrder(':', a.minute, b.minute, [':'] + sa, [':'] + sb);
    FieldOrder(a.hour, b.hour, 2, [':'] + (Pad(a.minute, 2) + ([':'] + sa)), [':'] + (Pad(b.minute, 2) + ([':'] + sb)));
  }

  lemma DateTextOrder(a: DateTime, b: DateTime)
    requires IsValid(a) && IsValid(b)
    ensures Less(Serialize(a), Serialize(b)) <==>
      || a.year < b.year
      || (a.year == b.year && (a.month < b.month
      || (a.month == b.month && (a.day < b.day
      || (a.day == b.day && MicrosOfDay(a) < MicrosOfDay(b))))))
  {
    assert Pow10(4) == 10000;
    ClockTextOrder(a, b);
    var ca, cb := ['T'] + ClockText(a), ['T'] + ClockText(b);
    LessAfterSame('T', ClockText(a), ClockText(b));
    SeparatedFieldOrder('-', a.day, b.day, ca, cb);
    var da, db := ['-'] + (Pad(a.day, 2) + ca), ['-'] + (Pad(b.day, 2) + cb);
    SeparatedFieldOrder('-', a.month, b.month, da, db);
    FieldOrder(a.year, b.year, 4, ['-'] + (Pad(a.month, 2) + da), ['-'] + (Pad(b.month, 2) + db));
  }

  lemma DaysOrder(a: DateTime, b: DateTime)
    requires IsValid(a) && IsValid(b)
    requires a.year < b.year || (a.year == b.year && (a.month < b.month || (a.month == b.month && a.day < b.day)))
    ensures DayNumber(a) < DayNumber(b)
  {
    if a.year < b.year {
      YearsAccumulate(a.year, b.year);
      YearIsTwelveMonths(a.year);
      if a.month < 12 {
        MonthsAccumulate(a.year, a.month, 12);
      }
    } else if a.month < b.month {
      MonthsAccumulate(a.year, a.month, b.month);
    }
  }

  lemma MicrosOfDayFit(d: DateTime)
    requires IsValid(d)
    ensures MicrosOfDay(d) < MICROS_PER_DAY
  {
  }

  /** The text order of serialized timestamps is the order of the times, although zero microseconds are
      left out of the text. */
  lemma TextOrderIsTimeOrder(a: DateTime, b: DateTime)
    requires IsValid(a) && IsValid(b)
    ensures Less(Serialize(a), Serialize(b)) <==> Instant(a) < Instant(b)
  {
    DateTextOrder(a, b);
    MicrosOfDayFit(a);
    MicrosOfDayFit(b);
    if (a.year, a.month, a.day) != (b.year, b.month, b.day) {
      if a.year < b.year || (a.year == b.year && (a.month < b.month || (a.month == b.month && a.day < b.day))) {
        DaysOrder(a, b);
      } else {
        DaysOrder(b, a);
      }
    }
  }

  /* ---- reading a stamp back ---- */

  function Value(digits: string): int {
    if digits == "" then 0 else 10 * Value(digits[..|digits| - 1]) + (digits[|digits| - 1] as int - '0' as int)
  }

  /** The number in the first `width` characters, and what follows them. */
  function Field(text: string, width: nat): (int, string) {
    if |text| < width then (-1, "") else (Value(text[..width]), text[width..])
  }

  predicate Starts(text: string, c: char) {
    text != "" && text[0] == c
  }

  datatype Clock = Clock(hour: int, minute: int, second: int, microsecond: int)

  /** HH:MM:SS, a fraction of six digits or none, and the offset of UTC. */
  function ReadClock(text: string): Option<Clock> {
    var (hour, t) := Field(text, 2);
    if !Starts(t, ':') then None
    else
      var (minute, u) := Field(t[1..], 2);
      if !Starts(u, ':') then None
      else
        var (second, v) := Field(u[1..], 2);
        if v == "+00:00" then Some(Clock(hour, minute, second, 0))
        else if !Starts(v, '.') then None
        else
          var (microsecond, w) := Field(v[1..], 6);
          if w == "+00:00" then Some(Clock(hour, minute, second, microsecond)) else None
  }

  /** The date a text YYYY-MM-DDTHH:MM:SS stands for; whether it is a valid one is not checked. */
  function ReadDate(text: string): Option<(int, int, int, Clock)> {
    var (year, t) := Field(text, 4);
    if !Starts(t, '-') then None
    else
      var (month, u) := Field(t[1..], 2);
      if !Starts(u, '-') then None
      else
        var (day, v) := Field(u[1..], 2);
        if !Starts(v, 'T') then None
        else
          match ReadClock(v[1..])
          case None => None
          case Some(clock) => Some((year, month, day, clock))
  }

  lemma {:induction false} PadReadsBack(n: nat, width: nat)
    requires n < Pow10(width)
    ensures |Pad(n, width)| == width && Value(Pad(n, width)) == n
    decreases width
  {
    if width > 0 {
      PadReadsBack(n / 10, width - 1);
      assert Pad(n, width)[..width - 1] == Pad(n / 10, width - 1);
    }
  }

  lemma FieldReadsBack(n: nat, width: nat, rest: string)
    requires n < Pow10(width)
    ensures Field(Pad(n, width) + rest, width) == (n, rest)
  {
    PadReadsBack(n, width);
    assert (Pad(n, width) + rest)[..width] == Pad(n, width) && (Pad(n, width) + rest)[width..] == rest;
  }

  lemma StartsWith(c: char, rest: string)
    ensures Starts([c] + rest, c) && ([c] + rest)[1..] == rest
  {
  }

  lemma SecondsReadBack(d: DateTime)
    requires IsValid(d)
    ensures var (second, v) := Field(Pad(d.second, 2) + Fraction(d.microsecond), 2);
      && second == d.second && v == Fraction(d.microsecond)
      && (if d.microsecond == 0 then v == "+00:00"
          else v != "+00:00" && Starts(v, '.') && Field(v[1..], 6) == (d.microsecond, "+00:00"))
  {
    assert Pow10(2) == 100 && Pow10(6) == 1_000_000;
    FieldReadsBack(d.second, 2, Fraction(d.microsecond));
    FieldReadsBack(d.microsecond, 6, "+00:00");
    StartsWith('.', Pad(d.microsecond, 6) + "+00:00");
    assert "+00:00"[0] == '+';
  }

  lemma ClockReadsBack(d: DateTime)
    requires IsValid(d)
    ensures ReadClock(ClockText(d)) == Some(Clock(d.hour, d.minute, d.second, d.microsecond))
  {
    assert Pow10(2) == 100;
    var seconds := Pad(d.second, 2) + Fraction(d.microsecond);
    var minutes := Pad(d.minute, 2) + ([':'] + seconds);
    SecondsReadBack(d);
    StartsWith(':', seconds);
    FieldReadsBack(d.minute, 2, [':'] + seconds);
    StartsWith(':', minutes);
    FieldReadsBack(d.hour, 2, [':'] + minutes);
  }

  /** The text of a date reads back as that date. */
  lemma SerializedDateReadsBack(d: DateTime)
    requires IsValid(d)
    ensures ReadDate(Serialize(d)) == Some((d.year, d.month, d.day, Clock(d.hour, d.minute, d.second, d.microsecond)))
  {
    assert Pow10(2) == 100 && Pow10(4) == 10000;
    var clock := ['T'] + ClockText(d);
    var day := Pad(d.day, 2) + clock;
    var month := Pad(d.month, 2) + (['-'] + day);
    ClockReadsBack(d);
    StartsWith('T', ClockText(d));
    FieldReadsBack(d.day, 2, clock);
    StartsWith('-', day);
    FieldReadsBack(d.month, 2, ['-'] + day);
    StartsWith('-', month);
    FieldReadsBack(d.year, 4, ['-'] + month);
  }

  /** Two stamps are the same text exactly when they are the same time, and ordered as the times are. */
  lemma StampOrder(a: Time, b: Time)
    requires Representable(a) && Representable(b)
    ensures Less(Stamp(a), Stamp(b)) <==> a < b
    ensures Stamp(a) == Stamp(b) <==> a == b
  {
    StampIsText(a);
    StampIsText(b);
    TextsTellInstants(Date(a), Date(b));
  }

  lemma StampIsText(t: Time)
    requires Representable(t)
    ensures t >= 0 && Stamp(t) == Serialize(Date(t)) && IsValid(Date(t)) && Instant(Date(t)) == t
  {
    DateIsExact(t);
  }

  lemma TextsTellInstants(a: DateTime, b: DateTime)
    requires IsValid(a) && IsValid(b)
    ensures Less(Serialize(a), Serialize(b)) <==> Instant(a) < Instant(b)
    ensures Serialize(a) == Serialize(b) ==> Instant(a) == Instant(b)
  {
    TextOrderIsTimeOrder(a, b);
    TextOrderIsTimeOrder(b, a);
    Irreflexive(Serialize(a));
  }
}
