/** Calendar dates as the application handles them: `YYYY-MM-DD` strings taken from
    `new Date().toISOString().split('T')[0]` or from a date input, a due date fifteen
    days after the bill date, and the month index of `getMonth()`. */
module Dates {
  import opened Text

  datatype Date = Date(year: int, month: int, day: int)

  predicate IsLeap(y: int) {
    y % 4 == 0 && (y % 100 != 0 || y % 400 == 0)
  }

  function DaysInMonth(y: int, m: int): int
    requires 1 <= m <= 12
  {
    if m == 2 then (if IsLeap(y) then 29 else 28)
    else if m == 4 || m == 6 || m == 9 || m == 11 then 30
    else 31
  }

  /** A date of the proleptic Gregorian calendar from year 0 on. */
  predicate Valid(d: Date) {
    d.year >= 0 && 1 <= d.month <= 12 && 1 <= d.day <= DaysInMonth(d.year, d.month)
  }

  function YearLength(y: int): int {
    if IsLeap(y) then 366 else 365
  }

  /** Days from 0000-01-01 to the first of January of year `y`. */
  function DaysBeforeYear(y: nat): nat {
    if y == 0 then 0 else DaysBeforeYear(y - 1) + YearLength(y - 1)
  }

  /** Days from the first of January of year `y` to the first of month `m`. */
  function DaysBeforeMonth(y: int, m: int): nat
    requires 1 <= m <= 12
  {
    var leap := if m > 2 && IsLeap(y) then 1 else 0;
    leap + (if m == 1 then 0 else if m == 2 then 31 else if m == 3 then 59 else if m == 4 then 90
    else if m == 5 then 120 else if m == 6 then 151 else if m == 7 then 181 else if m == 8 then 212
    else if m == 9 then 243 else if m == 10 then 273 else if m == 11 then 304 else 334)
  }

  lemma MonthStep(y: int, m: int)
    requires 1 <= m <= 12
    ensures m < 12 ==> DaysBeforeMonth(y, m + 1) == DaysBeforeMonth(y, m) + DaysInMonth(y, m)
    ensures m == 12 ==> DaysBeforeMonth(y, m) + DaysInMonth(y, m) == YearLength(y)
  {
  }

  /** The number of days from 0000-01-01 to `d`. */
  function DayNumber(d: Date): nat
    requires Valid(d)
  {
    DaysBeforeYear(d.year) + DaysBeforeMonth(d.year, d.month) + d.day - 1
  }

  /** The following day, as `setDate(getDate() + 1)` computes it. */
  function NextDay(d: Date): (r: Date)
    requires Valid(d)
    ensures Valid(r)
    ensures DayNumber(r) == DayNumber(d) + 1
  {
    MonthStep(d.year, d.month);
    if d.day < DaysInMonth(d.year, d.month) then Date(d.year, d.month, d.day + 1)
    else if d.month < 12 then Date(d.year, d.month + 1, 1)
    else Date(d.year + 1, 1, 1)
  }

  /** `d.setDate(d.getDate() + n)`: `n` days later. */
  function AddDays(d: Date, n: nat): (r: Date)
    requires Valid(d)
    ensures Valid(r)
    ensures DayNumber(r) == DayNumber(d) + n
    decreases n
  {
    if n == 0 then d else AddDays(NextDay(d), n - 1)
  }

  /** Chronological order: year, then month, then day. */
  predicate Before(a: Date, b: Date) {
    a.year < b.year || (a.year == b.year && (a.month < b.month || (a.month == b.month && a.day < b.day)))
  }

  lemma {:induction false} DaysBeforeYearMonotone(y1: nat, y2: nat)
    requires y1 < y2
    ensures DaysBeforeYear(y1) + YearLength(y1) <= DaysBeforeYear(y2)
  {
    if y1 + 1 < y2 {
      DaysBeforeYearMonotone(y1, y2 - 1);
    }
  }

  lemma {:induction false} DaysBeforeMonthMonotone(y: int, m1: int, m2: int)
    requires 1 <= m1 < m2 <= 12
    ensures DaysBeforeMonth(y, m1) + DaysInMonth(y, m1) <= DaysBeforeMonth(y, m2)
    decreases m2 - m1
  {
    MonthStep(y, m1);
    if m1 + 1 < m2 {
      MonthStep(y, m1 + 1);
      DaysBeforeMonthMonotone(y, m1 + 1, m2);
    }
  }

  lemma DayWithinYear(d: Date)
    requires Valid(d)
    ensures DaysBeforeYear(d.year) <= DayNumber(d) < DaysBeforeYear(d.year) + YearLength(d.year)
  {
    MonthStep(d.year, 12);
    if d.month < 12 {
      DaysBeforeMonthMonotone(d.year, d.month, 12);
    }
  }

  /** Day numbers order dates chronologically, so the day number is a faithful clock. */
  lemma BeforeIffDayNumber(a: Date, b: Date)
    requires Valid(a) && Valid(b)
    ensures Before(a, b) <==> DayNumber(a) < DayNumber(b)
    ensures a == b <==> DayNumber(a) == DayNumber(b)
  {
    DayWithinYear(a);
    DayWithinYear(b);
    if a.year < b.year {
      DaysBeforeYearMonotone(a.year, b.year);
    } else if b.year < a.year {
      DaysBeforeYearMonotone(b.year, a.year);
    } else if a.month < b.month {
      DaysBeforeMonthMonotone(a.year, a.month, b.month);
    } else if b.month < a.month {
      DaysBeforeMonthMonotone(a.year, b.month, a.month);
    }
  }

  /** A due date `n > 0` days on lies strictly after the bill date. */
  lemma AddDaysLater(d: Date, n: nat)
    requires Valid(d) && n > 0
    ensures Before(d, AddDays(d, n))
  {
    BeforeIffDayNumber(d, AddDays(d, n));
  }

  lemma AddDaysCompose(d: Date, m: nat, n: nat)
    requires Valid(d)
    ensures AddDays(AddDays(d, m), n) == AddDays(d, m + n)
  {
    BeforeIffDayNumber(AddDays(AddDays(d, m), n), AddDays(d, m + n));
  }

  /** The fields a MySQL DATE column can hold (month 0 to 12, day 0 to 31). */
  predicate InColumnRange(d: Date) {
    0 <= d.month <= 12 && 0 <= d.day <= 31
  }

  /** A number that orders stored dates as `ORDER BY date` does. */
  function Ordinal(d: Date): int {
    (d.year * 13 + d.month) * 32 + d.day
  }

  lemma OrdinalOrder(a: Date, b: Date)
    requires InColumnRange(a) && InColumnRange(b)
    ensures Before(a, b) <==> Ordinal(a) < Ordinal(b)
    ensures a == b <==> Ordinal(a) == Ordinal(b)
  {
    var ka, kb := a.year * 13 + a.month, b.year * 13 + b.month;
    if a.year < b.year {
      assert ka < kb;
    } else if b.year < a.year {
      assert kb < ka;
    }
    if ka < kb {
      assert Ordinal(a) < Ordinal(b);
    } else if kb < ka {
      assert Ordinal(b) < Ordinal(a);
    } else {
      assert a.year == b.year && a.month == b.month;
    }
  }

  // ---------------------------------------------------------------------------
  // The `YYYY-MM-DD` text of a date

  /** The last `k` decimal digits of `n`, with leading zeros. */
  function Pad(n: nat, k: nat): (r: string)
    ensures |r| == k
    ensures forall i :: 0 <= i < k ==> IsDigit(r[i])
  {
    if k == 0 then [] else Pad(n / 10, k - 1) + [DigitChar(n % 10)]
  }

  /** Equal-width zero-padded numbers compare as strings the way they compare as numbers. */
  lemma {:induction false} PadOrder(a: nat, b: nat, k: nat)
    requires a < Pow10(k) && b < Pow10(k)
    ensures LexLess(Pad(a, k), Pad(b, k)) <==> a < b
    ensures Pad(a, k) == Pad(b, k) <==> a == b
  {
    if k == 0 {
    } else {
      PadOrder(a / 10, b / 10, k - 1);
      LexLessConcat(Pad(a / 10, k - 1), [DigitChar(a % 10)], Pad(b / 10, k - 1), [DigitChar(b % 10)]);
      var pa := Pad(a, k);
      var pb := Pad(b, k);
      if pa == pb {
        assert pa[k - 1] == pb[k - 1];
        assert pa[..k - 1] == Pad(a / 10, k - 1) && pb[..k - 1] == Pad(b / 10, k - 1);
      }
    }
  }

  /** `toISOString().split('T')[0]` of a date with a four-digit year. */
  function IsoDate(d: Date): string
    requires Valid(d) && d.year <= 9999
  {
    Pad(d.year, 4) + "-" + Pad(d.month, 2) + "-" + Pad(d.day, 2)
  }

  /** The `MM-DD` part of an ISO date. */
  function MonthDay(d: Date): string
    requires Valid(d)
  {
    Pad(d.month, 2) + ("-" + Pad(d.day, 2))
  }

  lemma MonthDayOrder(a: Date, b: Date)
    requires Valid(a) && Valid(b)
    ensures LexLess(MonthDay(a), MonthDay(b)) <==> a.month < b.month || (a.month == b.month && a.day < b.day)
    ensures MonthDay(a) == MonthDay(b) <==> a.month == b.month && a.day == b.day
  {
    assert Pow10(2) == 100;
    PadOrder(a.month, b.month, 2);
    PadOrder(a.day, b.day, 2);
    SplitOrder(Pad(a.month, 2), "-" + Pad(a.day, 2), Pad(b.month, 2), "-" + Pad(b.day, 2));
    SplitOrder("-", Pad(a.day, 2), "-", Pad(b.day, 2));
    LexLessIrreflexive("-");
  }

  /** For four-digit years, comparing `YYYY-MM-DD` strings is comparing dates. */
  lemma IsoDateOrder(a: Date, b: Date)
    requires Valid(a) && a.year <= 9999 && Valid(b) && b.year <= 9999
    ensures LexLess(IsoDate(a), IsoDate(b)) <==> Before(a, b)
    ensures IsoDate(a) == IsoDate(b) <==> a == b
  {
    assert Pow10(4) == 10000;
    PadOrder(a.year, b.year, 4);
    MonthDayOrder(a, b);
    assert IsoDate(a) == Pad(a.year, 4) + ("-" + MonthDay(a));
    assert IsoDate(b) == Pad(b.year, 4) + ("-" + MonthDay(b));
    SplitOrder(Pad(a.year, 4), "-" + MonthDay(a), Pad(b.year, 4), "-" + MonthDay(b));
    SplitOrder("-", MonthDay(a), "-", MonthDay(b));
    LexLessIrreflexive("-");
  }
}
