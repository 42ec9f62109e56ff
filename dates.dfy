/**
 * Calendar dates as Python's `datetime.date` has them: a proleptic
 * Gregorian year, month and day, the day number used for date
 * subtraction (`date.toordinal`), and the ISO text `date.isoformat`
 * writes ("YYYY-MM-DD"), with the parser that reads it back.
 */
module Dates {
  import opened Wrappers

  datatype Ymd = Ymd(year: int, month: int, day: int)

  predicate IsLeap(year: int) {
    year % 4 == 0 && (year % 100 != 0 || year % 400 == 0)
  }

  function DaysInMonth(year: int, month: int): (n: int)
    requires 1 <= month <= 12
    ensures 28 <= n <= 31
  {
    if month == 2 then (if IsLeap(year) then 29 else 28)
    else if month == 4 || month == 6 || month == 9 || month == 11 then 30
    else 31
  }

  predicate IsCalendarDate(d: Ymd) {
    1 <= d.year <= 9999 && 1 <= d.month <= 12 && 1 <= d.day <= DaysInMonth(d.year, d.month)
  }

  /** The values `datetime.date` admits (years 1 to 9999). */
  type Date = d: Ymd | IsCalendarDate(d) witness Ymd(2000, 1, 1)

  /** Days in the months of `year` before `month`. */
  function DaysBeforeMonth(year: int, month: int): (n: int)
    requires 1 <= month <= 12
    ensures 0 <= n <= 31 * (month - 1)
    decreases month
  {
    if month == 1 then 0 else DaysBeforeMonth(year, month - 1) + DaysInMonth(year, month - 1)
  }

  /** Days in the years before year `y + 1`: 365 each, plus one per leap year. */
  function DaysBeforeYear(y: int): int {
    y * 365 + y / 4 - y / 100 + y / 400
  }

  /** Every year before has 365 or 366 days. */
  lemma DaysBeforeYearBounds(y: nat)
    ensures 365 * y <= DaysBeforeYear(y) <= 366 * y
  {
    assert y / 100 <= y / 4;
    assert y / 4 <= y / 4 * 4 <= y;
  }

  /** `date.toordinal()`: 0001-01-01 is day 1, and every earlier year adds 365 or 366 days. */
  function ToOrdinal(d: Date): (n: int)
    ensures 365 * (d.year - 1) < n <= 366 * (d.year - 1) + 366
    ensures d == Ymd(1, 1, 1) ==> n == 1
  {
    DaysBeforeYearBounds(d.year - 1);
    DaysBeforeYear(d.year - 1) + DaysBeforeMonth(d.year, d.month) + d.day
  }

  /** The calendar day after `d`, when `d` is not 9999-12-31. */
  function NextDay(d: Date): Option<Date> {
    if d.day < DaysInMonth(d.year, d.month) then Some(Ymd(d.year, d.month, d.day + 1))
    else if d.month < 12 then Some(Ymd(d.year, d.month + 1, 1))
    else if d.year < 9999 then Some(Ymd(d.year + 1, 1, 1))
    else None
  }

  lemma DaysBeforeDecember(year: int)
    ensures DaysBeforeMonth(year, 12) + 31 == if IsLeap(year) then 366 else 365
  {
  }

  /** Whole multiples of `k` in `1..y+1` exceed those in `1..y` exactly when `k` divides `y + 1`. */
  lemma DivStep(y: nat, k: int)
    requires k == 4 || k == 100 || k == 400
    ensures (y + 1) / k == y / k + (if (y + 1) % k == 0 then 1 else 0)
  {
    if k == 4 {
      assert (y + 1) / 4 == y / 4 + (if (y + 1) % 4 == 0 then 1 else 0);
    } else if k == 100 {
      assert (y + 1) / 100 == y / 100 + (if (y + 1) % 100 == 0 then 1 else 0);
    } else {
      assert (y + 1) / 400 == y / 400 + (if (y + 1) % 400 == 0 then 1 else 0);
    }
  }

  /** One more year adds that year's length: 366 days when it is a leap year, 365 otherwise. */
  lemma DaysBeforeNextYear(y: nat)
    ensures DaysBeforeYear(y + 1) == DaysBeforeYear(y) + (if IsLeap(y + 1) then 366 else 365)
  {
    DivStep(y, 4);
    DivStep(y, 100);
    DivStep(y, 400);
  }

  lemma NextDayInMonth(d: Date)
    requires d.day < DaysInMonth(d.year, d.month)
    ensures ToOrdinal(Ymd(d.year, d.month, d.day + 1)) == ToOrdinal(d) + 1
  {
  }

  lemma NextDayNewMonth(d: Date)
    requires d.day == DaysInMonth(d.year, d.month) && d.month < 12
    ensures ToOrdinal(Ymd(d.year, d.month + 1, 1)) == ToOrdinal(d) + 1
  {
    assert DaysBeforeMonth(d.year, d.month + 1) == DaysBeforeMonth(d.year, d.month) + DaysInMonth(d.year, d.month);
  }

  lemma NextDayNewYear(d: Date)
    requires d.day == 31 && d.month == 12 && d.year < 9999
    ensures ToOrdinal(Ymd(d.year + 1, 1, 1)) == ToOrdinal(d) + 1
  {
    DaysBeforeDecember(d.year);
    DaysBeforeNextYear(d.year - 1);
  }

  /** Day numbers count days: the next calendar day is one day later. */
  lemma OrdinalOfNextDay(d: Date)
    requires NextDay(d).Some?
    ensures ToOrdinal(NextDay(d).value) == ToOrdinal(d) + 1
  {
    if d.day < DaysInMonth(d.year, d.month) {
      NextDayInMonth(d);
    } else if d.month < 12 {
      NextDayNewMonth(d);
    } else {
      NextDayNewYear(d);
    }
  }

  // ---- fixed-width decimal text -------------------------------------------

  function Pow10(n: nat): (p: nat)
    ensures p >= 1
  {
    if n == 0 then 1 else 10 * Pow10(n - 1)
  }

  function DigitChar(v: int): char
    requires 0 <= v < 10
  {
    (48 + v) as char
  }

  predicate IsDigit(c: char) {
    '0' <= c <= '9'
  }

  /** The last `width` decimal digits of `n`, zero-padded on the left (`%0<width>d`). */
  function Decimal(n: nat, width: nat): (s: string)
    ensures |s| == width
    ensures forall i :: 0 <= i < |s| ==> IsDigit(s[i])
  {
    if width == 0 then "" else Decimal(n / 10, width - 1) + [DigitChar(n % 10)]
  }

  /** Reads a string of decimal digits; None when some character is not a digit. */
  function ParseDecimal(s: string): Option<nat> {
    if s == [] then Some(0)
    else if !IsDigit(s[|s| - 1]) then None
    else match ParseDecimal(s[..|s| - 1])
      case None => None
      case Some(v) => Some(10 * v + (s[|s| - 1] as int - 48))
  }

  lemma {:induction false} ParseDecimalOfDecimal(n: nat, width: nat)
    requires n < Pow10(width)
    ensures ParseDecimal(Decimal(n, width)) == Some(n)
  {
    if width > 0 {
      var s := Decimal(n, width);
      assert s[..|s| - 1] == Decimal(n / 10, width - 1);
      assert s[|s| - 1] == DigitChar(n % 10);
      ParseDecimalOfDecimal(n / 10, width - 1);
    }
  }

  // ---- ISO dates -------------------------------------------------------

  /** `date.isoformat()`. */
  function Iso(d: Date): (s: string)
    ensures |s| == 10 && s[4] == '-' && s[7] == '-'
  {
    Decimal(d.year, 4) + "-" + Decimal(d.month, 2) + "-" + Decimal(d.day, 2)
  }

  /** `date.fromisoformat` restricted to the "YYYY-MM-DD" form. */
  function ParseIso(s: string): Option<Date> {
    if |s| != 10 || s[4] != '-' || s[7] != '-' then None
    else match (ParseDecimal(s[..4]), ParseDecimal(s[5..7]), ParseDecimal(s[8..]))
      case (Some(y), Some(m), Some(d)) =>
        if IsCalendarDate(Ymd(y, m, d)) then Some(Ymd(y, m, d)) else None
      case _ => None
  }

  /** Reading back what `isoformat` wrote gives the same date. */
  lemma ParseIsoOfIso(d: Date)
    ensures ParseIso(Iso(d)) == Some(d)
  {
    var s := Iso(d);
    assert s[..4] == Decimal(d.year, 4);
    assert s[5..7] == Decimal(d.month, 2);
    assert s[8..] == Decimal(d.day, 2);
    ParseDecimalOfDecimal(d.year, 4);
    ParseDecimalOfDecimal(d.month, 2);
    ParseDecimalOfDecimal(d.day, 2);
  }

  /** Two dates with the same ISO text are the same date. */
  lemma IsoInjective(d1: Date, d2: Date)
    requires Iso(d1) == Iso(d2)
    ensures d1 == d2
  {
    ParseIsoOfIso(d1);
    ParseIsoOfIso(d2);
  }
}
