/**
 * Python's `datetime.date`: which (year, month, day) triples the constructor
 * accepts, the `ValueError` text it raises otherwise, ordering, day
 * arithmetic (`(b - a).days`) and `str()`.
 */
module PyDate {
  import opened Wrappers
  import opened PyText

  datatype Date = Date(year: int, month: int, day: int)

  const MinYear := 1
  const MaxYear := 9999

  predicate IsLeap(y: int) {
    y % 4 == 0 && (y % 100 != 0 || y % 400 == 0)
  }

  function DaysInMonth(y: int, m: int): (n: int)
    requires 1 <= m <= 12
    ensures 28 <= n <= 31
  {
    if m == 2 then (if IsLeap(y) then 29 else 28)
    else if m == 4 || m == 6 || m == 9 || m == 11 then 30
    else 31
  }

  /** What `date(year, month, day)` accepts. */
  predicate Valid(d: Date) {
    MinYear <= d.year <= MaxYear && 1 <= d.month <= 12 &&
    1 <= d.day <= DaysInMonth(d.year, d.month)
  }

  /**
   * The message of the `ValueError` that `date(year, month, day)` raises,
   * checked in CPython's order: year, then month, then day.
   */
  function DateError(d: Date): (r: Option<string>)
    ensures r.None? <==> Valid(d)
  {
    if !(MinYear <= d.year <= MaxYear) then Some("year " + IntText(d.year) + " is out of range")
    else if !(1 <= d.month <= 12) then Some("month must be in 1..12")
    else if !(1 <= d.day <= DaysInMonth(d.year, d.month)) then Some("day is out of range for month")
    else None
  }

  /** `date(year, month, day)` */
  function MakeDate(year: int, month: int, day: int): (r: Result<Date, string>)
    ensures r.Ok? <==> Valid(Date(year, month, day))
    ensures r.Ok? ==> r.value == Date(year, month, day)
  {
    var d := Date(year, month, day);
    match DateError(d)
    case None => Ok(d)
    case Some(msg) => Err(msg)
  }

  /** `a < b` on dates: lexicographic on (year, month, day). */
  predicate Before(a: Date, b: Date) {
    a.year < b.year ||
    (a.year == b.year && (a.month < b.month || (a.month == b.month && a.day < b.day)))
  }

  predicate AtOrBefore(a: Date, b: Date) { a == b || Before(a, b) }

  lemma BeforeTotal(a: Date, b: Date)
    ensures Before(a, b) || a == b || Before(b, a)
    ensures !(Before(a, b) && Before(b, a))
  {
  }

  // ---------------------------------------------------------------------
  // Ordinals: day 1 is 0001-01-01, as `date.toordinal()`.

  /** Days in the months of year `y` before month `m` (`m` in 1..13). */
  function DaysBeforeMonth(y: int, m: int): int
    requires 1 <= m <= 13
  {
    var table := [0, 31, 59, 90, 120, 151, 181, 212, 243, 273, 304, 334, 365];
    table[m - 1] + (if m > 2 && IsLeap(y) then 1 else 0)
  }

  function YearLength(y: int): int {
    if IsLeap(y) then 366 else 365
  }

  lemma DaysBeforeMonthStep(y: int, m: int)
    requires 1 <= m <= 12
    ensures DaysBeforeMonth(y, m + 1) == DaysBeforeMonth(y, m) + DaysInMonth(y, m)
  {
  }

  lemma DaysBeforeMonthMono(y: int, m: int, n: int)
    requires 1 <= m < n <= 13
    ensures DaysBeforeMonth(y, m) + DaysInMonth(y, m) <= DaysBeforeMonth(y, n)
    decreases n - m
  {
    DaysBeforeMonthStep(y, m);
    if m + 1 < n {
      DaysBeforeMonthMono(y, m + 1, n);
    }
  }

  function DaysBeforeYear(y: int): int
    requires y >= 1
  {
    var k := y - 1;
    365 * k + k / 4 - k / 100 + k / 400
  }

  lemma DivStep4(k: int)
    requires k >= 0
    ensures (k + 1) / 4 - k / 4 == if (k + 1) % 4 == 0 then 1 else 0
  {
  }

  lemma DivStep100(k: int)
    requires k >= 0
    ensures (k + 1) / 100 - k / 100 == if (k + 1) % 100 == 0 then 1 else 0
  {
  }

  lemma DivStep400(k: int)
    requires k >= 0
    ensures (k + 1) / 400 - k / 400 == if (k + 1) % 400 == 0 then 1 else 0
  {
  }

  lemma DaysBeforeYearStep(y: int)
    requires y >= 1
    ensures DaysBeforeYear(y + 1) == DaysBeforeYear(y) + YearLength(y)
  {
    var k := y - 1;
    DivStep4(k);
    DivStep100(k);
    DivStep400(k);
    var a := (k + 1) / 4 - k / 4;
    var b := (k + 1) / 100 - k / 100;
    var c := (k + 1) / 400 - k / 400;
    assert DaysBeforeYear(y + 1) - DaysBeforeYear(y) == 365 + a - b + c;
    assert YearLength(y) == 365 + a - b + c by {
      assert a == (if y % 4 == 0 then 1 else 0);
      assert b == (if y % 100 == 0 then 1 else 0);
      assert c == (if y % 400 == 0 then 1 else 0);
      if y % 400 == 0 {
        assert y % 100 == 0 && y % 4 == 0;
      } else if y % 100 == 0 {
        assert y % 4 == 0;
      }
    }
  }

  lemma {:induction false} DaysBeforeYearMono(y: int, z: int)
    requires 1 <= y < z
    ensures DaysBeforeYear(y) + YearLength(y) <= DaysBeforeYear(z)
    decreases z - y
  {
    DaysBeforeYearStep(y);
    if y + 1 < z {
      DaysBeforeYearMono(y + 1, z);
    }
  }

  /** `d.toordinal()` */
  function Ordinal(d: Date): int
    requires Valid(d)
  {
    DaysBeforeYear(d.year) + DaysBeforeMonth(d.year, d.month) + d.day
  }

  lemma DayOfYearBound(d: Date)
    requires Valid(d)
    ensures DaysBeforeMonth(d.year, d.month) + d.day <= YearLength(d.year)
  {
    if d.month < 12 {
      DaysBeforeMonthMono(d.year, d.month, 13);
    } else {
      DaysBeforeMonthStep(d.year, 12);
    }
  }

  /** Date order and ordinal order agree: `a < b` exactly when `a.toordinal() < b.toordinal()`. */
  lemma OrdinalOrder(a: Date, b: Date)
    requires Valid(a) && Valid(b)
    ensures Before(a, b) <==> Ordinal(a) < Ordinal(b)
    ensures a == b <==> Ordinal(a) == Ordinal(b)
  {
    if Before(a, b) {
      OrdinalBefore(a, b);
    } else if Before(b, a) {
      OrdinalBefore(b, a);
    }
  }

  lemma OrdinalBefore(a: Date, b: Date)
    requires Valid(a) && Valid(b) && Before(a, b)
    ensures Ordinal(a) < Ordinal(b)
  {
    if a.year < b.year {
      DayOfYearBound(a);
      DaysBeforeYearMono(a.year, b.year);
    } else if a.month < b.month {
      DaysBeforeMonthMono(a.year, a.month, b.month);
    }
  }

  /** `(b - a).days` */
  function DaysBetween(a: Date, b: Date): int
    requires Valid(a) && Valid(b)
  {
    Ordinal(b) - Ordinal(a)
  }

  /** `str(d)`: `YYYY-MM-DD`. */
  function IsoText(d: Date): (r: string)
    requires Valid(d)
    ensures |r| == 10 && r[4] == '-' && r[7] == '-'
  {
    var y := ZeroPad(d.year, 4);
    var m := ZeroPad(d.month, 2);
    var dd := ZeroPad(d.day, 2);
    NatTextLength(d.year, 4);
    NatTextLength(d.month, 2);
    NatTextLength(d.day, 2);
    y + "-" + m + "-" + dd
  }

  /** `str(datetime.combine(d, time()))`: `YYYY-MM-DD 00:00:00`. */
  function MidnightText(d: Date): string
    requires Valid(d)
  {
    IsoText(d) + " 00:00:00"
  }

  /** A number below `10^w` has at most `w` digits, so padding to `w` gives exactly `w`. */
  lemma {:induction false} NatTextLength(n: nat, w: nat)
    requires w >= 1 && n < Pow10(w)
    ensures |ZeroPad(n, w)| == w
  {
    NatTextDigits(n, w);
  }

  lemma {:induction false} NatTextDigits(n: nat, w: nat)
    requires w >= 1 && n < Pow10(w)
    ensures |NatText(n)| <= w
    decreases w
  {
    if n >= 10 {
      assert w >= 2;
      assert n / 10 < Pow10(w - 1);
      NatTextDigits(n / 10, w - 1);
    }
  }
}
