/** Calendar dates of the proleptic Gregorian calendar, as the components
    read them out of JavaScript `Date` objects (`getFullYear`, `getMonth() + 1`,
    `getDate`, `getDay`) and write them as `YYYY-MM-DD` strings. A date is kept
    as its three fields; `DayNumber` counts days from 0001-01-01, which is what
    JavaScript's time values order and what `setDate`/`setMonth` normalise. */
module Calendar {
  import opened Text
  import opened Wrappers

  /** Year, month (1-based) and day: the shape of NgbDateStruct. */
  datatype Ymd = Ymd(year: int, month: int, day: int)

  predicate IsLeapYear(y: int) {
    y % 4 == 0 && (y % 100 != 0 || y % 400 == 0)
  }

  function DaysInMonth(y: int, m: int): (n: int)
    requires 1 <= m <= 12
    ensures 28 <= n <= 31
    ensures n == 29 <==> m == 2 && IsLeapYear(y)
  {
    if m == 2 then (if IsLeapYear(y) then 29 else 28)
    else if m == 4 || m == 6 || m == 9 || m == 11 then 30
    else 31
  }

  /** A date that a JavaScript `Date` can denote. */
  predicate Valid(d: Ymd) {
    1 <= d.month <= 12 && 1 <= d.day <= DaysInMonth(d.year, d.month)
  }

  function YearLength(y: int): int {
    if IsLeapYear(y) then 366 else 365
  }

  /** Days from 0001-01-01 to January 1st of `y` (negative before year 1). */
  function DaysBeforeYear(y: int): int {
    var p := y - 1;
    365 * p + p / 4 - p / 100 + p / 400
  }

  /** Days from January 1st to the first of month `m` of year `y`. */
  function DaysBeforeMonth(y: int, m: int): int
    requires 1 <= m <= 12
  {
    [0, 31, 59, 90, 120, 151, 181, 212, 243, 273, 304, 334][m - 1]
      + (if m > 2 && IsLeapYear(y) then 1 else 0)
  }

  function DayNumber(d: Ymd): int
    requires Valid(d)
  {
    DaysBeforeYear(d.year) + DaysBeforeMonth(d.year, d.month) + d.day - 1
  }

  /** `getDay()`: 0 is Sunday, 6 is Saturday (0001-01-01 was a Monday). */
  function Weekday(d: Ymd): (w: int)
    requires Valid(d)
    ensures 0 <= w < 7
  {
    (DayNumber(d) + 1) % 7
  }

  /** Quotient and remainder are determined by the division equation. */
  lemma DivModUnique(n: int, k: int, q: int, r: int)
    requires k > 0 && 0 <= r < k && n == q * k + r
    ensures n / k == q && n % k == r
  {
    var q', r' := n / k, n % k;
    assert n == q' * k + r' && 0 <= r' < k;
    var t := q - q';
    assert t * k == q * k - q' * k;
    assert t * k == r' - r;
    if t > 0 {
      MulAtLeast(t, k);
    } else if t < 0 {
      MulAtLeast(-t, k);
    }
  }

  lemma MulAtLeast(a: int, k: int)
    requires a >= 1 && k > 0
    ensures a * k >= k
  {
    assert a * k == k + (a - 1) * k;
  }

  /** Stepping from `p` to `p + 1` raises the floor quotient by one exactly at multiples of `k`. */
  lemma DivStep(p: int, k: int)
    requires k > 0
    ensures (p + 1) / k == p / k + (if (p + 1) % k == 0 then 1 else 0)
  {
    var q, r := p / k, p % k;
    assert p == q * k + r;
    if r + 1 == k {
      DivModUnique(p + 1, k, q + 1, 0);
    } else {
      DivModUnique(p + 1, k, q, r + 1);
    }
  }

  /** Consecutive new-year days are one year length apart. */
  lemma YearStep(y: int)
    ensures DaysBeforeYear(y + 1) == DaysBeforeYear(y) + YearLength(y)
  {
    var p := y - 1;
    DivStep(p, 4);
    DivStep(p, 100);
    DivStep(p, 400);
    if y % 100 == 0 {
      DivModUnique(y, 4, 25 * (y / 100), 0);
    }
    if y % 400 == 0 {
      DivModUnique(y, 100, 4 * (y / 400), 0);
    }
  }

  /** Consecutive month starts are one month length apart, and December ends the year. */
  lemma MonthStep(y: int, m: int)
    requires 1 <= m <= 12
    ensures m < 12 ==> DaysBeforeMonth(y, m + 1) == DaysBeforeMonth(y, m) + DaysInMonth(y, m)
    ensures m == 12 ==> DaysBeforeMonth(y, m) + DaysInMonth(y, m) == YearLength(y)
  {
  }

  /** The day before `d`, as `setDate(getDate() - 1)` computes it. */
  function PrevDay(d: Ymd): (r: Ymd)
    requires Valid(d)
    ensures Valid(r) && DayNumber(r) == DayNumber(d) - 1
  {
    if d.day > 1 then Ymd(d.year, d.month, d.day - 1)
    else if d.month > 1 then
      MonthStep(d.year, d.month - 1);
      Ymd(d.year, d.month - 1, DaysInMonth(d.year, d.month - 1))
    else
      YearStep(d.year - 1);
      MonthStep(d.year - 1, 12);
      Ymd(d.year - 1, 12, 31)
  }

  /** The date `k` days before `d`, as `setDate(getDate() - k)` computes it. */
  function MinusDays(d: Ymd, k: nat): (r: Ymd)
    requires Valid(d)
    ensures Valid(r) && DayNumber(r) == DayNumber(d) - k
    decreases k
  {
    if k == 0 then d else MinusDays(PrevDay(d), k - 1)
  }

  /** Going back `k` days goes back `k` weekdays, cyclically. */
  lemma WeekdayBackwards(d: Ymd, k: nat)
    requires Valid(d)
    ensures Weekday(MinusDays(d, k)) == (Weekday(d) - k) % 7
  {
    var x := DayNumber(d) + 1;
    var q := x / 7;
    assert x == 7 * q + x % 7;
    DivModUnique(x - k, 7, (x - k) / 7, (x - k) % 7);
    DivModUnique(x % 7 - k, 7, (x - k) / 7 - q, (x - k) % 7);
  }

  /** `setMonth(getMonth() + k)` on a date: the month moves by `k`, carrying
      into the year; a day past the end of the new month spills into the
      month after it. */
  function AddMonthsJs(d: Ymd, k: nat): (r: Ymd)
    requires Valid(d)
    ensures Valid(r)
    ensures var idx := d.month - 1 + k;
            var y, m := d.year + idx / 12, idx % 12 + 1;
            && DayNumber(r) == DaysBeforeYear(y) + DaysBeforeMonth(y, m) + d.day - 1
            && (d.day <= DaysInMonth(y, m) ==> r == Ymd(y, m, d.day))
            && (d.day > DaysInMonth(y, m) ==> r.year == y && r.month == m + 1 && r.day == d.day - DaysInMonth(y, m))
  {
    var idx := d.month - 1 + k;
    var y, m := d.year + idx / 12, idx % 12 + 1;
    if d.day <= DaysInMonth(y, m) then Ymd(y, m, d.day)
    else
      MonthStep(y, m);
      Ymd(y, m + 1, d.day - DaysInMonth(y, m))
  }

  /** `YYYY-MM-DD` as the components build it: the year unpadded, month and
      day zero-padded to two digits. */
  function FormatIsoDate(d: Ymd): (r: string)
    ensures Valid(d) && 1000 <= d.year <= 9999 ==>
              |r| == 10 && r[4] == '-' && r[7] == '-'
              && AllDigits(r[..4]) && AllDigits(r[5..7]) && AllDigits(r[8..])
  {
    var r := IntToString(d.year) + "-" + Pad2(d.month) + "-" + Pad2(d.day);
    assert Valid(d) && 1000 <= d.year <= 9999 ==> |IntToString(d.year)| == 4 && |Pad2(d.month)| == 2 && |Pad2(d.day)| == 2 by {
      if Valid(d) && 1000 <= d.year <= 9999 {
        NatToStringLength(d.year, 4);
        Pad2Digits(d.month);
        Pad2Digits(d.day);
      }
    }
    r
  }

  /** A date-only ISO string with four-digit year, read as a calendar date;
      anything else is an invalid date. */
  function ParseIsoDate(s: string): (r: Option<Ymd>)
    ensures r.Some? ==> Valid(r.value) && 0 <= r.value.year <= 9999
  {
    if |s| == 10 && s[4] == '-' && s[7] == '-'
      && AllDigits(s[..4]) && AllDigits(s[5..7]) && AllDigits(s[8..])
    then
      var d := Ymd(DigitsValue(s[..4]), DigitsValue(s[5..7]), DigitsValue(s[8..]));
      assert DigitsValue(s[..4]) <= 9999 by { DigitsValueBound(s[..4]); }
      if Valid(d) then Some(d) else None
    else None
  }

  lemma {:induction false} DigitsValueBound(s: string)
    requires AllDigits(s)
    ensures DigitsValue(s) < Pow10(|s|)
    decreases |s|
  {
    if s != [] {
      DigitsValueBound(s[..|s| - 1]);
    }
  }

  function Pow10(n: nat): (p: nat)
    ensures p >= 1
  {
    if n == 0 then 1 else 10 * Pow10(n - 1)
  }

  /** A number has `k` decimal digits exactly when it lies in [10^(k-1), 10^k). */
  lemma {:induction false} NatToStringLength(n: nat, k: nat)
    requires k >= 1 && Pow10(k - 1) <= n < Pow10(k)
    ensures |NatToString(n)| == k
    decreases k
  {
    if k > 1 {
      assert Pow10(k - 1) == 10 * Pow10(k - 2);
      NatToStringLength(n / 10, k - 1);
    }
  }

  /** A two-character zero-padded field reads back as its number. */
  lemma Pad2Digits(n: int)
    requires 1 <= n <= 99
    ensures |Pad2(n)| == 2 && AllDigits(Pad2(n)) && DigitsValue(Pad2(n)) == n
  {
    Pad2Shape(n);
    if n < 10 {
      TwoDigitsValue(0, n);
    } else {
      TwoDigitsValue(n / 10, n % 10);
    }
  }

  lemma TwoDigitsValue(hi: nat, lo: nat)
    requires hi < 10 && lo < 10
    ensures var s := [DigitChar(hi), DigitChar(lo)];
            AllDigits(s) && DigitsValue(s) == 10 * hi + lo
  {
    var s := [DigitChar(hi), DigitChar(lo)];
    assert s[..1] == [DigitChar(hi)];
    assert s[..1][..0] == [];
    assert DigitsValue(s[..1]) == hi;
  }

  /** How `ParseIsoDate` reads a string assembled from its three fields. */
  lemma ParseOfFields(ys: string, ms: string, ds: string)
    requires |ys| == 4 && |ms| == 2 && |ds| == 2
    requires AllDigits(ys) && AllDigits(ms) && AllDigits(ds)
    ensures var d := Ymd(DigitsValue(ys), DigitsValue(ms), DigitsValue(ds));
            ParseIsoDate(ys + "-" + ms + "-" + ds) == if Valid(d) then Some(d) else None
  {
    var s := ys + "-" + ms + "-" + ds;
    assert s[..4] == ys && s[5..7] == ms && s[8..] == ds;
  }

  /** Formatting a four-digit-year date and parsing it back gives the date. */
  lemma ParseFormatRoundTrip(d: Ymd)
    requires Valid(d) && 1000 <= d.year <= 9999
    ensures ParseIsoDate(FormatIsoDate(d)) == Some(d)
  {
    NatToStringLength(d.year, 4);
    DigitsValueOfNatToString(d.year);
    Pad2Digits(d.month);
    Pad2Digits(d.day);
    ParseOfFields(IntToString(d.year), Pad2(d.month), Pad2(d.day));
  }

  /** Two valid four-digit-year dates format equally only when they are equal,
      so comparing formatted strings compares dates. */
  lemma FormatIsoDateInjective(a: Ymd, b: Ymd)
    requires Valid(a) && 1000 <= a.year <= 9999
    requires Valid(b) && 1000 <= b.year <= 9999
    requires FormatIsoDate(a) == FormatIsoDate(b)
    ensures a == b
  {
    ParseFormatRoundTrip(a);
    ParseFormatRoundTrip(b);
  }
}
