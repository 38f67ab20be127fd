/** The Italian texts of the date picker: weekday and month names looked up
    by their 1-based number, the week column's title and the spoken label of
    a day. An index outside a table reads `undefined`, modelled as `None`. */
module DatepickerI18n {
  import opened Wrappers
  import opened Text
  import opened Calendar
  import opened DateSelector

  const Weekdays: seq<string> := ["Lu", "Ma", "Me", "Gi", "Ve", "Sa", "Do"]
  const Months: seq<string> := ["Gen", "Feb", "Mar", "Apr", "Mag", "Giu", "Lug", "Ago", "Set", "Ott", "Nov", "Dic"]
  const FullMonths: seq<string> := ["Gennaio", "Febbraio", "Marzo", "Aprile", "Maggio", "Giugno",
                                    "Luglio", "Agosto", "Settembre", "Ottobre", "Novembre", "Dicembre"]

  /** `table[n - 1]`: defined for 1 to `|table|` only. */
  function Lookup(table: seq<string>, n: int): (r: Option<string>)
    ensures r.Some? <==> 1 <= n <= |table|
    ensures r.Some? ==> r.value == table[n - 1]
  {
    if 1 <= n <= |table| then Some(table[n - 1]) else None
  }

  /** `getWeekdayLabel`: 1 is Monday, 7 is Sunday. */
  function WeekdayLabel(weekday: int): (r: Option<string>)
    ensures r.Some? <==> 1 <= weekday <= 7
    ensures weekday == 1 ==> r == Some("Lu")
    ensures weekday == 7 ==> r == Some("Do")
  {
    Lookup(Weekdays, weekday)
  }

  /** `getWeekLabel`. */
  const WeekLabel: string := "Sett"

  /** `getMonthShortName`: 1 is January. */
  function MonthShortName(month: int): (r: Option<string>)
    ensures r.Some? <==> 1 <= month <= 12
  {
    Lookup(Months, month)
  }

  /** `getMonthFullName`: 1 is January. */
  function MonthFullName(month: int): (r: Option<string>)
    ensures r.Some? <==> 1 <= month <= 12
  {
    Lookup(FullMonths, month)
  }

  /** Each short month name is the first three letters of the full one. */
  lemma ShortNamesArePrefixes(month: int)
    requires 1 <= month <= 12
    ensures MonthShortName(month).value == MonthFullName(month).value[..3]
  {
    var k := month - 1;
    assert k in {0, 1, 2, 3, 4, 5, 6, 7, 8, 9, 10, 11};
  }

  /** The names of different months, and of different weekdays, differ. */
  lemma NamesDistinct(a: int, b: int)
    ensures 1 <= a <= 12 && 1 <= b <= 12 && a != b ==> MonthFullName(a) != MonthFullName(b)
    ensures 1 <= a <= 7 && 1 <= b <= 7 && a != b ==> WeekdayLabel(a) != WeekdayLabel(b)
  {
    if 1 <= a <= 12 && 1 <= b <= 12 && a != b {
      assert FullMonths[a - 1][..3] != FullMonths[b - 1][..3] by {
        ShortNamesArePrefixes(a);
        ShortNamesArePrefixes(b);
        assert Months[a - 1] != Months[b - 1];
      }
    }
  }

  /** The `getDay()` of a date (0 is Sunday) as the picker's weekday number
      (1 is Monday, 7 is Sunday). */
  function PickerWeekday(d: Ymd): (n: int)
    requires Valid(d)
    ensures 1 <= n <= 7
    ensures n == 7 <==> Weekday(d) == 0
  {
    if Weekday(d) == 0 then 7 else Weekday(d)
  }

  /** The days `isWeekend` marks are exactly those the picker shows in the
      columns titled "Sa" and "Do". */
  lemma WeekendColumns(d: Ymd)
    requires Valid(d)
    ensures IsWeekend(d) <==> WeekdayLabel(PickerWeekday(d)) in {Some("Sa"), Some("Do")}
  {
    var w := Weekday(d);
    assert w in {0, 1, 2, 3, 4, 5, 6};
  }

  /** `getDayAriaLabel`: `day/month/year` with unpadded numbers. */
  function DayAriaLabel(date: Ymd): (r: string)
    ensures date.day >= 0 ==>
              var k := |IntToString(date.day)|;
              k < |r| && r[k] == '/' && AllDigits(r[..k]) && DigitsValue(r[..k]) == date.day
  {
    var day := IntToString(date.day);
    var r := day + "/" + IntToString(date.month) + "/" + IntToString(date.year);
    assert date.day >= 0 ==> r[..|day|] == day && DigitsValue(day) == date.day by {
      if date.day >= 0 {
        DigitsValueOfNatToString(date.day);
      }
    }
    r
  }

  /** The label names the day unambiguously: two positive dates with the same
      label are the same date. */
  lemma DayAriaLabelInjective(a: Ymd, b: Ymd)
    requires a.day >= 0 && a.month >= 0 && a.year >= 0 && b.day >= 0 && b.month >= 0 && b.year >= 0
    requires DayAriaLabel(a) == DayAriaLabel(b)
    ensures a == b
  {
    var da, ma, ya := IntToString(a.day), IntToString(a.month), IntToString(a.year);
    var db, mb, yb := IntToString(b.day), IntToString(b.month), IntToString(b.year);
    assert da + "/" + (ma + "/" + ya) == DayAriaLabel(a);
    assert db + "/" + (mb + "/" + yb) == DayAriaLabel(b);
    SplitAtSlash(da, ma + "/" + ya, db, mb + "/" + yb);
    SplitAtSlash(ma, ya, mb, yb);
    NatToStringInjective(a.day, b.day);
    NatToStringInjective(a.month, b.month);
    NatToStringInjective(a.year, b.year);
  }

  /** Digit strings joined by a slash split back at the first slash. */
  lemma SplitAtSlash(x1: string, y1: string, x2: string, y2: string)
    requires AllDigits(x1) && AllDigits(x2)
    requires x1 + "/" + y1 == x2 + "/" + y2
    ensures x1 == x2 && y1 == y2
  {
    var s := x1 + "/" + y1;
    var k := if |x1| < |x2| then |x1| else |x2|;
    SlashAfterDigits(x1, y1, k);
    SlashAfterDigits(x2, y2, k);
    assert x1 == s[..|x1|] == x2;
    assert y1 == s[|x1| + 1..] == y2;
  }

  /** Within `x + "/" + y`, a position up to `|x|` holds a slash exactly at `|x|`
      when `x` is made of digits. */
  lemma SlashAfterDigits(x: string, y: string, k: nat)
    requires AllDigits(x) && k <= |x|
    ensures (x + "/" + y)[k] == '/' <==> k == |x|
  {
  }
}
