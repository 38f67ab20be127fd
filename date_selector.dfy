/** The date selector: today as the selected and earliest selectable date,
    three months ahead as the latest, the conversion of a picked date into a
    JavaScript `Date`, and the weekend test. "Today" is a parameter; every
    `dateSelected` emission is appended to `emitted`. */
module DateSelector {
  import opened Wrappers
  import opened Calendar

  /** The local fields of a JavaScript `Date`: its month is 0-based. */
  datatype JsDate = JsDate(year: int, monthIndex: int, day: int)

  /** `new Date(s.year, s.month - 1, s.day)`. */
  function ToJsDate(s: Ymd): JsDate {
    JsDate(s.year, s.month - 1, s.day)
  }

  /** `{ year: getFullYear(), month: getMonth() + 1, day: getDate() }`. */
  function ToStruct(j: JsDate): Ymd {
    Ymd(j.year, j.monthIndex + 1, j.day)
  }

  /** The conversion between the picker's 1-based month and the `Date`'s
      0-based month, both ways, for structs that are calendar dates. */
  lemma StructRoundTrip(s: Ymd, j: JsDate)
    requires Valid(s) && Valid(ToStruct(j))
    ensures ToStruct(ToJsDate(s)) == s
    ensures ToJsDate(ToStruct(j)) == j
  {
  }

  /** The first of the month `k` months after month `m` of year `y`: the
      month and year that `setMonth(getMonth() + k)` moves to. */
  function MonthAhead(y: int, m: int, k: nat): (r: (int, int))
    requires 1 <= m <= 12
    ensures 1 <= r.1 <= 12
  {
    var idx := m - 1 + k;
    (y + idx / 12, idx % 12 + 1)
  }

  /** Days from 0001-01-01 to the first of month `m` of year `y`. */
  function MonthStart(y: int, m: int): int
    requires 1 <= m <= 12
  {
    DaysBeforeYear(y) + DaysBeforeMonth(y, m)
  }

  /** One month ahead starts one month length later. */
  lemma NextMonthStart(y: int, m: int)
    requires 1 <= m <= 12
    ensures var n := MonthAhead(y, m, 1);
            MonthStart(n.0, n.1) == MonthStart(y, m) + DaysInMonth(y, m)
  {
    MonthStep(y, m);
    if m == 12 {
      YearStep(y);
    }
  }

  /** Three months ahead is three single steps. */
  lemma ThreeSteps(y: int, m: int)
    requires 1 <= m <= 12
    ensures var a := MonthAhead(y, m, 1);
            var b := MonthAhead(a.0, a.1, 1);
            MonthAhead(b.0, b.1, 1) == MonthAhead(y, m, 3)
  {
  }

  /** Any three consecutive months are 89 to 92 days long. */
  lemma ThreeMonthLengths(y: int, m: int)
    requires 1 <= m <= 12
    ensures var a := MonthAhead(y, m, 1);
            var b := MonthAhead(a.0, a.1, 1);
            89 <= DaysInMonth(y, m) + DaysInMonth(a.0, a.1) + DaysInMonth(b.0, b.1) <= 92
  {
    var a := MonthAhead(y, m, 1);
    var b := MonthAhead(a.0, a.1, 1);
    if m == 12 {
      assert a == (y + 1, 1) && b == (y + 1, 2);
    } else if m == 11 {
      assert a == (y, 12) && b == (y + 1, 1);
    } else {
      assert a == (y, m + 1) && b == (y, m + 2);
    }
  }

  /** Three months ahead starts three month lengths later. */
  lemma ThreeMonthStarts(y: int, m: int)
    requires 1 <= m <= 12
    ensures var a := MonthAhead(y, m, 1);
            var b := MonthAhead(a.0, a.1, 1);
            var c := MonthAhead(y, m, 3);
            MonthStart(c.0, c.1) == MonthStart(y, m) + DaysInMonth(y, m) + DaysInMonth(a.0, a.1) + DaysInMonth(b.0, b.1)
  {
    var a := MonthAhead(y, m, 1);
    var b := MonthAhead(a.0, a.1, 1);
    NextMonthStart(y, m);
    NextMonthStart(a.0, a.1);
    NextMonthStart(b.0, b.1);
    ThreeSteps(y, m);
  }

  /** Three months ahead starts 89 to 92 days after the first of the month. */
  lemma ThreeMonthSpan(y: int, m: int)
    requires 1 <= m <= 12
    ensures var c := MonthAhead(y, m, 3);
            89 <= MonthStart(c.0, c.1) - MonthStart(y, m) <= 92
  {
    ThreeMonthStarts(y, m);
    ThreeMonthLengths(y, m);
  }

  /** `setMonth(getMonth() + k)` keeps the day's offset from the first of the
      month, possibly running into the next month. */
  lemma AddMonthsOffset(d: Ymd, k: nat)
    requires Valid(d)
    ensures var c := MonthAhead(d.year, d.month, k);
            && DayNumber(AddMonthsJs(d, k)) == MonthStart(c.0, c.1) + d.day - 1
            && DayNumber(d) == MonthStart(d.year, d.month) + d.day - 1
  {
  }

  /** The latest selectable date lies between 89 and 92 days after today:
      three whole months, whichever three they are. */
  lemma ThreeMonthsAhead(today: Ymd)
    requires Valid(today)
    ensures 89 <= DayNumber(AddMonthsJs(today, 3)) - DayNumber(today) <= 92
  {
    ThreeMonthSpan(today.year, today.month);
    AddMonthsOffset(today, 3);
  }

  const DaysPerWeek: nat := 7

  /** `isWeekend`: `getDay()` is Sunday (0) or Saturday (6). */
  predicate IsWeekend(d: Ymd)
    requires Valid(d)
  {
    Weekday(d) == 0 || Weekday(d) == 6
  }

  /** Going back `k` days from weekday `w` lands on Sunday or Saturday exactly
      for one of two values of `k`. */
  lemma WeekendResidue(w: int, k: int)
    requires 0 <= w < 7 && 0 <= k < 7
    ensures (w - k) % 7 == 0 <==> k == w
    ensures (w - k) % 7 == 6 <==> k == (w + 1) % 7
    ensures (w - 7) % 7 == w
  {
  }

  /** The offsets `k` in the seven days `d - k` ending at `d` that fall on a weekend. */
  function WeekendOffsets(d: Ymd): set<int>
    requires Valid(d)
  {
    set k | 0 <= k < 7 && IsWeekend(MinusDays(d, k))
  }

  /** Any seven consecutive days hold exactly two weekend days: the Saturday
      and the Sunday. */
  lemma TwoWeekendDaysPerWeek(d: Ymd)
    requires Valid(d)
    ensures |WeekendOffsets(d)| == 2
  {
    var w := Weekday(d);
    var weekend := WeekendOffsets(d);
    forall k | 0 <= k < 7
      ensures IsWeekend(MinusDays(d, k)) <==> k == w || k == (w + 1) % 7
    {
      WeekdayBackwards(d, k);
      WeekendResidue(w, k);
    }
    assert weekend == {w, (w + 1) % 7};
    PairSize(w, (w + 1) % 7);
  }

  lemma PairSize(a: int, b: int)
    requires a != b
    ensures |{a, b}| == 2
  {
  }

  /** A week earlier is a weekend day exactly when `d` is. */
  lemma WeekendRepeatsWeekly(d: Ymd)
    requires Valid(d)
    ensures IsWeekend(MinusDays(d, DaysPerWeek)) <==> IsWeekend(d)
  {
    WeekdayBackwards(d, DaysPerWeek);
    WeekendResidue(Weekday(d), 0);
    assert (Weekday(d) - 7) % 7 == Weekday(d) % 7;
  }

  class DateSelectorComponent {
    var selectedDate: Ymd
    var minDate: Ymd
    var maxDate: Ymd
    /** Every date emitted through `dateSelected`, oldest first. */
    var emitted: seq<JsDate>

    /** Today is selected and is the earliest date; the latest is three months on. */
    constructor (today: Ymd)
      requires Valid(today)
      ensures selectedDate == today && minDate == today
      ensures maxDate == AddMonthsJs(today, 3)
      ensures Valid(maxDate) && DayNumber(minDate) < DayNumber(maxDate)
      ensures emitted == []
    {
      selectedDate, minDate := today, today;
      maxDate := AddMonthsJs(today, 3);
      emitted := [];
      ThreeMonthsAhead(today);
    }

    /** `onDateChange`: a picked date is emitted as a `Date`; no date, no emission. */
    method OnDateChange(date: Option<Ymd>)
      modifies this`emitted
      ensures date.None? ==> emitted == old(emitted)
      ensures date.Some? ==> emitted == old(emitted) + [ToJsDate(date.value)]
      ensures date.Some? ==> ToStruct(emitted[|emitted| - 1]) == date.value
    {
      if date.Some? {
        emitted := emitted + [ToJsDate(date.value)];
      }
    }
  }
}
