/** The occupancy report: the default "last seven days" window, the choice
    of statistics request for the selected period, the loading and error
    state, the working-day series behind the charts, the date labels and the
    CSV export. "Today" and the server's answers are parameters; the
    occupancy rate, a floating-point number, is carried as the text
    JavaScript renders it as. */
module OccupancyReport {
  import opened Wrappers
  import opened Text
  import opened Calendar
  import opened Seqs

  /** One day of the report, as the server sends it. */
  datatype DayOccupancy = DayOccupancy(
    date: string,
    dayOfWeek: string,
    occupiedDesks: int,
    freeDesks: int,
    occupancyRate: string,
    isHoliday: bool)

  /** The fields of the statistics the component reads. */
  datatype Statistics = Statistics(startDate: string, endDate: string, dailyOccupancy: seq<DayOccupancy>)

  /** The values of the period selector. */
  datatype QuickPeriod = Today | Week | Month | Custom

  /** The four statistics endpoints. */
  datatype StatisticsRequest = TodayStatistics | CurrentWeekStatistics | CurrentMonthStatistics
                             | RangeStatistics(startDate: string, endDate: string)

  /** The request `loadStatistics` sends for a period. */
  function RequestFor(period: QuickPeriod, startDate: string, endDate: string): (r: StatisticsRequest)
    ensures r.RangeStatistics? <==> period == Custom
    ensures r.RangeStatistics? ==> r.startDate == startDate && r.endDate == endDate
    ensures r == TodayStatistics <==> period == Today
    ensures r == CurrentWeekStatistics <==> period == Week
    ensures r == CurrentMonthStatistics <==> period == Month
  {
    match period
    case Today => TodayStatistics
    case Week => CurrentWeekStatistics
    case Month => CurrentMonthStatistics
    case Custom => RangeStatistics(startDate, endDate)
  }

  /** The default report covers the days from a week before today. */
  const WindowDays: nat := 7

  const ErrorPrefix: string := "Errore nel caricamento delle statistiche: "

  /** `'...' + err.message`: an absent message is rendered as the word "undefined". */
  function MessageText(message: Option<string>): string {
    match message
    case Some(m) => m
    case None => "undefined"
  }

  // ---------------------------------------------------------------------------
  // Chart series

  /** `dailyOccupancy.filter(d => !d.isHoliday)`. */
  function WorkingDays(days: seq<DayOccupancy>): (r: seq<DayOccupancy>)
    ensures IsSubsequence(r, days)
    ensures forall k :: 0 <= k < |r| ==> !r[k].isHoliday
    ensures forall d :: d in days && !d.isHoliday ==> d in r
    ensures (forall d :: d in days ==> !d.isHoliday) ==> r == days
    ensures forall d :: multiset(r)[d] == if d.isHoliday then 0 else multiset(days)[d]
    decreases |days|
  {
    if days == [] then []
    else
      var rest := WorkingDays(days[1..]);
      assert forall d :: d in days ==> d == days[0] || d in days[1..];
      assert multiset(days) == multiset{days[0]} + multiset(days[1..]) by { assert days == [days[0]] + days[1..]; }
      if days[0].isHoliday then
        SubsequenceOfTail(rest, days);
        rest
      else
        assert multiset([days[0]] + rest) == multiset{days[0]} + multiset(rest);
        [days[0]] + rest
  }

  /** The series the two daily charts plot. */
  datatype ChartSeries = ChartSeries(
    labels: seq<string>,
    occupied: seq<int>,
    free: seq<int>,
    rates: seq<string>)

  /** Labels, occupied, free and rate series, one entry per working day in order. */
  function DailySeries(days: seq<DayOccupancy>): (c: ChartSeries)
    ensures var w := WorkingDays(days);
            && |c.labels| == |w| && |c.occupied| == |w| && |c.free| == |w| && |c.rates| == |w|
            && forall k :: 0 <= k < |w| ==>
                 && c.labels[k] == FormatDateLabel(w[k].date, w[k].dayOfWeek)
                 && c.occupied[k] == w[k].occupiedDesks
                 && c.free[k] == w[k].freeDesks
                 && c.rates[k] == w[k].occupancyRate
  {
    var w := WorkingDays(days);
    ChartSeries(
      seq(|w|, k requires 0 <= k < |w| => FormatDateLabel(w[k].date, w[k].dayOfWeek)),
      seq(|w|, k requires 0 <= k < |w| => w[k].occupiedDesks),
      seq(|w|, k requires 0 <= k < |w| => w[k].freeDesks),
      seq(|w|, k requires 0 <= k < |w| => w[k].occupancyRate))
  }

  /** The series never hold more points than the report has days, and hold all
      of them when there is no holiday. */
  lemma DailySeriesLength(days: seq<DayOccupancy>)
    ensures |DailySeries(days).labels| <= |days|
    ensures (forall k :: 0 <= k < |days| ==> !days[k].isHoliday) ==> |DailySeries(days).labels| == |days|
  {
    SubsequenceLength(WorkingDays(days), days);
  }

  // ---------------------------------------------------------------------------
  // Dates

  /** `s.substring(0, 3)`. */
  function Prefix3(s: string): (r: string)
    ensures |r| == if |s| < 3 then |s| else 3
    ensures r == s[..|r|]
  {
    if |s| < 3 then s else s[..3]
  }

  /** `formatDateLabel`: `DD/MM (Ddd)`; a date string that is not a date
      gives NaN day and month. */
  function FormatDateLabel(dateString: string, dayOfWeek: string): (s: string)
    ensures ParseIsoDate(dateString).None? ==> s == "NaN/NaN (" + Prefix3(dayOfWeek) + ")"
  {
    match ParseIsoDate(dateString)
    case Some(d) => Pad2(d.day) + "/" + Pad2(d.month) + " (" + Prefix3(dayOfWeek) + ")"
    case None => "NaN/NaN (" + Prefix3(dayOfWeek) + ")"
  }

  /** The label of a date the server writes shows that date's day and month,
      each as two digits. */
  lemma FormatDateLabelOfDate(d: Ymd, dayOfWeek: string)
    requires Valid(d) && 1000 <= d.year <= 9999
    ensures FormatDateLabel(FormatIsoDate(d), dayOfWeek) == Pad2(d.day) + "/" + Pad2(d.month) + " (" + Prefix3(dayOfWeek) + ")"
  {
    ParseFormatRoundTrip(d);
  }

  // ---------------------------------------------------------------------------
  // CSV export

  /** The header line of the export, without its line break. */
  const CsvHeaderFields: string := "Data,Giorno,Postazioni Occupate," + "Postazioni Libere,Tasso Occupazione (%)"
  const CsvHeader: string := CsvHeaderFields + "\n"

  /** One CSV line: the five fields joined by commas, ended by a newline. */
  function CsvLine(d: DayOccupancy): string {
    d.date + "," + d.dayOfWeek + "," + IntToString(d.occupiedDesks) + ","
      + IntToString(d.freeDesks) + "," + d.occupancyRate + "\n"
  }

  /** The lines of `days`, in order. */
  function CsvLines(days: seq<DayOccupancy>): (lines: seq<string>)
    ensures |lines| == |days| && forall k :: 0 <= k < |days| ==> lines[k] == CsvLine(days[k])
  {
    seq(|days|, k requires 0 <= k < |days| => CsvLine(days[k]))
  }

  /** The text of the exported file. */
  function CsvText(days: seq<DayOccupancy>): string {
    CsvHeader + Concat(CsvLines(days))
  }

  /** The exported file: its name and its text. */
  datatype CsvFile = CsvFile(fileName: string, content: string)

  /** The export of two runs of days is the export of the first followed by the
      lines of the second. */
  lemma CsvTextAppend(a: seq<DayOccupancy>, b: seq<DayOccupancy>)
    ensures CsvText(a + b) == CsvText(a) + Concat(CsvLines(b))
  {
    assert CsvLines(a + b) == CsvLines(a) + CsvLines(b);
    ConcatAppend(CsvLines(a), CsvLines(b));
    AppendAssociative(CsvHeader, Concat(CsvLines(a)), Concat(CsvLines(b)));
  }

  /** The export is the header, then the first day's line, then the rest. */
  lemma CsvTextFirst(days: seq<DayOccupancy>)
    requires days != []
    ensures CsvText(days) == CsvHeader + CsvLine(days[0]) + Concat(CsvLines(days[1..]))
  {
    var first := CsvLine(days[0]);
    assert days == days[..1] + days[1..];
    CsvTextAppend(days[..1], days[1..]);
    assert CsvLines(days[..1]) == [] + [first];
    ConcatSnoc([], first);
    assert "" + first == first;
  }

  /** The number of times `c` occurs in `s`. */
  function CountChar(s: string, c: char): (n: nat)
    ensures n <= |s|
    ensures n == 0 <==> c !in s
    decreases |s|
  {
    if s == [] then 0 else (if s[|s| - 1] == c then 1 else 0) + CountChar(s[..|s| - 1], c)
  }

  lemma {:induction false} CountCharAppend(a: string, b: string, c: char)
    ensures CountChar(a + b, c) == CountChar(a, c) + CountChar(b, c)
    decreases |b|
  {
    if b != [] {
      assert (a + b)[..|a + b| - 1] == a + b[..|b| - 1];
      assert (a + b)[|a + b| - 1] == b[|b| - 1];
      CountCharAppend(a, b[..|b| - 1], c);
    } else {
      assert a + b == a;
    }
  }

  /** Each part holding one `c` makes the concatenation hold as many as there are parts. */
  lemma {:induction false} CountCharConcat(parts: seq<string>, c: char)
    requires forall k :: 0 <= k < |parts| ==> CountChar(parts[k], c) == 1
    ensures CountChar(Concat(parts), c) == |parts|
    decreases |parts|
  {
    if parts != [] {
      CountCharConcat(parts[..|parts| - 1], c);
      CountCharAppend(Concat(parts[..|parts| - 1]), parts[|parts| - 1], c);
    }
  }

  predicate NoNewline(s: string) {
    '\n' !in s
  }

  /** A day whose text fields hold no line break takes exactly one line. */
  lemma CsvLineOneNewline(d: DayOccupancy)
    requires NoNewline(d.date) && NoNewline(d.dayOfWeek) && NoNewline(d.occupancyRate)
    ensures CountChar(CsvLine(d), '\n') == 1
  {
    NumberHasNoNewline(d.occupiedDesks);
    NumberHasNoNewline(d.freeDesks);
    var o, f := IntToString(d.occupiedDesks), IntToString(d.freeDesks);
    CountCharAppend(d.date, ",", '\n');
    CountCharAppend(d.date + ",", d.dayOfWeek, '\n');
    CountCharAppend(d.date + "," + d.dayOfWeek, ",", '\n');
    CountCharAppend(d.date + "," + d.dayOfWeek + ",", o, '\n');
    CountCharAppend(d.date + "," + d.dayOfWeek + "," + o, ",", '\n');
    CountCharAppend(d.date + "," + d.dayOfWeek + "," + o + ",", f, '\n');
    CountCharAppend(d.date + "," + d.dayOfWeek + "," + o + "," + f, ",", '\n');
    CountCharAppend(d.date + "," + d.dayOfWeek + "," + o + "," + f + ",", d.occupancyRate, '\n');
    CountCharAppend(d.date + "," + d.dayOfWeek + "," + o + "," + f + "," + d.occupancyRate, "\n", '\n');
  }

  lemma NumberHasNoNewline(i: int)
    ensures NoNewline(IntToString(i))
  {
    var s := IntToString(i);
    if i < 0 {
      assert forall k :: 1 <= k < |s| ==> s[k] == s[1..][k - 1];
    }
  }

  /** The header is a single line. */
  lemma HeaderOneNewline()
    ensures CountChar(CsvHeader, '\n') == 1
  {
    CountCharAppend(CsvHeaderFields, "\n", '\n');
    assert '\n' !in "Data,Giorno,Postazioni Occupate,";
    assert '\n' !in "Postazioni Libere,Tasso Occupazione (%)";
  }

  /** The export holds the header line and one line per day: `1 + n` line breaks
      when no text field holds one of its own. */
  lemma CsvLineCount(days: seq<DayOccupancy>)
    requires forall k :: 0 <= k < |days| ==>
               NoNewline(days[k].date) && NoNewline(days[k].dayOfWeek) && NoNewline(days[k].occupancyRate)
    ensures CountChar(CsvText(days), '\n') == |days| + 1
  {
    var lines := CsvLines(days);
    forall k | 0 <= k < |lines|
      ensures CountChar(lines[k], '\n') == 1
    {
      CsvLineOneNewline(days[k]);
    }
    CountCharConcat(lines, '\n');
    CountCharAppend(CsvHeader, Concat(lines), '\n');
    HeaderOneNewline();
  }

  /** The `forEach` of `exportToCSV`: `text += line` for each line in turn. */
  method AppendLines(start: string, lines: seq<string>) returns (text: string)
    ensures text == start + Concat(lines)
  {
    text := start;
    for i := 0 to |lines|
      invariant text == start + Concat(lines[..i])
    {
      ConcatSnoc(lines[..i], lines[i]);
      assert lines[..i + 1] == lines[..i] + [lines[i]];
      AppendAssociative(start, Concat(lines[..i]), lines[i]);
      text := text + lines[i];
    }
    assert lines[..|lines|] == lines;
  }

  // ---------------------------------------------------------------------------
  // The component

  class OccupancyReportComponent {
    var statistics: Option<Statistics>
    var loading: bool
    var error: Option<string>
    var startDate: string
    var endDate: string
    var quickPeriod: QuickPeriod

    /** The default window: from seven days before today to today, the week period selected. */
    constructor (today: Ymd)
      requires Valid(today)
      ensures endDate == FormatIsoDate(today)
      ensures startDate == FormatIsoDate(MinusDays(today, WindowDays))
      ensures quickPeriod == Week && statistics.None? && !loading && error.None?
    {
      endDate := FormatIsoDate(today);
      startDate := FormatIsoDate(MinusDays(today, WindowDays));
      quickPeriod := Week;
      statistics, loading, error := None, false, None;
    }

    /** `loadStatistics`, up to the request: marks loading and clears the error. */
    method LoadStatistics() returns (request: StatisticsRequest)
      modifies this`loading, this`error
      ensures loading && error.None?
      ensures request == RequestFor(quickPeriod, startDate, endDate)
    {
      loading, error := true, None;
      request := RequestFor(quickPeriod, startDate, endDate);
    }

    /** The success branch of `loadStatistics`. */
    method OnStatisticsLoaded(data: Statistics)
      modifies this`statistics, this`loading
      ensures statistics == Some(data) && !loading
    {
      statistics, loading := Some(data), false;
    }

    /** The error branch of `loadStatistics`. */
    method OnStatisticsFailed(message: Option<string>)
      modifies this`error, this`loading
      ensures error == Some(ErrorPrefix + MessageText(message)) && !loading
    {
      error, loading := Some(ErrorPrefix + MessageText(message)), false;
    }

    /** `onQuickPeriodChange`: reloads for every period except the custom one. */
    method OnQuickPeriodChange() returns (request: Option<StatisticsRequest>)
      modifies this`loading, this`error
      ensures quickPeriod == Custom ==> request.None? && loading == old(loading) && error == old(error)
      ensures quickPeriod != Custom ==> request == Some(RequestFor(quickPeriod, startDate, endDate)) && loading && error.None?
    {
      request := None;
      if quickPeriod != Custom {
        var r := LoadStatistics();
        request := Some(r);
      }
    }

    /** `applyCustomFilter`: with both dates filled in, switches to the custom
        period and asks for exactly that range. */
    method ApplyCustomFilter() returns (request: Option<StatisticsRequest>)
      modifies this`quickPeriod, this`loading, this`error
      ensures startDate == "" || endDate == "" ==>
                request.None? && quickPeriod == old(quickPeriod) && loading == old(loading) && error == old(error)
      ensures startDate != "" && endDate != "" ==>
                quickPeriod == Custom && request == Some(RangeStatistics(startDate, endDate)) && loading && error.None?
    {
      request := None;
      if startDate != "" && endDate != "" {
        quickPeriod := Custom;
        var r := LoadStatistics();
        request := Some(r);
      }
    }

    /** `exportToCSV`: nothing without statistics; otherwise the header and one
        line per day, in order, under a name made of the report's range. */
    method ExportToCsv() returns (file: Option<CsvFile>)
      ensures statistics.None? ==> file.None?
      ensures statistics.Some? ==>
                file == Some(CsvFile("report-occupazione-" + statistics.value.startDate + "-" + statistics.value.endDate + ".csv",
                                     CsvText(statistics.value.dailyOccupancy)))
    {
      if statistics.None? {
        return None;
      }
      var csv := AppendLines(CsvHeader, CsvLines(statistics.value.dailyOccupancy));
      file := Some(CsvFile("report-occupazione-" + statistics.value.startDate + "-" + statistics.value.endDate + ".csv", csv));
    }
  }
}
