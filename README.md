# Desk booking front end, modelled in Dafny

This project models the decision logic of an Angular front end for booking
office desks, together with the small Python tool used to record desk
coordinates on floor plans. Its parts:

- **Floor map.** The floor map merges a floor's desk roster with the desks
  available on the selected date and with that date's bookings. From the
  merged list it decides:
  - what a click on a desk does;
  - the colour class and tooltip of each desk;
  - which desks the search box and the "my booking only" switch keep;
  - which booking requests a confirmation sends, and in what order.

  It also keeps the zoom level and pan offset of the drawing.
- **Booking list.** Which booking status allows check-in, check-out and
  cancellation, and the label and badge shown for each status.
- **Holidays administration.** The list of selectable years, the create and
  edit dialogs, and the save step. Saving assembles the date, refuses a form
  without date or name, and chooses between update and create. Also the icon
  and colour of each holiday type.
- **Occupancy report.**
  - The default window from a week ago to today.
  - The statistics request chosen for each period.
  - The working-day series behind the charts.
  - The `DD/MM (Ddd)` chart labels.
  - The CSV export.
- **Floor selector.** Floors sorted by floor number, and the initial choice:
  the preselected floor, else the lowest.
- **Date selector.** Today as the earliest date, today plus three months as
  the latest (with JavaScript's month rollover), and the weekend test.
- **Registration form.** The field validators, the password confirmation, the
  cleaned request and the message shown for each server failure.
- **Route guards.** The authentication guard (login redirect, role list) and
  the administration guard (ADMIN or MANAGER).
- **Datepicker texts.** The Italian weekday and month names, the week
  column's title (the constant `WeekLabel`, "Sett") and the `day/month/year`
  spoken label.
- **Desk-position annotator.** The list of annotated points. A click marks a
  provisional point; "Aggiungi" adds it under the typed id, refusing an empty
  or repeated id, and proposes the next number. "Undo" removes the last point
  and "Salva CSV" exports all points.

Each source file is a module. Code that works on values is written as
functions and lemmas. Each component whose fields change is a class whose
methods state the whole new state. Three helper modules are shared:

- `Text` covers whitespace trimming, lower-casing, substring search and
  decimal rendering and parsing.
- `Calendar` covers proleptic Gregorian dates and `YYYY-MM-DD` strings.
- `Seqs` covers subsequences.

Things the browser or the server supplies are parameters:

- today's date;
- the fetched lists and the request outcomes;
- the authentication state;
- the drawing's bounding box.

Three behaviours of the code worth knowing:

- A click on an unavailable desk shows the occupant only when a booking is
  attached. Otherwise nothing happens, whatever the booking state.
- In `confirmModifyBooking`, a failed create after a successful cancel shows
  the ordinary create-error notice.
- The holiday dialog's years run from the current year minus one to the
  current year plus three. The comment beside the loop says "± 2".

## Model

| member | source | states |
|---|---|---|
| FloorMap.FindBooking | src/app/components/floor-map/floor-map.component.ts:289 | the booking found is the first one of the desk, and none is found exactly when no booking names the desk |
| FloorMap.IsListed | src/app/components/floor-map/floor-map.component.ts:288 | true exactly when some available desk has the desk's id |
| FloorMap.Reconcile | src/app/components/floor-map/floor-map.component.ts:278-307 | one entry per roster desk, in roster order. Each entry is available iff its id is listed as available and carries the desk's first booking. It is the current user's iff that booking exists with the user's id. Its position is the layout's or the fallback grid's. |
| FloorMap.ReconcileEntrywise | src/app/components/floor-map/floor-map.component.ts:286-304 | the merge of a longer roster is the merge of its parts joined: each entry depends only on its own desk |
| FloorMap.BookedByCurrentUserMeansOwnBooking | src/app/components/floor-map/floor-map.component.ts:289-290 | a desk marked as the user's has a first booking carrying the user's id |
| FloorMap.FloorMapComponent.BuildDeskPositions | src/app/components/floor-map/floor-map.component.ts:278-307 | without a floor nothing changes. Otherwise the list is replaced by the merge, and the flag ends true iff some entry is the current user's. |
| FloorMap.DeskClickAction | src/app/components/floor-map/floor-map.component.ts:335-360 | exactly one of five outcomes, each with an if-and-only-if condition: occupant info, nothing, already yours, modify, confirm |
| FloorMap.FloorMapComponent.OnDeskClick | src/app/components/floor-map/floor-map.component.ts:335-360 | records the booking or desk and opens the modal the decision names; a click on the desk already booked for the date shows the info notice "Hai già prenotato questa postazione per questa data!" and no other click shows one; everything else is unchanged |
| FloorMap.DeskClass | src/app/components/floor-map/floor-map.component.ts:458-465 | `desk-circle` always, and exactly one of mine, available or occupied; mine iff booked by the current user |
| FloorMap.TooltipAgreesWithClass | src/app/components/floor-map/floor-map.component.ts:467-478 | the tooltip says "La tua prenotazione" iff the class is mine, and "Disponibile" iff available. An occupied desk with a booking shows "Occupata da" and the occupant's name (the word `undefined` when the booking has no name); an occupied desk without a booking shows the bare heading; and those two texts appear only on occupied desks. |
| FloorMap.DeskTooltip | src/app/components/floor-map/floor-map.component.ts:467-478 | the tooltip always starts with `Postazione` and the desk number; the exact text that follows, for each colour class, is stated by TooltipAgreesWithClass |
| FloorMap.MatchesSearchFilter | src/app/components/floor-map/floor-map.component.ts:481-494 | a blank or whitespace-only filter matches all desks. Otherwise a desk matches iff the trimmed, lower-cased term occurs in the lower-cased notes or occupant name. |
| FloorMap.FilterIgnoresPadding | src/app/components/floor-map/floor-map.component.ts:482-486 | whitespace added around the filter text does not change any match |
| FloorMap.FilteredDeskPositions | src/app/components/floor-map/floor-map.component.ts:315-323 | an order-preserving subsequence holding exactly the desks shown, each shown desk as many times as in the input. With the switch on, each is the current user's. |
| FloorMap.BlankFilterShowsAll | src/app/components/floor-map/floor-map.component.ts:315-317 | with a blank filter and the switch off the list is returned whole |
| FloorMap.CanCancelBooking | src/app/components/floor-map/floor-map.component.ts:215-232 | true iff a selected booking is ACTIVE and its date reads as a day no earlier than today |
| FloorMap.CanCancelTodaysBooking | src/app/components/floor-map/floor-map.component.ts:215-232 | an ACTIVE booking dated today, written as the server writes dates, can be cancelled |
| FloorMap.CancelWindowCloses | src/app/components/floor-map/floor-map.component.ts:226-231 | a booking cancellable on some day was cancellable on every earlier day |
| FloorMap.NewBookingCall | src/app/components/floor-map/floor-map.component.ts:389-393 | a create request for the chosen desk whose date string reads back as the selected date (`formatDate` round trip) |
| FloorMap.ErrorText | src/app/components/floor-map/floor-map.component.ts:406 | `message \|\| fallback`: the message when non-empty, never empty when the fallback is not |
| FloorMap.FloorMapComponent.constructor | src/app/components/floor-map/floor-map.component.ts:44-94 | the field initialisers: user 1, zoom 1, no pan, empty lists, no selection |
| FloorMap.FloorMapComponent.ConfirmBooking | src/app/components/floor-map/floor-map.component.ts:380-409 | no desk or date: nothing. Unauthenticated: a warning and the modal closes. Otherwise one full-day request; on success a notice, a reload and the modal closes; on failure the error text. |
| FloorMap.FloorMapComponent.ConfirmModifyBooking | src/app/components/floor-map/floor-map.component.ts:411-446 | the create request is sent only after the cancel succeeded, for the desk and date selected when the cancel's reply arrives. If that selection was cleared in between, the callback fails after the cancel: nothing is created and no notice is shown. The existing booking is dropped, and a reload happens, iff both requests were sent and succeeded; otherwise it and the modal are unchanged. |
| FloorMap.FloorMapComponent.DismissConfirm | src/app/components/floor-map/floor-map.component.ts:448-451 | the selected desk is forgotten and the modal closed |
| FloorMap.FloorMapComponent.CloseModal | src/app/components/floor-map/floor-map.component.ts:453-456 | the selected booking is forgotten and the modal closed |
| FloorMap.FloorMapComponent.ZoomToPoint | src/app/components/floor-map/floor-map.component.ts:515-548 | the level becomes the clamped sum and stays in [1, 5]. Without a change, or without a drawing, the pan is untouched. Otherwise the content point under the focal offset stays put. |
| FloorMap.FloorMapComponent.ZoomIn | src/app/components/floor-map/floor-map.component.ts:507-509 | zoom by +0.2, clamped. The pan is untouched when the level does not change or there is no drawing; otherwise the content point under the focal offset stays put. |
| FloorMap.FloorMapComponent.ZoomOut | src/app/components/floor-map/floor-map.component.ts:511-513 | zoom by -0.2, clamped, with the same pan behaviour as ZoomIn |
| FloorMap.FloorMapComponent.OnWheel | src/app/components/floor-map/floor-map.component.ts:566-594 | scrolling down zooms out by 0.1 and anything else zooms in, clamped to [1, 5], keeping the point under the pointer. Without a drawing nothing changes. |
| FloorMap.FloorMapComponent.ResetZoom | src/app/components/floor-map/floor-map.component.ts:550-554 | zoom 1, pan (0, 0) |
| FloorMap.FloorMapComponent.OnMouseDown | src/app/components/floor-map/floor-map.component.ts:633-640 | panning starts, remembering the grip point, only when zoomed in |
| FloorMap.FloorMapComponent.OnMouseMove | src/app/components/floor-map/floor-map.component.ts:642-648 | while panning above zoom 1 the drawing follows the pointer, otherwise nothing moves |
| FloorMap.FloorMapComponent.OnMouseUp | src/app/components/floor-map/floor-map.component.ts:650-656 | panning stops (mouse up and mouse leave) |
| FloorMap.FloorMapComponent.Drag | src/app/components/floor-map/floor-map.component.ts:633-648 | a press then a move shifts the drawing by the pointer's displacement when zoomed in, and never at zoom 1 |
| FloorMap.FocalOffset | src/app/components/floor-map/floor-map.component.ts:531-536 | the last mouse position relative to the drawing, or its centre when that coordinate is 0 |
| Viewport.ClampZoom | src/app/components/floor-map/floor-map.component.ts:517 | the result lies in [1, 5] and is the input when that already does |
| Viewport.FocalPanKeepsPoint | src/app/components/floor-map/floor-map.component.ts:539-547 | after re-panning, the content point under the focal offset is the one that was there before |
| Viewport.FocalPanRoundTrip | src/app/components/floor-map/floor-map.component.ts:539-547 | zooming in and back out around the same offset restores the pan |
| FloorLayout.DigitsOf | src/app/components/floor-map/floor-map.component.ts:687 | the ASCII digits of the desk number, and only those, in their order (a subsequence of the input) |
| FloorLayout.DigitsOfConcat | src/app/components/floor-map/floor-map.component.ts:687 | the digits of a joined string are the digits of its parts, joined |
| FloorLayout.DeskOrdinal | src/app/components/floor-map/floor-map.component.ts:687 | a desk number without digits gives 0 |
| FloorLayout.DeskOrdinalOfEmbedded | src/app/components/floor-map/floor-map.component.ts:685-692 | a desk number whose only digits are those of n, with any digit-free prefix and suffix, reads as n |
| FloorLayout.DefaultPositionOfNumber | src/app/components/floor-map/floor-map.component.ts:685-692 | desk "n" is placed at x = 100 + (n mod 10)·50, y = 100 + (n div 10)·50 |
| FloorLayout.DefaultPosition | src/app/components/floor-map/floor-map.component.ts:685-692 | fallback positions lie in the ten columns from x = 100 to 550, from y = 100 down; DefaultPositionOfNumber gives the exact cell |
| FloorLayout.DefaultPositionInjective | src/app/components/floor-map/floor-map.component.ts:688-691 | desks whose digits read as different integers never share a fallback position. Desk numbers whose digits read as the same integer do share one: "1", "A1" and "B1" all fall back to (150, 100) |
| FloorLayout.PrefixedNumberSharesPosition | src/app/components/floor-map/floor-map.component.ts:687-691 | the fallback reads only the digits: a digit-free prefix such as "A" or "B" in front of n gives the same cell as n itself, so "1", "A1" and "B1" collide at (150, 100) |
| FloorLayout.PositionOf | src/app/components/floor-map/floor-map.component.ts:281-287 | the registered layout position when the floor and desk number are in the table, else the fallback |
| BookingList.LifecycleExclusive | src/app/components/booking-list/booking-list.component.ts:122-134 | check-in implies cancel and excludes check-out; check-out implies cancel and excludes check-in; nothing is allowed without cancel |
| BookingList.CanCheckIn | src/app/components/booking-list/booking-list.component.ts:122-125 | an ACTIVE booking whose date reads as today; its meaning is stated by LifecycleExclusive, CheckInToday and CheckInOnlyOneDay |
| BookingList.CanCheckOut | src/app/components/booking-list/booking-list.component.ts:127-129 | a CHECKED_IN booking; related to the other two by LifecycleExclusive |
| BookingList.CanCancel | src/app/components/booking-list/booking-list.component.ts:131-134 | an ACTIVE or CHECKED_IN booking; LifecycleExclusive shows it allows whatever the other two allow |
| BookingList.CheckInToday | src/app/components/booking-list/booking-list.component.ts:122-125 | an ACTIVE booking dated today can be checked in |
| BookingList.CheckInOnlyOneDay | src/app/components/booking-list/booking-list.component.ts:122-125 | check-in is possible on one day only |
| BookingList.StatusLabel | src/app/components/booking-list/booking-list.component.ts:103-120 | the six statuses map to their Italian labels; any other value is returned unchanged |
| BookingList.StatusLabelInjective | src/app/components/booking-list/booking-list.component.ts:103-120 | different statuses get different labels |
| BookingList.StatusBadgeClass | src/app/components/booking-list/booking-list.component.ts:84-101 | a class for every input, with `badge-secondary` as the default |
| BookingList.BadgeClassesDistinct | src/app/components/booking-list/booking-list.component.ts:84-101 | two inputs share a badge only as `badge-secondary`, that is CHECKED_OUT or unknown statuses |
| HolidaysAdmin.YearRange | src/app/components/holidays-admin/holidays-admin.component.ts:52-55 | five consecutive ascending years from the previous one, including the current year |
| HolidaysAdmin.HolidaysAdminComponent.constructor | src/app/components/holidays-admin/holidays-admin.component.ts:24-56 | the year list above, create mode, an empty form and no picked date |
| HolidaysAdmin.HolidaysAdminComponent.OpenCreateModal | src/app/components/holidays-admin/holidays-admin.component.ts:91-103 | empty date, name and description, FESTIVITY, not recurring, create mode, no id, no picked date |
| HolidaysAdmin.HolidaysAdminComponent.OpenEditModal | src/app/components/holidays-admin/holidays-admin.component.ts:105-126 | edit mode with the holiday's id and fields, description defaulting to "". The picker shows the date read from the string, or the NaN fields of an unreadable one. |
| HolidaysAdmin.PickedDateText | src/app/components/holidays-admin/holidays-admin.component.ts:130-133 | `year-MM-DD`: a valid picked date reads back as itself, and an unreadable one gives `NaN-NaN-NaN` |
| HolidaysAdmin.PickedDateNeverEmpty | src/app/components/holidays-admin/holidays-admin.component.ts:130-135 | a picked date always fills the date field |
| HolidaysAdmin.HolidaysAdminComponent.SaveHoliday | src/app/components/holidays-admin/holidays-admin.component.ts:128-169 | the picked date is written into the form. No call is made iff date or name is empty (with the error notice). An update happens iff in edit mode with a truthy id, else a create. Each outcome has its notice; the create failure shows the server's message when present. |
| HolidaysAdmin.HolidaysAdminComponent.OnDateSelect | src/app/components/holidays-admin/holidays-admin.component.ts:192-194 | the picker holds the selected date |
| HolidaysAdmin.TypeIcon | src/app/components/holidays-admin/holidays-admin.component.ts:206-214 | the four types' icons, `bi-calendar-x` otherwise |
| HolidaysAdmin.TypeIconsDistinct | src/app/components/holidays-admin/holidays-admin.component.ts:206-214 | each known type's icon differs from every other input's |
| HolidaysAdmin.TypeBadgeClass | src/app/components/holidays-admin/holidays-admin.component.ts:216-224 | the four types' colours, `bg-secondary` otherwise |
| OccupancyReport.RequestFor | src/app/components/occupancy-report/occupancy-report.component.ts:56-72 | exactly one endpoint per period, each iff its period; the custom range carries the two dates |
| OccupancyReport.OccupancyReportComponent.constructor | src/app/components/occupancy-report/occupancy-report.component.ts:19-41 | the end date is today formatted, the start date is seven days earlier formatted, and the week period is selected |
| OccupancyReport.OccupancyReportComponent.LoadStatistics | src/app/components/occupancy-report/occupancy-report.component.ts:50-73 | loading, no error, and the request for the selected period |
| OccupancyReport.OccupancyReportComponent.OnStatisticsLoaded | src/app/components/occupancy-report/occupancy-report.component.ts:75-77 | the statistics are stored and loading ends |
| OccupancyReport.OccupancyReportComponent.OnStatisticsFailed | src/app/components/occupancy-report/occupancy-report.component.ts:84-88 | the error is the fixed prefix plus the message ("undefined" when absent), and loading ends |
| OccupancyReport.OccupancyReportComponent.OnQuickPeriodChange | src/app/components/occupancy-report/occupancy-report.component.ts:95-99 | reloads iff the period is not custom |
| OccupancyReport.OccupancyReportComponent.ApplyCustomFilter | src/app/components/occupancy-report/occupancy-report.component.ts:104-109 | with both dates filled in, switches to custom and requests exactly that range; otherwise nothing changes |
| OccupancyReport.WorkingDays | src/app/components/occupancy-report/occupancy-report.component.ts:134-137 | an order-preserving subsequence holding exactly the non-holiday days, each as many times as in the input, and no holiday |
| OccupancyReport.DailySeries | src/app/components/occupancy-report/occupancy-report.component.ts:134-137 | labels, occupied, free and rates all have the working-day count, and entry k comes from working day k |
| OccupancyReport.DailySeriesLength | src/app/components/occupancy-report/occupancy-report.component.ts:134-137 | no more points than days, and all of them when there is no holiday |
| OccupancyReport.Prefix3 | src/app/components/occupancy-report/occupancy-report.component.ts:317 | `substring(0, 3)`: the first three characters, or the whole of a shorter string |
| OccupancyReport.FormatDateLabel | src/app/components/occupancy-report/occupancy-report.component.ts:313-318 | an unreadable date gives `NaN/NaN (Ddd)` |
| OccupancyReport.FormatDateLabelOfDate | src/app/components/occupancy-report/occupancy-report.component.ts:313-318 | a server date is labelled with its own day and month, two digits each, then the weekday's first three letters |
| OccupancyReport.CsvLines | src/app/components/occupancy-report/occupancy-report.component.ts:338-340 | one line per day, in order |
| OccupancyReport.CsvLine | src/app/components/occupancy-report/occupancy-report.component.ts:339 | one day's line; CsvLineOneNewline shows it is a single line |
| OccupancyReport.CsvText | src/app/components/occupancy-report/occupancy-report.component.ts:336-340 | the exported text; CsvTextFirst, CsvTextAppend and CsvLineCount state its shape |
| OccupancyReport.CsvTextAppend | src/app/components/occupancy-report/occupancy-report.component.ts:336-340 | the export of two runs of days is the first's export followed by the second's lines |
| OccupancyReport.CsvTextFirst | src/app/components/occupancy-report/occupancy-report.component.ts:336-340 | the export starts with the header and then the first day's line |
| OccupancyReport.CsvLineOneNewline | src/app/components/occupancy-report/occupancy-report.component.ts:339 | a day whose text fields hold no line break takes exactly one line |
| OccupancyReport.HeaderOneNewline | src/app/components/occupancy-report/occupancy-report.component.ts:336 | the header is one line |
| OccupancyReport.CsvLineCount | src/app/components/occupancy-report/occupancy-report.component.ts:336-340 | the export holds 1 + n line breaks for n days |
| OccupancyReport.AppendLines | src/app/components/occupancy-report/occupancy-report.component.ts:338-340 | the `csv +=` loop ends with the start text followed by all lines in order |
| OccupancyReport.OccupancyReportComponent.ExportToCsv | src/app/components/occupancy-report/occupancy-report.component.ts:333-349 | nothing without statistics; otherwise the header plus one line per day, named `report-occupazione-<start>-<end>.csv` |
| Calendar.ParseIsoDate | src/app/components/floor-map/floor-map.component.ts:228-229 | `new Date("YYYY-MM-DD")` read as a calendar day: only a valid date with a year from 0 to 9999 comes out |
| Calendar.FormatIsoDate | src/app/components/occupancy-report/occupancy-report.component.ts:323-328 | a valid date with a four-digit year is written `YYYY-MM-DD`: ten characters, dashes at 4 and 7, digits elsewhere |
| Calendar.ParseFormatRoundTrip | src/app/components/occupancy-report/occupancy-report.component.ts:323-328 | formatting a four-digit-year date and reading it back gives the date |
| Calendar.FormatIsoDateInjective | src/app/components/floor-map/floor-map.component.ts:677-682 | different dates are formatted differently |
| Calendar.MinusDays | src/app/components/occupancy-report/occupancy-report.component.ts:38-39 | `setDate(getDate() - k)`: a valid date exactly k days earlier |
| Calendar.AddMonthsJs | src/app/components/date-selector/date-selector.component.ts:34-35 | `setMonth(getMonth() + k)`: month and year carried, and a day past the new month's end spills into the next month |
| Calendar.WeekdayBackwards | src/app/components/date-selector/date-selector.component.ts:50-53 | going back k days goes back k weekdays, cyclically |
| Text.JsTrim | src/app/components/floor-map/floor-map.component.ts:482-486 | a slice of the input with only whitespace cut at each end. It starts and ends with non-whitespace, and is empty iff the input is all whitespace. |
| Text.TrimPadded | src/app/components/floor-map/floor-map.component.ts:486 | whitespace padding on either side does not change the trimmed text |
| Text.ToLowerIdempotent | src/app/components/floor-map/floor-map.component.ts:486-491 | lower-casing twice is lower-casing once |
| Text.Contains | src/app/components/floor-map/floor-map.component.ts:493 | `includes`: true iff the needle occurs at some index |
| Text.PyStrip | assets/images/script_pos.py:59 | no longer than the input, no whitespace at either end, empty iff the input is all whitespace |
| Text.Pad2IsPadStart | src/app/components/occupancy-report/occupancy-report.component.ts:325-326 | the two-digit field is `padStart(2, '0')` of the number's text |
| Text.DigitsValueOfNatToString | src/app/components/holidays-admin/holidays-admin.component.ts:132 | the decimal text of a number reads back as the number |
| FloorSelector.SortByNumber | src/app/components/floor-selector/floor-selector.component.ts:32 | ascending by floor number, and a permutation of the fetched floors |
| FloorSelector.SortIsStable | src/app/components/floor-selector/floor-selector.component.ts:32 | floors sharing a number keep their fetched order |
| FloorSelector.FindFloor | src/app/components/floor-selector/floor-selector.component.ts:37 | the first floor with the id; none iff no floor has it |
| FloorSelector.InitialFloor | src/app/components/floor-selector/floor-selector.component.ts:36-45 | the preselected floor when its id is truthy and listed, else the first floor; nothing iff there are no floors |
| FloorSelector.PreselectedIsChosen | src/app/components/floor-selector/floor-selector.component.ts:36-39 | a listed, non-zero preselected id is chosen wherever it sits |
| FloorSelector.LoadedSelection | src/app/components/floor-selector/floor-selector.component.ts:32-45 | after a load the choice is the preselected floor or the lowest-numbered one |
| FloorSelector.FloorSelectorComponent.constructor | src/app/components/floor-selector/floor-selector.component.ts:14-22 | no floors, nothing selected, nothing emitted |
| FloorSelector.FloorSelectorComponent.LoadFloors | src/app/components/floor-selector/floor-selector.component.ts:28-29 | loading starts |
| FloorSelector.FloorSelectorComponent.OnFloorsLoaded | src/app/components/floor-selector/floor-selector.component.ts:31-45 | the floors are sorted and loading ends. The initial floor is selected and emitted once; with no floors nothing is selected or emitted. |
| FloorSelector.FloorSelectorComponent.OnFloorsFailed | src/app/components/floor-selector/floor-selector.component.ts:47-50 | only loading ends |
| FloorSelector.FloorSelectorComponent.SelectFloor | src/app/components/floor-selector/floor-selector.component.ts:54-61 | the floor is selected and emitted once; afterwards `isSelected` holds exactly for floors with its id |
| FloorSelector.FloorSelectorComponent.IsSelected | src/app/components/floor-selector/floor-selector.component.ts:59-61 | the selected floor has the same id; SelectFloor states that afterwards it holds exactly for floors sharing the chosen id |
| DateSelector.StructRoundTrip | src/app/components/date-selector/date-selector.component.ts:24-28 | for structs that are calendar dates, the 1-based month and the `Date`'s 0-based month convert into each other both ways |
| DateSelector.ThreeMonthsAhead | src/app/components/date-selector/date-selector.component.ts:34-40 | the latest date is 89 to 92 days after today |
| DateSelector.ThreeMonthLengths | src/app/components/date-selector/date-selector.component.ts:34-35 | any three consecutive months hold 89 to 92 days |
| DateSelector.TwoWeekendDaysPerWeek | src/app/components/date-selector/date-selector.component.ts:50-53 | any seven consecutive days hold exactly two weekend days |
| DateSelector.WeekendRepeatsWeekly | src/app/components/date-selector/date-selector.component.ts:50-53 | a week earlier is a weekend day iff the day is |
| DateSelector.IsWeekend | src/app/components/date-selector/date-selector.component.ts:50-53 | Sunday or Saturday; TwoWeekendDaysPerWeek, WeekendRepeatsWeekly and DatepickerI18n.WeekendColumns state its meaning |
| DateSelector.DateSelectorComponent.constructor | src/app/components/date-selector/date-selector.component.ts:20-41 | today is selected and is the minimum. The maximum is today moved by three months, a valid date strictly later. |
| DateSelector.DateSelectorComponent.OnDateChange | src/app/components/date-selector/date-selector.component.ts:43-48 | a date is emitted as a `Date` with 0-based month that converts back to the same struct; no date, no emission |
| DatepickerI18n.Lookup | src/app/services/custom-datepicker-i18n.service.ts:21-35 | defined exactly for 1 to the table's length, giving entry n - 1 |
| DatepickerI18n.WeekdayLabel | src/app/services/custom-datepicker-i18n.service.ts:21-23 | defined exactly for 1 to 7; 1 is "Lu", 7 is "Do" |
| DatepickerI18n.MonthShortName | src/app/services/custom-datepicker-i18n.service.ts:29-31 | defined exactly for 1 to 12 |
| DatepickerI18n.MonthFullName | src/app/services/custom-datepicker-i18n.service.ts:33-35 | defined exactly for 1 to 12 |
| DatepickerI18n.ShortNamesArePrefixes | src/app/services/custom-datepicker-i18n.service.ts:7-11 | each short month name is the first three letters of the full one |
| DatepickerI18n.NamesDistinct | src/app/services/custom-datepicker-i18n.service.ts:6-11 | different months, and different weekdays, have different names |
| DatepickerI18n.PickerWeekday | src/app/services/custom-datepicker-i18n.service.ts:21-23 | the `getDay()` number (0 is Sunday) in the numbering the weekday table is read with (1 is Monday, 7 is Sunday) |
| DatepickerI18n.WeekendColumns | src/app/components/date-selector/date-selector.component.ts:50-53 | the days `isWeekend` marks are exactly those the picker shows under "Sa" and "Do" |
| DatepickerI18n.DayAriaLabelInjective | src/app/services/custom-datepicker-i18n.service.ts:37-39 | two dates with the same unpadded `day/month/year` label are the same date |
| DatepickerI18n.DayAriaLabel | src/app/services/custom-datepicker-i18n.service.ts:37-39 | the digits before the first slash read back as the day; DayAriaLabelInjective shows the whole label names one date |
| Register.Required | src/app/components/register/register.component.ts:43-47 | no error iff the value is non-empty |
| Register.MinLength | src/app/components/register/register.component.ts:44-46 | no error iff the value is empty or long enough |
| Register.Email | src/app/components/register/register.component.ts:43 | no error iff the value is empty or well formed |
| Register.PhonePattern | src/app/components/register/register.component.ts:49 | no error iff every character is a digit, `+`, `-`, whitespace or a parenthesis |
| Register.PhonePatternConcat | src/app/components/register/register.component.ts:49 | a joined number passes iff both parts pass |
| Register.PasswordMatch | src/app/components/register/register.component.ts:58-72 | a mismatch iff the values differ. A mismatch replaces the confirmation's errors. On a match, a mismatch error is cleared with all errors; otherwise the errors stay. |
| Register.FormValidity | src/app/components/register/register.component.ts:42-54 | the form is valid iff: e-mail given and well formed; names of 2 or more characters; password of 6 or more; the confirmation repeats it; the phone passes the pattern |
| Register.FormInvalid | src/app/components/register/register.component.ts:84 | `registerForm.invalid`: some control or the form holds an error; FormValidity states exactly when |
| Register.InitialFormInvalid | src/app/components/register/register.component.ts:42-54 | the initial form cannot be submitted |
| Register.Optional | src/app/components/register/register.component.ts:99-100 | `value \|\| undefined`: absent iff empty |
| Register.CleanedRequest | src/app/components/register/register.component.ts:94-101 | only the confirmation is lost (the form comes back from the request), and no optional field is sent empty |
| Register.FailureMessage | src/app/components/register/register.component.ts:115-123 | 409 and 0 have fixed messages. 400 and any other status show the server's non-empty message, else their own default. |
| Register.FailureMessageNonEmpty | src/app/components/register/register.component.ts:115-123 | a failure always shows a message |
| Register.RegisterComponent.constructor | src/app/components/register/register.component.ts:37-54 | an authenticated visitor is sent home; the form starts from its defaults |
| Register.RegisterComponent.Submit | src/app/components/register/register.component.ts:78-101 | the error and success flags are reset. An invalid form only marks every control touched. A valid one starts loading and sends the cleaned request. |
| Register.RegisterComponent.OnRegistered | src/app/components/register/register.component.ts:104-110 | success is shown and the home page is opened |
| Register.RegisterComponent.OnRegisterFailed | src/app/components/register/register.component.ts:111-126 | the failure's message is shown and loading ends |
| AuthGuard.CanActivate | src/app/guards/auth.guard.ts:19-43 | allowed iff authenticated and either no role list is given or the user's non-empty role is in it. Allowed iff there is no redirect. An unauthenticated user goes to login with the URL; a refused authenticated one goes to the forbidden page. |
| AuthGuard.EmptyRoleListDeniesAll | src/app/guards/auth.guard.ts:25-33 | an empty role list is still a list, and admits nobody |
| AuthGuard.MoreRolesNoLessAccess | src/app/guards/auth.guard.ts:25-35 | widening the role list never takes access away, and no list admits whoever a list admits |
| AuthGuard.UrlOnlyShapesRedirect | src/app/guards/auth.guard.ts:39-42 | the requested URL does not affect the decision |
| AdminGuard.CanActivate | src/app/guards/admin.guard.ts:15-26 | allowed iff a user with role ADMIN or MANAGER is stored. Allowed: no alert and no navigation. Refused: the alert and the home page. |
| AdminGuard.AdminRouteAccess | src/app/guards/admin.guard.ts:18 | both guards together admit exactly an authenticated ADMIN or MANAGER, as the authentication guard with that role list would |
| Annotator.PyInt | assets/images/script_pos.py:76 | `int(sid)`: the empty string never reads as an integer |
| Annotator.PyIntOfDigits | assets/images/script_pos.py:76 | `int(sid)` of an unsigned digit run is its decimal value |
| Annotator.PyIntOfNegativeDigits | assets/images/script_pos.py:76 | `int(sid)` of `-` followed by a digit run is the negated decimal value |
| Annotator.PyIntOfPositiveDigits | assets/images/script_pos.py:76 | `int(sid)` of `+` followed by a digit run is the decimal value |
| Annotator.PyIntOfIntToString | assets/images/script_pos.py:76-77 | the proposed next id reads back as the number it was made from |
| Annotator.CsvCell | assets/images/script_pos.py:95-97 | a cell is quoted iff it holds a comma, a quote or a line break |
| Annotator.CsvCellRoundTrip | assets/images/script_pos.py:95-97 | every id written reads back unchanged |
| Annotator.RowOf | assets/images/script_pos.py:97 | a row's id cell reads back as the point's id, with its coordinates |
| Annotator.Rows | assets/images/script_pos.py:97 | one row per point, in insertion order |
| Annotator.Annotatore.constructor | assets/images/script_pos.py:7-31 | no points or markers, no click, the next id in the id box |
| Annotator.Annotatore.SetIdText | assets/images/script_pos.py:31 | the id box holds the typed text |
| Annotator.Annotatore.OnClick | assets/images/script_pos.py:44-53 | a click inside the image replaces the provisional point and marker; any other click changes nothing |
| Annotator.Annotatore.OnAdd | assets/images/script_pos.py:55-80 | refused, with its message and no change, without a click, with an empty stripped id or with a duplicate. Otherwise the point is appended with its marker and the click is cleared; an integer id proposes id + 1. Ids stay unique and markers match points. |
| Annotator.Annotatore.ProposeNextId | assets/images/script_pos.py:75-79 | an id that reads as an integer n makes the box propose n + 1; any other id leaves the box and the counter alone |
| Annotator.Annotatore.OnUndo | assets/images/script_pos.py:82-88 | nothing on an empty list; otherwise exactly the last point and the last marker are removed |
| Annotator.Annotatore.OnSave | assets/images/script_pos.py:90-98 | nothing but a message without points; otherwise the header `id,x_px,y_px` then one row per point in order, and the confirmation |

## Left out

- The asynchronous loading chains (`loadDesks` and the bookings fetch) are
  left out. Their results are parameters of the merge, including the
  fallback that builds with no bookings.
- Touch handling is left out: the single-finger pan and the empty pinch branch.
- Chart.js rendering is left out. Only the series the charts plot are modelled.
- The CSV download itself is left out: the `Blob` and the link click.
- The `window` mouse listener is left out. The last mouse position is a
  parameter of `ZoomToPoint`.
- Console logging is left out.
- Modal opening is left out. Modals are an enumeration of which one is open.
- Notices are left out beyond their kind and text.
- Floating point is not modelled. Zoom, pan and annotator coordinates are
  exact reals, so rounding, and the float text written into the annotator's
  CSV, are not captured.
- The occupancy rate is carried as the text JavaScript renders it.
- The layout tables of floors 1 and 3 are an opaque map from floor number to
  desk number to point.
- `parseInt` of very long digit strings is not modelled: it loses precision
  in JavaScript.
- The occupancy report's floor comparison chart and the holiday list's
  `loadHolidays`, `deleteHoliday`, `closeModal` and `formatDisplayDate` are
  not part of this model. They are service calls or locale formatting.
- The booking list's loading, check-in, check-out and cancel calls are not
  part of this model; they are service calls.
- Calendar.ParseIsoDate: JavaScript date parsing and time zones are reduced
  to reading a `YYYY-MM-DD` string as a calendar date. Other accepted formats
  read as an invalid date. The UTC-midnight versus local-getter shift of
  `new Date("YYYY-MM-DD")` is not modelled.
- HolidaysAdmin.HolidaysAdminComponent.OpenEditModal: the same restriction
  applies to the date it puts in the picker.
- "Today" is a parameter wherever the source reads the clock.
- DateSelector.DateSelectorComponent.OnDateChange: it takes the picker's
  struct as a valid date. A struct outside the calendar, which `new Date`
  would normalise, is not modelled. Nor is a year from 0 to 99, which
  `new Date(y, m - 1, d)` reads as 1900 + y while the model keeps the year;
  the picker's minimum date is today, so it offers no such year.
- HolidaysAdmin.TypeIcon: a type string naming a property inherited by every
  JavaScript object (such as `constructor`) is treated like any unknown type.
- HolidaysAdmin.TypeBadgeClass: the same applies.
- Register.Email: Angular's e-mail regular expression is a boolean parameter.
- Register.MinLength: it counts characters where Angular counts UTF-16 code
  units.
- Text.ToLower: it lower-cases ASCII and Latin-1 capitals only, not the rest
  of Unicode.
- Annotator.PyInt: it accepts ASCII digits only, while Python's `int` also
  reads other Unicode decimal digits.
- Annotator.PyInt: it has no digit limit. Recent CPython (3.11 and later,
  and the 3.7.14 and later security releases) raises `ValueError` for a
  decimal string of more than 4300 digits, so an id that long leaves
  `next_id` alone.
- Annotator.Annotatore.ProposeNextId: for the same reason, when `int(sid) + 1`
  has more than 4300 digits, `str(next_id)` raises after `next_id` was set,
  and the box is not updated; the model always writes the box.
- Annotator.PyIntOfIntToString: it states `int(str(n)) == n` for every
  integer, including those over the 4300-digit limit where CPython raises
  instead.
- FloorLayout.PositionOf: a desk number naming a property every JavaScript
  object inherits (such as `constructor` or `__proto__`) is found in the
  layout table with no coordinates, so the desk is drawn at an undefined
  position; the model falls back to the grid as for an unregistered number.
- Text.PyStrip: its contract does not state that the result is a contiguous
  slice of the input; the model's body strips one end character at a time.
- Annotator.Annotatore.OnSave: the absolute path in the confirmation is a
  parameter, and the file write is the returned rows.
- Matplotlib drawing is left out. Markers are values holding their position
  and text.
- FloorSelector.SortByNumber: the in-place `sort` of the fetched array is a
  function returning the sorted sequence, so aliasing of that array is not
  modelled.
- The authentication service itself is not part of this model. The stored
  token and user are parameters of the guards.
