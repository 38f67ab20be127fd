/** The booking list's lifecycle rules: which status allows check-in,
    check-out and cancellation, and how a status is labelled and coloured.
    "Today" is a parameter; the booking's date string is read as a calendar date. */
module BookingList {
  import opened Wrappers
  import opened Calendar
  import opened Models

  /** `canCheckIn`: an ACTIVE booking whose date is today. A date string that
      does not read as a date never matches today. */
  predicate CanCheckIn(b: Booking, today: Ymd) {
    b.status == ACTIVE && ParseIsoDate(b.bookingDate) == Some(today)
  }

  /** `canCheckOut`: only a checked-in booking. */
  predicate CanCheckOut(b: Booking) {
    b.status == CHECKED_IN
  }

  /** `canCancel`: an ACTIVE or checked-in booking. */
  predicate CanCancel(b: Booking) {
    b.status == ACTIVE || b.status == CHECKED_IN
  }

  /** A booking that can be checked in can be cancelled and cannot be checked out;
      one that can be checked out can be cancelled but not checked in. */
  lemma LifecycleExclusive(b: Booking, today: Ymd)
    ensures CanCheckIn(b, today) ==> CanCancel(b) && !CanCheckOut(b)
    ensures CanCheckOut(b) ==> CanCancel(b) && !CanCheckIn(b, today)
    ensures !CanCancel(b) ==> !CanCheckIn(b, today) && !CanCheckOut(b)
  {
  }

  /** An ACTIVE booking dated today, as the server writes dates, can be checked in. */
  lemma CheckInToday(b: Booking, today: Ymd)
    requires Valid(today) && 1000 <= today.year <= 9999
    requires b.status == ACTIVE && b.bookingDate == FormatIsoDate(today)
    ensures CanCheckIn(b, today)
  {
    ParseFormatRoundTrip(today);
  }

  /** Check-in is possible on exactly one day: the booking's own. */
  lemma CheckInOnlyOneDay(b: Booking, d1: Ymd, d2: Ymd)
    requires CanCheckIn(b, d1) && CanCheckIn(b, d2)
    ensures d1 == d2
  {
  }

  /** `getStatusLabel`: the Italian label of a known status, the raw value otherwise. */
  function StatusLabel(status: string): (text: string)
    ensures status == ACTIVE ==> text == "Attiva"
    ensures status == CHECKED_IN ==> text == "Check-in Effettuato"
    ensures status == CHECKED_OUT ==> text == "Check-out Effettuato"
    ensures status == COMPLETED ==> text == "Completata"
    ensures status == CANCELLED ==> text == "Cancellata"
    ensures status == NO_SHOW ==> text == "Non Presentato"
    ensures !IsBookingStatus(status) ==> text == status
  {
    if status == ACTIVE then "Attiva"
    else if status == CHECKED_IN then "Check-in Effettuato"
    else if status == CHECKED_OUT then "Check-out Effettuato"
    else if status == COMPLETED then "Completata"
    else if status == CANCELLED then "Cancellata"
    else if status == NO_SHOW then "Non Presentato"
    else status
  }

  /** The six labels are pairwise different, so the label tells the status. */
  lemma StatusLabelInjective(s1: string, s2: string)
    requires IsBookingStatus(s1) && IsBookingStatus(s2)
    requires StatusLabel(s1) == StatusLabel(s2)
    ensures s1 == s2
  {
  }

  /** `getStatusBadgeClass`: a badge class for every input. */
  function StatusBadgeClass(status: string): (c: string)
    ensures status == ACTIVE ==> c == "badge-primary"
    ensures status == CHECKED_IN ==> c == "badge-success"
    ensures status == CHECKED_OUT ==> c == "badge-secondary"
    ensures status == COMPLETED ==> c == "badge-info"
    ensures status == CANCELLED ==> c == "badge-danger"
    ensures status == NO_SHOW ==> c == "badge-warning"
    ensures !IsBookingStatus(status) ==> c == "badge-secondary"
  {
    if status == ACTIVE then "badge-primary"
    else if status == CHECKED_IN then "badge-success"
    else if status == CHECKED_OUT then "badge-secondary"
    else if status == COMPLETED then "badge-info"
    else if status == CANCELLED then "badge-danger"
    else if status == NO_SHOW then "badge-warning"
    else "badge-secondary"
  }

  /** Checked-out bookings share their badge with unknown statuses; every other
      known status has a badge of its own. */
  lemma BadgeClassesDistinct(s1: string, s2: string)
    requires s1 != s2
    requires StatusBadgeClass(s1) == StatusBadgeClass(s2)
    ensures StatusBadgeClass(s1) == "badge-secondary"
    ensures s1 == CHECKED_OUT || s2 == CHECKED_OUT || (!IsBookingStatus(s1) && !IsBookingStatus(s2))
  {
  }
}
