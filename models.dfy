/** The records the components exchange with the server (`src/app/models`).
    Only the fields the modelled logic reads are kept. Enumerations whose
    values arrive as strings at run time (booking status, holiday type, role)
    stay strings, so that the `default` branches of the components' switches
    and lookups are reachable as they are in the source. */
module Models {
  import opened Wrappers

  const ACTIVE: string := "ACTIVE"
  const CHECKED_IN: string := "CHECKED_IN"
  const CHECKED_OUT: string := "CHECKED_OUT"
  const COMPLETED: string := "COMPLETED"
  const CANCELLED: string := "CANCELLED"
  const NO_SHOW: string := "NO_SHOW"

  /** The six members of `BookingStatus`. */
  predicate IsBookingStatus(s: string) {
    s == ACTIVE || s == CHECKED_IN || s == CHECKED_OUT || s == COMPLETED || s == CANCELLED || s == NO_SHOW
  }

  /** A reservation of one desk for one date. `bookingDate` is the ISO string the server sends. */
  datatype Booking = Booking(
    id: int,
    userId: int,
    userName: Option<string>,
    deskId: int,
    floorId: Option<int>,
    bookingDate: string,
    status: string)

  /** A bookable desk of a floor. */
  datatype Desk = Desk(id: int, deskNumber: string, floorId: int, notes: Option<string>)

  /** A building level. */
  datatype Floor = Floor(id: int, name: string, floorNumber: int)

  const FESTIVITY: string := "FESTIVITY"
  const COMPANY_CLOSURE: string := "COMPANY_CLOSURE"
  const MAINTENANCE: string := "MAINTENANCE"
  const OTHER: string := "OTHER"

  /** The four members of `HolidayType`. */
  predicate IsHolidayType(t: string) {
    t == FESTIVITY || t == COMPANY_CLOSURE || t == MAINTENANCE || t == OTHER
  }

  /** A company holiday as the server lists it. */
  datatype CompanyHoliday = CompanyHoliday(
    id: int,
    date: string,
    name: string,
    description: Option<string>,
    holidayType: string,
    recurring: bool)

  /** The body of a create or update request for a holiday. */
  datatype HolidayRequest = HolidayRequest(
    date: string,
    name: string,
    description: string,
    holidayType: string,
    recurring: bool)

  /** The logged-in user as the authentication service exposes it. */
  datatype User = User(id: int, role: string)
}
