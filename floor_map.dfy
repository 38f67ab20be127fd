/** The floor map component: it merges the desk roster of a floor with the
    desks the server reports available for the selected date and with the
    floor's bookings for that date into one list of drawn desks, decides what
    a click on a desk does, derives each desk's style and tooltip, filters the
    list, sends the booking requests that a confirmed click leads to, and keeps
    the zoom and pan of the drawing.

    The four lists the component fetches (the user's upcoming bookings, the
    available desks, the roster, the floor's bookings) are parameters here;
    the request outcomes are parameters too. */
module FloorMap {
  import opened Wrappers
  import opened Text
  import opened Calendar
  import opened Models
  import opened FloorLayout
  import opened Viewport
  import opened Seqs

  /** One drawn desk. */
  datatype DeskPosition = DeskPosition(
    desk: Desk,
    x: real,
    y: real,
    available: bool,
    bookedByCurrentUser: bool,
    booking: Option<Booking>)

  // ---------------------------------------------------------------------------
  // Reconciliation of the fetched lists

  /** `bookings[i]` is the first booking of desk `deskId`. */
  predicate FirstBookingAt(bookings: seq<Booking>, deskId: int, i: int) {
    0 <= i < |bookings| && bookings[i].deskId == deskId
    && forall j :: 0 <= j < i ==> bookings[j].deskId != deskId
  }

  /** `bookings.find(b => b.deskId === deskId)`. */
  function FindBooking(bookings: seq<Booking>, deskId: int): (r: Option<Booking>)
    ensures r.Some? ==> exists i :: FirstBookingAt(bookings, deskId, i) && bookings[i] == r.value
    ensures r.None? <==> forall i :: 0 <= i < |bookings| ==> bookings[i].deskId != deskId
    decreases |bookings|
  {
    if bookings == [] then None
    else if bookings[0].deskId == deskId then
      assert FirstBookingAt(bookings, deskId, 0);
      Some(bookings[0])
    else
      var r := FindBooking(bookings[1..], deskId);
      if r.Some? then
        var i :| FirstBookingAt(bookings[1..], deskId, i) && bookings[1..][i] == r.value;
        assert FirstBookingAt(bookings, deskId, i + 1);
        r
      else r
  }

  /** `availableDesks.some(d => d.id === deskId)`. */
  function IsListed(availableDesks: seq<Desk>, deskId: int): (r: bool)
    ensures r <==> exists i :: 0 <= i < |availableDesks| && availableDesks[i].id == deskId
    decreases |availableDesks|
  {
    if availableDesks == [] then false
    else if availableDesks[0].id == deskId then true
    else
      var r := IsListed(availableDesks[1..], deskId);
      assert forall i :: 0 < i < |availableDesks| ==> availableDesks[i] == availableDesks[1..][i - 1];
      r
  }

  /** The drawn entry for one roster desk. */
  function PositionFor(desk: Desk, availableDesks: seq<Desk>, bookings: seq<Booking>,
                       layouts: Layouts, floorNumber: int, currentUserId: int): DeskPosition
  {
    var p := PositionOf(layouts, floorNumber, desk.deskNumber);
    var booking := FindBooking(bookings, desk.id);
    DeskPosition(desk, p.x, p.y, IsListed(availableDesks, desk.id),
                 booking.Some? && booking.value.userId == currentUserId, booking)
  }

  /** The list `buildDeskPositions` produces: one entry per roster desk, in roster order. */
  function Reconcile(desks: seq<Desk>, availableDesks: seq<Desk>, bookings: seq<Booking>,
                     layouts: Layouts, floorNumber: int, currentUserId: int): (r: seq<DeskPosition>)
    ensures |r| == |desks|
    ensures forall i :: 0 <= i < |desks| ==> r[i].desk == desks[i]
    ensures forall i :: 0 <= i < |desks| ==>
              (r[i].available <==> exists k :: 0 <= k < |availableDesks| && availableDesks[k].id == desks[i].id)
    ensures forall i :: 0 <= i < |desks| ==>
              (r[i].booking.None? <==> forall k :: 0 <= k < |bookings| ==> bookings[k].deskId != desks[i].id)
    ensures forall i :: 0 <= i < |desks| && r[i].booking.Some? ==>
              exists k :: FirstBookingAt(bookings, desks[i].id, k) && bookings[k] == r[i].booking.value
    ensures forall i :: 0 <= i < |desks| ==>
              (r[i].bookedByCurrentUser <==> r[i].booking.Some? && r[i].booking.value.userId == currentUserId)
    ensures forall i :: 0 <= i < |desks| ==>
              Point(r[i].x, r[i].y) == PositionOf(layouts, floorNumber, desks[i].deskNumber)
  {
    seq(|desks|, i requires 0 <= i < |desks| =>
      PositionFor(desks[i], availableDesks, bookings, layouts, floorNumber, currentUserId))
  }

  /** Extending the roster by one desk extends the list by that desk's entry. */
  lemma ReconcileSnoc(desks: seq<Desk>, i: nat, availableDesks: seq<Desk>, bookings: seq<Booking>,
                      layouts: Layouts, floorNumber: int, currentUserId: int)
    requires i < |desks|
    ensures Reconcile(desks[..i + 1], availableDesks, bookings, layouts, floorNumber, currentUserId)
            == Reconcile(desks[..i], availableDesks, bookings, layouts, floorNumber, currentUserId)
               + [PositionFor(desks[i], availableDesks, bookings, layouts, floorNumber, currentUserId)]
  {
  }

  /** Rebuilding from the same fetched lists gives the same list, entry by entry:
      each entry depends only on its own roster desk. */
  lemma ReconcileEntrywise(desks: seq<Desk>, extra: seq<Desk>, availableDesks: seq<Desk>, bookings: seq<Booking>,
                           layouts: Layouts, floorNumber: int, currentUserId: int)
    ensures Reconcile(desks + extra, availableDesks, bookings, layouts, floorNumber, currentUserId)
         == Reconcile(desks, availableDesks, bookings, layouts, floorNumber, currentUserId)
          + Reconcile(extra, availableDesks, bookings, layouts, floorNumber, currentUserId)
  {
    var whole := Reconcile(desks + extra, availableDesks, bookings, layouts, floorNumber, currentUserId);
    var front := Reconcile(desks, availableDesks, bookings, layouts, floorNumber, currentUserId);
    var back := Reconcile(extra, availableDesks, bookings, layouts, floorNumber, currentUserId);
    assert forall i :: 0 <= i < |desks| ==> whole[i] == front[i];
    assert forall i :: |desks| <= i < |whole| ==> whole[i] == back[i - |desks|];
  }

  /** A desk booked by the current user is one whose first booking carries the user's id. */
  lemma BookedByCurrentUserMeansOwnBooking(desks: seq<Desk>, availableDesks: seq<Desk>, bookings: seq<Booking>,
                                           layouts: Layouts, floorNumber: int, currentUserId: int, i: int)
    requires 0 <= i < |desks|
    requires Reconcile(desks, availableDesks, bookings, layouts, floorNumber, currentUserId)[i].bookedByCurrentUser
    ensures exists k :: FirstBookingAt(bookings, desks[i].id, k) && bookings[k].userId == currentUserId
  {
  }

  // ---------------------------------------------------------------------------
  // What a click on a desk does

  datatype ClickAction =
    | ShowOccupant(booking: Booking)  // occupied desk with a booking: open the occupant modal
    | NoAction                        // occupied desk without a booking: nothing happens
    | AlreadyYours                    // the user's own desk for this date: information notice
    | ProposeModify(desk: Desk)       // another desk while the user holds one: the modify modal
    | ProposeCreate(desk: Desk)       // a free desk and no booking yet: the confirm modal

  /** The decision `onDeskClick` takes for a drawn desk and the user's booking for the date (on any floor). */
  function DeskClickAction(dp: DeskPosition, existingBooking: Option<Booking>): (a: ClickAction)
    ensures a.ShowOccupant? <==> !dp.available && dp.booking.Some?
    ensures a.NoAction? <==> !dp.available && dp.booking.None?
    ensures a.AlreadyYours? <==> dp.available && existingBooking.Some? && existingBooking.value.deskId == dp.desk.id
    ensures a.ProposeModify? <==> dp.available && existingBooking.Some? && existingBooking.value.deskId != dp.desk.id
    ensures a.ProposeCreate? <==> dp.available && existingBooking.None?
    ensures a.ShowOccupant? ==> Some(a.booking) == dp.booking
    ensures a.ProposeModify? || a.ProposeCreate? ==> a.desk == dp.desk
  {
    if !dp.available then
      if dp.booking.Some? then ShowOccupant(dp.booking.value) else NoAction
    else if existingBooking.Some? then
      if existingBooking.value.deskId == dp.desk.id then AlreadyYours else ProposeModify(dp.desk)
    else ProposeCreate(dp.desk)
  }

  // ---------------------------------------------------------------------------
  // Style and tooltip

  /** The CSS classes `getDeskClass` switches on. */
  datatype DeskClasses = DeskClasses(deskCircle: bool, deskMyBooking: bool, deskAvailable: bool, deskOccupied: bool)

  function DeskClass(dp: DeskPosition): (c: DeskClasses)
    ensures c.deskCircle
    ensures (c.deskMyBooking && !c.deskAvailable && !c.deskOccupied)
         || (!c.deskMyBooking && c.deskAvailable && !c.deskOccupied)
         || (!c.deskMyBooking && !c.deskAvailable && c.deskOccupied)
    ensures c.deskMyBooking <==> dp.bookedByCurrentUser
  {
    DeskClasses(true, dp.bookedByCurrentUser,
                !dp.bookedByCurrentUser && dp.available,
                !dp.bookedByCurrentUser && !dp.available)
  }

  /** `${booking.userName}`: an absent name is rendered as the word "undefined". */
  function NameText(name: Option<string>): string {
    match name
    case Some(n) => n
    case None => "undefined"
  }

  /** `getDeskTooltip`: the desk's number, then what its state is. */
  function DeskTooltip(dp: DeskPosition): (t: string)
    ensures |t| >= |"Postazione " + dp.desk.deskNumber|
    ensures t[..|"Postazione " + dp.desk.deskNumber|] == "Postazione " + dp.desk.deskNumber
  {
    var head := "Postazione " + dp.desk.deskNumber;
    if dp.bookedByCurrentUser then head + " - La tua prenotazione"
    else if !dp.available && dp.booking.Some? then head + " - Occupata da " + NameText(dp.booking.value.userName)
    else if dp.available then head + " - Disponibile"
    else head
  }

  /** The tooltip tells the same state as the desk's colour class. */
  lemma TooltipAgreesWithClass(dp: DeskPosition)
    ensures var c, t, head := DeskClass(dp), DeskTooltip(dp), "Postazione " + dp.desk.deskNumber;
            && (c.deskMyBooking <==> t == head + " - La tua prenotazione")
            && (c.deskAvailable <==> t == head + " - Disponibile")
            && (c.deskOccupied <==> (t == head || (dp.booking.Some? && t == head + " - Occupata da " + NameText(dp.booking.value.userName))))
            && (c.deskOccupied && dp.booking.Some? ==> t == head + " - Occupata da " + NameText(dp.booking.value.userName))
            && (c.deskOccupied && dp.booking.None? ==> t == head)
  {
    var head := "Postazione " + dp.desk.deskNumber;
    var mine, free := head + " - La tua prenotazione", head + " - Disponibile";
    assert mine != free by { assert mine[|head| + 3] != free[|head| + 3]; }
    assert head != mine && head != free by { assert |head| < |mine| && |head| < |free|; }
    if dp.booking.Some? {
      var taken := head + " - Occupata da " + NameText(dp.booking.value.userName);
      assert taken != mine && taken != free by {
        assert taken[|head| + 3] != mine[|head| + 3] && taken[|head| + 3] != free[|head| + 3];
      }
    }
  }

  // ---------------------------------------------------------------------------
  // Search filter and the "my booking only" switch

  /** `booking?.userName?.toLowerCase() || ''` and `desk.notes?.toLowerCase() || ''`. */
  function LowerOrEmpty(s: Option<string>): string {
    match s
    case Some(v) => ToLower(v)
    case None => ""
  }

  function UserNameOf(dp: DeskPosition): Option<string> {
    if dp.booking.Some? then dp.booking.value.userName else None
  }

  /** `matchesSearchFilter`: a blank filter matches every desk; otherwise the
      trimmed, lower-cased filter must occur in the lower-cased notes or occupant name. */
  function MatchesSearchFilter(dp: DeskPosition, searchFilter: string): (r: bool)
    ensures AllJsWhitespace(searchFilter) ==> r
    ensures !AllJsWhitespace(searchFilter) ==>
              (r <==> (Contains(LowerOrEmpty(dp.desk.notes), ToLower(JsTrim(searchFilter)))
                       || Contains(LowerOrEmpty(UserNameOf(dp)), ToLower(JsTrim(searchFilter)))))
  {
    if searchFilter == "" || JsTrim(searchFilter) == "" then true
    else
      var term := ToLower(JsTrim(searchFilter));
      Contains(LowerOrEmpty(dp.desk.notes), term) || Contains(LowerOrEmpty(UserNameOf(dp)), term)
  }

  /** Whitespace around the filter text does not change what it matches. */
  lemma FilterIgnoresPadding(dp: DeskPosition, searchFilter: string, pad1: string, pad2: string)
    requires AllJsWhitespace(pad1) && AllJsWhitespace(pad2)
    ensures MatchesSearchFilter(dp, pad1 + searchFilter + pad2) == MatchesSearchFilter(dp, searchFilter)
  {
    TrimPadded(searchFilter, pad1, pad2);
  }

  /** Whether `getFilteredDeskPositions` keeps a desk. */
  predicate Shown(dp: DeskPosition, showMyBookingOnly: bool, searchFilter: string) {
    (!showMyBookingOnly || dp.bookedByCurrentUser) && MatchesSearchFilter(dp, searchFilter)
  }

  /** `getFilteredDeskPositions`. */
  function FilteredDeskPositions(dps: seq<DeskPosition>, showMyBookingOnly: bool, searchFilter: string): (r: seq<DeskPosition>)
    ensures IsSubsequence(r, dps)
    ensures forall dp :: multiset(r)[dp] == if Shown(dp, showMyBookingOnly, searchFilter) then multiset(dps)[dp] else 0
    ensures showMyBookingOnly ==> forall dp :: dp in r ==> dp.bookedByCurrentUser
    decreases |dps|
  {
    if dps == [] then []
    else
      var rest := FilteredDeskPositions(dps[1..], showMyBookingOnly, searchFilter);
      assert multiset(dps) == multiset{dps[0]} + multiset(dps[1..]) by {
        assert dps == [dps[0]] + dps[1..];
      }
      if Shown(dps[0], showMyBookingOnly, searchFilter) then
        assert multiset([dps[0]] + rest) == multiset{dps[0]} + multiset(rest);
        [dps[0]] + rest
      else
        SubsequenceOfTail(rest, dps);
        rest
  }

  /** With a blank filter and the switch off, every desk is shown. */
  lemma BlankFilterShowsAll(dps: seq<DeskPosition>, searchFilter: string)
    requires AllJsWhitespace(searchFilter)
    ensures FilteredDeskPositions(dps, false, searchFilter) == dps
    decreases |dps|
  {
    if dps != [] {
      BlankFilterShowsAll(dps[1..], searchFilter);
    }
  }

  // ---------------------------------------------------------------------------
  // Cancelling from the occupant modal

  /** `canCancelBooking`: an ACTIVE selected booking dated today or later. The
      booking's date string is read as a calendar date; an unreadable one is an
      invalid date, which compares false. */
  function CanCancelBooking(selectedBooking: Option<Booking>, today: Ymd): (r: bool)
    requires Valid(today)
    ensures r <==> && selectedBooking.Some? && selectedBooking.value.status == ACTIVE
                   && var d := ParseIsoDate(selectedBooking.value.bookingDate);
                      d.Some? && DayNumber(d.value) >= DayNumber(today)
  {
    match selectedBooking
    case None => false
    case Some(b) =>
      if b.status != ACTIVE then false
      else match ParseIsoDate(b.bookingDate)
        case None => false
        case Some(d) => DayNumber(d) >= DayNumber(today)
  }

  /** An active booking for today, as the server writes dates, can be cancelled. */
  lemma CanCancelTodaysBooking(b: Booking, today: Ymd)
    requires Valid(today) && 1000 <= today.year <= 9999
    requires b.status == ACTIVE && b.bookingDate == FormatIsoDate(today)
    ensures CanCancelBooking(Some(b), today)
  {
    ParseFormatRoundTrip(today);
  }

  /** The cancel button only ever disappears as days pass: a booking that can
      be cancelled on some day could be cancelled on every earlier day. */
  lemma CancelWindowCloses(selectedBooking: Option<Booking>, earlier: Ymd, later: Ymd)
    requires Valid(earlier) && Valid(later) && DayNumber(earlier) <= DayNumber(later)
    ensures CanCancelBooking(selectedBooking, later) ==> CanCancelBooking(selectedBooking, earlier)
  {
  }

  // ---------------------------------------------------------------------------
  // Requests and notices

  /** A request the component sends to the booking service. */
  datatype BookingCall =
    | CancelCall(bookingId: int, cancellationReason: string)
    | CreateCall(userId: int, deskId: int, bookingDate: string, bookingType: string)

  const MODIFY_REASON: string := "Modifica postazione"

  /** The full-day booking request for a desk and a date. The date it carries
      reads back as the selected date, so the server books the day the user
      picked. */
  function NewBookingCall(userId: int, desk: Desk, date: Ymd): (c: BookingCall)
    ensures c.CreateCall? && c.deskId == desk.id
    ensures Valid(date) && 1000 <= date.year <= 9999 ==> ParseIsoDate(c.bookingDate) == Some(date)
  {
    var c := CreateCall(userId, desk.id, FormatIsoDate(date), "FULL_DAY");
    assert Valid(date) && 1000 <= date.year <= 9999 ==> ParseIsoDate(c.bookingDate) == Some(date) by {
      if Valid(date) && 1000 <= date.year <= 9999 {
        ParseFormatRoundTrip(date);
      }
    }
    c
  }

  /** How a request ended. */
  datatype CallOutcome = Succeeded | Failed(message: string)

  datatype Notice = Success(text: string) | Error(text: string) | Info(text: string) | Warning(text: string)

  /** `error?.message || fallback`. */
  function ErrorText(message: string, fallback: string): (t: string)
    ensures t != ""  || fallback == ""
    ensures message != "" ==> t == message
  {
    if message != "" then message else fallback
  }

  datatype Modal = Closed | ConfirmModal | ModifyModal | UserInfoModal

  class FloorMapComponent {
    var floor: Option<Floor>
    var selectedDate: Option<Ymd>
    var currentUserId: int
    const layouts: Layouts

    var desks: seq<Desk>
    var deskPositions: seq<DeskPosition>
    var hasUserBookingForToday: bool
    var existingBooking: Option<Booking>
    var selectedBooking: Option<Booking>
    var selectedDesk: Option<Desk>
    var modal: Modal
    var showMyBookingOnly: bool
    var searchFilter: string

    var zoomLevel: real
    var panX: real
    var panY: real
    var startPanX: real
    var startPanY: real
    var isPanning: bool

    /** The zoom level always stays within [minZoom, maxZoom]. */
    ghost predicate Valid()
      reads this
    {
      MinZoom <= zoomLevel <= MaxZoom
    }

    constructor (layouts: Layouts)
      ensures Valid()
      ensures this.layouts == layouts && floor.None? && selectedDate.None? && currentUserId == 1
      ensures desks == [] && deskPositions == [] && !hasUserBookingForToday
      ensures existingBooking.None? && selectedBooking.None? && selectedDesk.None? && modal == Closed
      ensures !showMyBookingOnly && searchFilter == ""
      ensures zoomLevel == 1.0 && panX == 0.0 && panY == 0.0 && !isPanning
    {
      this.layouts := layouts;
      floor, selectedDate, currentUserId := None, None, 1;
      desks, deskPositions, hasUserBookingForToday := [], [], false;
      existingBooking, selectedBooking, selectedDesk, modal := None, None, None, Closed;
      showMyBookingOnly, searchFilter := false, "";
      zoomLevel, panX, panY, startPanX, startPanY, isPanning := 1.0, 0.0, 0.0, 0.0, 0.0, false;
    }

    /** `buildDeskPositions`: discards the previous list and pushes one entry per
        roster desk; the flag ends true iff some entry is the current user's. */
    method BuildDeskPositions(availableDesks: seq<Desk>, bookings: seq<Booking>)
      modifies this`deskPositions, this`hasUserBookingForToday
      ensures floor.None? ==> deskPositions == old(deskPositions) && hasUserBookingForToday == old(hasUserBookingForToday)
      ensures floor.Some? ==>
                deskPositions == Reconcile(desks, availableDesks, bookings, layouts, floor.value.floorNumber, currentUserId)
      ensures floor.Some? ==>
                (hasUserBookingForToday <==> exists i :: 0 <= i < |deskPositions| && deskPositions[i].bookedByCurrentUser)
    {
      if floor.None? {
        return;
      }
      var floorNumber, roster, userId := floor.value.floorNumber, desks, currentUserId;
      var positions: seq<DeskPosition> := [];
      var mine := false;
      for i := 0 to |roster|
        invariant positions == Reconcile(roster[..i], availableDesks, bookings, layouts, floorNumber, userId)
        invariant mine <==> exists k :: 0 <= k < i && positions[k].bookedByCurrentUser
      {
        var entry := PositionFor(roster[i], availableDesks, bookings, layouts, floorNumber, userId);
        if entry.bookedByCurrentUser {
          mine := true;
        }
        ReconcileSnoc(roster, i, availableDesks, bookings, layouts, floorNumber, userId);
        var extended := positions + [entry];
        assert extended[i] == entry;
        assert forall k :: 0 <= k < i ==> extended[k] == positions[k];
        positions := extended;
      }
      assert roster[..|roster|] == roster;
      deskPositions, hasUserBookingForToday := positions, mine;
    }

    /** `onDeskClick`: records the clicked booking or desk and opens the matching
        modal; a click on the desk already booked for the date shows an info notice. */
    method OnDeskClick(dp: DeskPosition) returns (action: ClickAction, notice: Option<Notice>)
      modifies this`selectedBooking, this`selectedDesk, this`modal
      ensures action == DeskClickAction(dp, existingBooking)
      ensures notice == if action.AlreadyYours? then Some(Info("Hai già prenotato questa postazione per questa data!")) else None
      ensures action.ShowOccupant? ==> selectedBooking == dp.booking && modal == UserInfoModal
      ensures !action.ShowOccupant? ==> selectedBooking == old(selectedBooking)
      ensures action.ProposeModify? ==> selectedDesk == Some(dp.desk) && modal == ModifyModal
      ensures action.ProposeCreate? ==> selectedDesk == Some(dp.desk) && modal == ConfirmModal
      ensures !(action.ProposeModify? || action.ProposeCreate?) ==> selectedDesk == old(selectedDesk)
      ensures action.NoAction? || action.AlreadyYours? ==> modal == old(modal)
    {
      action, notice := DeskClickAction(dp, existingBooking), None;
      match action
      case ShowOccupant(b) =>
        selectedBooking := Some(b);
        modal := UserInfoModal;
      case ProposeModify(d) =>
        selectedDesk := Some(d);
        modal := ModifyModal;
      case ProposeCreate(d) =>
        selectedDesk := Some(d);
        modal := ConfirmModal;
      case AlreadyYours =>
        notice := Some(Info("Hai già prenotato questa postazione per questa data!"));
      case _ =>
    }

    /** `confirmBooking`: creates a full-day booking of the selected desk for the selected date. */
    method ConfirmBooking(isAuthenticated: bool, createOutcome: CallOutcome)
      returns (calls: seq<BookingCall>, notice: Option<Notice>, reload: bool)
      modifies this`modal
      ensures (selectedDesk.None? || selectedDate.None?) ==>
                calls == [] && notice.None? && !reload && modal == old(modal)
      ensures selectedDesk.Some? && selectedDate.Some? && !isAuthenticated ==>
                calls == [] && notice == Some(Warning("Devi essere autenticato per prenotare una postazione"))
                && !reload && modal == Closed
      ensures selectedDesk.Some? && selectedDate.Some? && isAuthenticated ==>
                calls == [NewBookingCall(currentUserId, selectedDesk.value, selectedDate.value)]
      ensures selectedDesk.Some? && selectedDate.Some? && isAuthenticated && createOutcome.Succeeded? ==>
                notice == Some(Success("Prenotazione effettuata con successo!")) && reload && modal == Closed
      ensures selectedDesk.Some? && selectedDate.Some? && isAuthenticated && createOutcome.Failed? ==>
                notice == Some(Error(ErrorText(createOutcome.message, "Errore durante la prenotazione")))
                && !reload && modal == old(modal)
    {
      calls, notice, reload := [], None, false;
      if selectedDesk.None? || selectedDate.None? {
        return;
      }
      if !isAuthenticated {
        notice := Some(Warning("Devi essere autenticato per prenotare una postazione"));
        modal := Closed;
        return;
      }
      calls := [NewBookingCall(currentUserId, selectedDesk.value, selectedDate.value)];
      match createOutcome
      case Succeeded =>
        notice := Some(Success("Prenotazione effettuata con successo!"));
        modal := Closed;
        reload := true;
      case Failed(m) =>
        notice := Some(Error(ErrorText(m, "Errore durante la prenotazione")));
    }

    /** `confirmModifyBooking`: cancels the existing booking and, only once that
        succeeded, books the desk and date selected at that moment. The
        callback reads the selection again, so `laterDesk` and `laterDate` are
        the selection when the cancel's reply arrives (the starting selection
        when nothing happened in between). If either was cleared meanwhile, the
        callback's non-null reads throw: the old booking stays cancelled on the
        server, no booking is created and no notice is shown. The existing
        booking is forgotten only when both requests succeeded. */
    method ConfirmModifyBooking(cancelOutcome: CallOutcome, laterDesk: Option<Desk>, laterDate: Option<Ymd>,
                                createOutcome: CallOutcome)
      returns (calls: seq<BookingCall>, notice: Option<Notice>, reload: bool)
      modifies this`existingBooking, this`modal
      ensures var ready := selectedDesk.Some? && selectedDate.Some? && old(existingBooking).Some?;
              var cancel := if ready then [CancelCall(old(existingBooking).value.id, MODIFY_REASON)] else [];
              var create := cancelOutcome.Succeeded? && laterDesk.Some? && laterDate.Some?;
              && (!ready ==> calls == [] && notice.None?)
              && (ready && cancelOutcome.Failed? ==>
                    calls == cancel
                    && notice == Some(Error(ErrorText(cancelOutcome.message, "Errore nella cancellazione della prenotazione precedente"))))
              && (ready && cancelOutcome.Succeeded? && !create ==> calls == cancel && notice.None?)
              && (ready && create ==>
                    calls == cancel + [NewBookingCall(currentUserId, laterDesk.value, laterDate.value)])
              && (ready && create && createOutcome.Failed? ==>
                    notice == Some(Error(ErrorText(createOutcome.message, "Errore nella creazione della nuova prenotazione"))))
              && (reload <==> ready && create && createOutcome.Succeeded?)
      ensures reload ==> existingBooking.None? && modal == Closed && notice == Some(Success("Prenotazione modificata con successo!"))
      ensures !reload ==> existingBooking == old(existingBooking) && modal == old(modal)
    {
      calls, notice, reload := [], None, false;
      if selectedDesk.Some? && selectedDate.Some? && existingBooking.Some? {
        var cancel := CancelCall(existingBooking.value.id, MODIFY_REASON);
        match cancelOutcome
        case Failed(m) =>
          calls := [cancel];
          notice := Some(Error(ErrorText(m, "Errore nella cancellazione della prenotazione precedente")));
        case Succeeded =>
          calls := [cancel];
          if laterDesk.Some? && laterDate.Some? {
            calls := calls + [NewBookingCall(currentUserId, laterDesk.value, laterDate.value)];
            match createOutcome
            case Failed(m) =>
              notice := Some(Error(ErrorText(m, "Errore nella creazione della nuova prenotazione")));
            case Succeeded =>
              notice := Some(Success("Prenotazione modificata con successo!"));
              modal := Closed;
              existingBooking := None;
              reload := true;
          }
      }
    }

    /** `cancelBooking` (the dismiss button of the confirm modals): forgets the selected desk. */
    method DismissConfirm()
      modifies this`selectedDesk, this`modal
      ensures selectedDesk.None? && modal == Closed
    {
      selectedDesk := None;
      modal := Closed;
    }

    /** `closeModal`: forgets the selected booking. */
    method CloseModal()
      modifies this`selectedBooking, this`modal
      ensures selectedBooking.None? && modal == Closed
    {
      selectedBooking := None;
      modal := Closed;
    }

    // -------------------------------------------------------------------------
    // Zoom and pan

    /** `zoomToPoint(delta)`: the focal offset is the last mouse position, or the
        centre of the drawing when that coordinate is 0; without a drawing only
        the level changes. */
    method ZoomToPoint(delta: real, svg: Option<Rect>, lastMouseX: real, lastMouseY: real)
      requires Valid()
      modifies this`zoomLevel, this`panX, this`panY
      ensures Valid()
      ensures zoomLevel == ClampZoom(old(zoomLevel) + delta)
      ensures zoomLevel == old(zoomLevel) || svg.None? ==> panX == old(panX) && panY == old(panY)
      ensures zoomLevel != old(zoomLevel) && svg.Some? ==>
                var fx := FocalOffset(lastMouseX, svg.value.left, svg.value.width);
                var fy := FocalOffset(lastMouseY, svg.value.top, svg.value.height);
                && ContentAt(fx, panX, zoomLevel) == ContentAt(fx, old(panX), old(zoomLevel))
                && ContentAt(fy, panY, zoomLevel) == ContentAt(fy, old(panY), old(zoomLevel))
    {
      var oldZoom := zoomLevel;
      var newZoom := ClampZoom(oldZoom + delta);
      if newZoom == oldZoom {
        return;
      }
      if svg.None? {
        zoomLevel := newZoom;
        return;
      }
      var rect := svg.value;
      var x := FocalOffset(lastMouseX, rect.left, rect.width);
      var y := FocalOffset(lastMouseY, rect.top, rect.height);
      FocalPanKeepsPoint(x, panX, oldZoom, newZoom);
      FocalPanKeepsPoint(y, panY, oldZoom, newZoom);
      zoomLevel := newZoom;
      panX := FocalPan(x, panX, oldZoom, newZoom);
      panY := FocalPan(y, panY, oldZoom, newZoom);
    }

    /** `zoomIn`: `zoomToPoint(0.2)`. */
    method ZoomIn(svg: Option<Rect>, lastMouseX: real, lastMouseY: real)
      requires Valid()
      modifies this`zoomLevel, this`panX, this`panY
      ensures Valid() && zoomLevel == ClampZoom(old(zoomLevel) + 0.2)
      ensures zoomLevel == old(zoomLevel) || svg.None? ==> panX == old(panX) && panY == old(panY)
      ensures zoomLevel != old(zoomLevel) && svg.Some? ==>
                var fx := FocalOffset(lastMouseX, svg.value.left, svg.value.width);
                var fy := FocalOffset(lastMouseY, svg.value.top, svg.value.height);
                && ContentAt(fx, panX, zoomLevel) == ContentAt(fx, old(panX), old(zoomLevel))
                && ContentAt(fy, panY, zoomLevel) == ContentAt(fy, old(panY), old(zoomLevel))
    {
      ZoomToPoint(0.2, svg, lastMouseX, lastMouseY);
    }

    /** `zoomOut`: `zoomToPoint(-0.2)`. */
    method ZoomOut(svg: Option<Rect>, lastMouseX: real, lastMouseY: real)
      requires Valid()
      modifies this`zoomLevel, this`panX, this`panY
      ensures Valid() && zoomLevel == ClampZoom(old(zoomLevel) - 0.2)
      ensures zoomLevel == old(zoomLevel) || svg.None? ==> panX == old(panX) && panY == old(panY)
      ensures zoomLevel != old(zoomLevel) && svg.Some? ==>
                var fx := FocalOffset(lastMouseX, svg.value.left, svg.value.width);
                var fy := FocalOffset(lastMouseY, svg.value.top, svg.value.height);
                && ContentAt(fx, panX, zoomLevel) == ContentAt(fx, old(panX), old(zoomLevel))
                && ContentAt(fy, panY, zoomLevel) == ContentAt(fy, old(panY), old(zoomLevel))
    {
      ZoomToPoint(-0.2, svg, lastMouseX, lastMouseY);
    }

    /** `onWheel`: scrolling down zooms out by 0.1, anything else zooms in by 0.1,
        around the pointer; nothing happens without a drawing. */
    method OnWheel(deltaY: real, clientX: real, clientY: real, svg: Option<Rect>)
      requires Valid()
      modifies this`zoomLevel, this`panX, this`panY
      ensures Valid()
      ensures svg.None? ==> zoomLevel == old(zoomLevel) && panX == old(panX) && panY == old(panY)
      ensures svg.Some? ==> zoomLevel == ClampZoom(old(zoomLevel) + (if deltaY > 0.0 then -0.1 else 0.1))
      ensures zoomLevel == old(zoomLevel) ==> panX == old(panX) && panY == old(panY)
      ensures zoomLevel != old(zoomLevel) ==>
                var x, y := clientX - svg.value.left, clientY - svg.value.top;
                && ContentAt(x, panX, zoomLevel) == ContentAt(x, old(panX), old(zoomLevel))
                && ContentAt(y, panY, zoomLevel) == ContentAt(y, old(panY), old(zoomLevel))
    {
      if svg.None? {
        return;
      }
      var x, y := clientX - svg.value.left, clientY - svg.value.top;
      var oldZoom := zoomLevel;
      var delta := if deltaY > 0.0 then -0.1 else 0.1;
      var newZoom := ClampZoom(oldZoom + delta);
      if newZoom == oldZoom {
        return;
      }
      FocalPanKeepsPoint(x, panX, oldZoom, newZoom);
      FocalPanKeepsPoint(y, panY, oldZoom, newZoom);
      zoomLevel := newZoom;
      panX := FocalPan(x, panX, oldZoom, newZoom);
      panY := FocalPan(y, panY, oldZoom, newZoom);
    }

    method ResetZoom()
      modifies this`zoomLevel, this`panX, this`panY
      ensures Valid() && zoomLevel == 1.0 && panX == 0.0 && panY == 0.0
    {
      zoomLevel, panX, panY := 1.0, 0.0, 0.0;
    }

    /** `onMouseDown`: panning starts only when zoomed in. */
    method OnMouseDown(clientX: real, clientY: real)
      modifies this`isPanning, this`startPanX, this`startPanY
      ensures zoomLevel > 1.0 ==> isPanning && startPanX == clientX - panX && startPanY == clientY - panY
      ensures zoomLevel <= 1.0 ==> isPanning == old(isPanning) && startPanX == old(startPanX) && startPanY == old(startPanY)
    {
      if zoomLevel > 1.0 {
        isPanning := true;
        startPanX, startPanY := clientX - panX, clientY - panY;
      }
    }

    /** `onMouseMove`: while panning above zoom 1, the drawing follows the pointer. */
    method OnMouseMove(clientX: real, clientY: real)
      modifies this`panX, this`panY
      ensures isPanning && zoomLevel > 1.0 ==> panX == clientX - startPanX && panY == clientY - startPanY
      ensures !(isPanning && zoomLevel > 1.0) ==> panX == old(panX) && panY == old(panY)
    {
      if isPanning && zoomLevel > 1.0 {
        panX, panY := clientX - startPanX, clientY - startPanY;
      }
    }

    /** `onMouseUp` and `onMouseLeave`. */
    method OnMouseUp()
      modifies this`isPanning
      ensures !isPanning
    {
      isPanning := false;
    }

    /** A press at one point and a move to another shifts the drawing by the
        pointer's displacement when zoomed in, and leaves it alone at zoom 1. */
    method Drag(x0: real, y0: real, x1: real, y1: real)
      modifies this`isPanning, this`startPanX, this`startPanY, this`panX, this`panY
      ensures zoomLevel > 1.0 ==> panX == old(panX) + (x1 - x0) && panY == old(panY) + (y1 - y0) && isPanning
      ensures zoomLevel <= 1.0 ==> panX == old(panX) && panY == old(panY)
    {
      OnMouseDown(x0, y0);
      OnMouseMove(x1, y1);
    }
  }

  /** The bounding rectangle of the drawing on screen. */
  datatype Rect = Rect(left: real, top: real, width: real, height: real)

  /** `(lastMouse || rectStart + rectSize / 2) - rectStart`: 0 counts as "no mouse position". */
  function FocalOffset(lastMouse: real, rectStart: real, rectSize: real): (x: real)
    ensures lastMouse != 0.0 ==> x == lastMouse - rectStart
    ensures lastMouse == 0.0 ==> x == rectSize / 2.0
  {
    (if lastMouse != 0.0 then lastMouse else rectStart + rectSize / 2.0) - rectStart
  }
}
