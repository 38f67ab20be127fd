/** The administrator's holiday form: the list of selectable years, the
    create and edit dialogs, the save step (date assembly, required fields,
    create-or-update) and the icon and colour of each holiday type.
    The current year, the request outcomes and the server's error text are
    parameters. */
module HolidaysAdmin {
  import opened Wrappers
  import opened Text
  import opened Calendar
  import opened Models

  /** The date picker's content: nothing picked, a date, or the NaN fields a
      `Date` built from an unreadable string yields. */
  datatype PickedDate = NoDate | Picked(date: Ymd) | Unreadable

  /** The two requests the form can send. */
  datatype HolidayCall =
    | CreateHoliday(request: HolidayRequest)
    | UpdateHoliday(id: int, request: HolidayRequest)

  datatype CallOutcome = Succeeded | Failed(serverMessage: string)

  datatype Notice = Success(text: string) | Error(text: string)

  /** The year selector: the years from `currentYear - 1` to `currentYear + 3`, ascending. */
  method YearRange(currentYear: int) returns (years: seq<int>)
    ensures |years| == 5
    ensures forall k :: 0 <= k < |years| ==> years[k] == currentYear - 1 + k
    ensures forall k :: 0 < k < |years| ==> years[k] == years[k - 1] + 1
    ensures currentYear in years
  {
    years := [];
    var i := currentYear - 1;
    while i <= currentYear + 3
      invariant currentYear - 1 <= i <= currentYear + 4
      invariant |years| == i - (currentYear - 1)
      invariant forall k :: 0 <= k < |years| ==> years[k] == currentYear - 1 + k
    {
      years := years + [i];
      i := i + 1;
    }
    assert years[1] == currentYear;
  }

  /** `year-MM-DD` as `saveHoliday` assembles it from the picker's fields. */
  function PickedDateText(p: PickedDate): (s: string)
    requires !p.NoDate?
    ensures p.Unreadable? ==> s == "NaN-NaN-NaN"
    ensures p.Picked? && Valid(p.date) && 1000 <= p.date.year <= 9999 ==> ParseIsoDate(s) == Some(p.date)
  {
    match p
    case Picked(d) =>
      if Valid(d) && 1000 <= d.year <= 9999 then
        ParseFormatRoundTrip(d);
        FormatIsoDate(d)
      else FormatIsoDate(d)
    case Unreadable => "NaN-NaN-NaN"
  }

  /** The empty form `openCreateModal` starts from. */
  const EmptyForm: HolidayRequest := HolidayRequest("", "", "", FESTIVITY, false)

  class HolidaysAdminComponent {
    var availableYears: seq<int>
    var isEditMode: bool
    var currentHolidayId: Option<int>
    var holidayForm: HolidayRequest
    var selectedDate: PickedDate

    /** The constructor fills the year selector around the current year. */
    constructor (currentYear: int)
      ensures |availableYears| == 5
      ensures forall k :: 0 <= k < |availableYears| ==> availableYears[k] == currentYear - 1 + k
      ensures !isEditMode && currentHolidayId.None? && holidayForm == EmptyForm && selectedDate == NoDate
    {
      var years := YearRange(currentYear);
      availableYears := years;
      isEditMode, currentHolidayId, holidayForm, selectedDate := false, None, EmptyForm, NoDate;
    }

    /** `openCreateModal`: a blank form in create mode. */
    method OpenCreateModal()
      modifies this`isEditMode, this`currentHolidayId, this`holidayForm, this`selectedDate
      ensures !isEditMode && currentHolidayId.None? && selectedDate == NoDate
      ensures holidayForm.date == "" && holidayForm.name == "" && holidayForm.description == ""
      ensures holidayForm.holidayType == FESTIVITY && !holidayForm.recurring
    {
      isEditMode, currentHolidayId, holidayForm, selectedDate := false, None, EmptyForm, NoDate;
    }

    /** `openEditModal`: the holiday's fields in edit mode, and its date in the picker. */
    method OpenEditModal(holiday: CompanyHoliday)
      modifies this`isEditMode, this`currentHolidayId, this`holidayForm, this`selectedDate
      ensures isEditMode && currentHolidayId == Some(holiday.id)
      ensures holidayForm.date == holiday.date && holidayForm.name == holiday.name
      ensures holidayForm.holidayType == holiday.holidayType && holidayForm.recurring == holiday.recurring
      ensures holidayForm.description == if holiday.description.Some? then holiday.description.value else ""
      ensures ParseIsoDate(holiday.date).Some? ==> selectedDate == Picked(ParseIsoDate(holiday.date).value)
      ensures ParseIsoDate(holiday.date).None? ==> selectedDate == Unreadable
    {
      isEditMode := true;
      currentHolidayId := Some(holiday.id);
      var description := if holiday.description.Some? then holiday.description.value else "";
      holidayForm := HolidayRequest(holiday.date, holiday.name, description, holiday.holidayType, holiday.recurring);
      selectedDate := match ParseIsoDate(holiday.date)
        case Some(d) => Picked(d)
        case None => Unreadable;
    }

    /** `saveHoliday`: writes the picked date into the form, refuses a form
        without date or name, and otherwise updates the holiday being edited
        (a truthy id in edit mode) or creates a new one. */
    method SaveHoliday(outcome: CallOutcome) returns (call: Option<HolidayCall>, notice: Notice)
      modifies this`holidayForm
      ensures selectedDate.NoDate? ==> holidayForm == old(holidayForm)
      ensures !selectedDate.NoDate? ==> holidayForm == old(holidayForm).(date := PickedDateText(selectedDate))
      ensures call.None? <==> holidayForm.date == "" || holidayForm.name == ""
      ensures call.None? ==> notice == Error("Compila tutti i campi obbligatori")
      ensures call.Some? && isEditMode && currentHolidayId.Some? && currentHolidayId.value != 0 ==>
                call.value == UpdateHoliday(currentHolidayId.value, holidayForm)
      ensures call.Some? && !(isEditMode && currentHolidayId.Some? && currentHolidayId.value != 0) ==>
                call.value == CreateHoliday(holidayForm)
      ensures call.Some? && outcome.Succeeded? ==>
                notice == Success(if call.value.UpdateHoliday? then "Festività aggiornata con successo"
                                  else "Festività creata con successo")
      ensures call.Some? && outcome.Failed? ==>
                notice == Error(if call.value.UpdateHoliday? then "Errore nell'aggiornamento della festività"
                                else if outcome.serverMessage != "" then outcome.serverMessage
                                else "Errore nella creazione della festività")
    {
      if !selectedDate.NoDate? {
        holidayForm := holidayForm.(date := PickedDateText(selectedDate));
      }
      if holidayForm.date == "" || holidayForm.name == "" {
        return None, Error("Compila tutti i campi obbligatori");
      }
      if isEditMode && currentHolidayId.Some? && currentHolidayId.value != 0 {
        call := Some(UpdateHoliday(currentHolidayId.value, holidayForm));
        notice := if outcome.Succeeded? then Success("Festività aggiornata con successo")
                  else Error("Errore nell'aggiornamento della festività");
      } else {
        call := Some(CreateHoliday(holidayForm));
        notice := match outcome
          case Succeeded => Success("Festività creata con successo")
          case Failed(m) => Error(if m != "" then m else "Errore nella creazione della festività");
      }
    }

    /** `onDateSelect`. */
    method OnDateSelect(d: Ymd)
      modifies this`selectedDate
      ensures selectedDate == Picked(d)
    {
      selectedDate := Picked(d);
    }
  }

  /** A picked date always fills the date field, so a form with a picked date and
      a name is always sent. */
  lemma PickedDateNeverEmpty(p: PickedDate)
    requires !p.NoDate?
    ensures PickedDateText(p) != ""
  {
    if p.Picked? {
      assert FormatIsoDate(p.date)[|IntToString(p.date.year)|] == '-';
    }
  }

  /** `getTypeIcon`. */
  function TypeIcon(holidayType: string): (icon: string)
    ensures holidayType == FESTIVITY ==> icon == "bi-calendar-event"
    ensures holidayType == COMPANY_CLOSURE ==> icon == "bi-building-x"
    ensures holidayType == MAINTENANCE ==> icon == "bi-tools"
    ensures holidayType == OTHER ==> icon == "bi-info-circle"
    ensures !IsHolidayType(holidayType) ==> icon == "bi-calendar-x"
  {
    if holidayType == FESTIVITY then "bi-calendar-event"
    else if holidayType == COMPANY_CLOSURE then "bi-building-x"
    else if holidayType == MAINTENANCE then "bi-tools"
    else if holidayType == OTHER then "bi-info-circle"
    else "bi-calendar-x"
  }

  /** `getTypeBadgeClass`. */
  function TypeBadgeClass(holidayType: string): (c: string)
    ensures holidayType == FESTIVITY ==> c == "bg-danger"
    ensures holidayType == COMPANY_CLOSURE ==> c == "bg-warning"
    ensures holidayType == MAINTENANCE ==> c == "bg-info"
    ensures holidayType == OTHER ==> c == "bg-secondary"
    ensures !IsHolidayType(holidayType) ==> c == "bg-secondary"
  {
    if holidayType == FESTIVITY then "bg-danger"
    else if holidayType == COMPANY_CLOSURE then "bg-warning"
    else if holidayType == MAINTENANCE then "bg-info"
    else if holidayType == OTHER then "bg-secondary"
    else "bg-secondary"
  }

  /** Each known type has an icon of its own, different from the fallback icon. */
  lemma TypeIconsDistinct(t1: string, t2: string)
    requires IsHolidayType(t1) && t1 != t2
    ensures TypeIcon(t1) != TypeIcon(t2)
  {
  }
}
