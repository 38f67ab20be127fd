/** The registration form: the validators of each field, the password
    confirmation check, the request built on submit (without the confirmation
    and without empty optional fields) and the message shown for each kind of
    server failure. Whether a non-empty e-mail address is well formed, the
    authentication state and the server's answers are parameters. */
module Register {
  import opened Wrappers
  import opened Text

  /** The form's values. */
  datatype RegisterForm = RegisterForm(
    email: string,
    firstName: string,
    lastName: string,
    password: string,
    confirmPassword: string,
    employeeId: string,
    phoneNumber: string,
    workType: string,
    role: string)

  /** The request sent to the server. */
  datatype RegisterRequest = RegisterRequest(
    email: string,
    firstName: string,
    lastName: string,
    password: string,
    employeeId: Option<string>,
    phoneNumber: Option<string>,
    workType: string,
    role: string)

  /** The initial values. */
  const InitialForm: RegisterForm := RegisterForm("", "", "", "", "", "", "", "STANDARD", "USER")

  /** The form's controls, by name. */
  const Controls: set<string> := {"email", "firstName", "lastName", "password", "confirmPassword",
                                  "employeeId", "phoneNumber", "workType", "role"}

  // ---------------------------------------------------------------------------
  // Validators

  /** `Validators.required` on a text value. */
  function Required(value: string): (errors: set<string>)
    ensures errors == {} <==> value != ""
  {
    if value == "" then {"required"} else {}
  }

  /** `Validators.minLength(n)`: an empty value is left to `required`. */
  function MinLength(value: string, n: nat): (errors: set<string>)
    ensures errors == {} <==> value == "" || |value| >= n
  {
    if value != "" && |value| < n then {"minlength"} else {}
  }

  /** `Validators.email`, given whether the non-empty value is well formed. */
  function Email(value: string, wellFormed: bool): (errors: set<string>)
    ensures errors == {} <==> value == "" || wellFormed
  {
    if value != "" && !wellFormed then {"email"} else {}
  }

  /** A character the phone pattern `^[0-9+\-\s()]*$` accepts. */
  predicate IsPhoneChar(c: char) {
    IsDigit(c) || c == '+' || c == '-' || IsJsWhitespace(c) || c == '(' || c == ')'
  }

  predicate PhonePatternMatches(s: string) {
    forall i :: 0 <= i < |s| ==> IsPhoneChar(s[i])
  }

  /** `Validators.pattern(/^[0-9+\-\s()]*$/)`. */
  function PhonePattern(value: string): (errors: set<string>)
    ensures errors == {} <==> PhonePatternMatches(value)
  {
    if PhonePatternMatches(value) then {} else {"pattern"}
  }

  /** Two phone numbers that each pass the pattern pass it when joined, and
      only then. */
  lemma PhonePatternConcat(a: string, b: string)
    ensures PhonePatternMatches(a + b) <==> PhonePatternMatches(a) && PhonePatternMatches(b)
  {
    if PhonePatternMatches(a + b) {
      assert forall i :: 0 <= i < |a| ==> a[i] == (a + b)[i];
      assert forall i :: 0 <= i < |b| ==> b[i] == (a + b)[|a| + i];
    }
  }

  /** `passwordMatchValidator`: on a mismatch the confirmation's errors are
      replaced by the mismatch (and the form gets it too); on a match a
      mismatch error left on the confirmation is cleared with all its errors. */
  function PasswordMatch(password: string, confirmPassword: string, confirmErrors: set<string>)
    : (r: (bool, set<string>))
    ensures r.0 <==> password != confirmPassword
    ensures r.0 ==> r.1 == {"passwordMismatch"}
    ensures !r.0 && "passwordMismatch" in confirmErrors ==> r.1 == {}
    ensures !r.0 && "passwordMismatch" !in confirmErrors ==> r.1 == confirmErrors
  {
    if password != confirmPassword then (true, {"passwordMismatch"})
    else if "passwordMismatch" in confirmErrors then (false, {})
    else (false, confirmErrors)
  }

  /** The errors each control holds after its own validators and the form's. */
  function ControlErrors(f: RegisterForm, emailWellFormed: bool, name: string): set<string> {
    if name == "email" then Required(f.email) + Email(f.email, emailWellFormed)
    else if name == "firstName" then Required(f.firstName) + MinLength(f.firstName, 2)
    else if name == "lastName" then Required(f.lastName) + MinLength(f.lastName, 2)
    else if name == "password" then Required(f.password) + MinLength(f.password, 6)
    else if name == "confirmPassword" then PasswordMatch(f.password, f.confirmPassword, Required(f.confirmPassword)).1
    else if name == "phoneNumber" then PhonePattern(f.phoneNumber)
    else {}
  }

  /** `registerForm.invalid`: some control, or the form itself, holds an error. */
  predicate FormInvalid(f: RegisterForm, emailWellFormed: bool) {
    (exists name :: name in Controls && ControlErrors(f, emailWellFormed, name) != {})
    || PasswordMatch(f.password, f.confirmPassword, Required(f.confirmPassword)).0
  }

  /** The form is valid exactly when the e-mail is given and well formed, both
      names have two characters or more, the password six or more, the
      confirmation repeats the password and the phone number passes the pattern.
      Employee id, work type and role are free. */
  lemma FormValidity(f: RegisterForm, emailWellFormed: bool)
    ensures !FormInvalid(f, emailWellFormed) <==>
              && f.email != "" && emailWellFormed
              && |f.firstName| >= 2 && |f.lastName| >= 2
              && |f.password| >= 6 && f.confirmPassword == f.password
              && PhonePatternMatches(f.phoneNumber)
  {
    if && f.email != "" && emailWellFormed && |f.firstName| >= 2 && |f.lastName| >= 2
       && |f.password| >= 6 && f.confirmPassword == f.password && PhonePatternMatches(f.phoneNumber)
    {
      forall name | name in Controls
        ensures ControlErrors(f, emailWellFormed, name) == {}
      {
      }
    } else if f.email == "" || !emailWellFormed {
      assert ControlErrors(f, emailWellFormed, "email") != {};
    } else if |f.firstName| < 2 {
      assert ControlErrors(f, emailWellFormed, "firstName") != {};
    } else if |f.lastName| < 2 {
      assert ControlErrors(f, emailWellFormed, "lastName") != {};
    } else if |f.password| < 6 {
      assert ControlErrors(f, emailWellFormed, "password") != {};
    } else if !PhonePatternMatches(f.phoneNumber) {
      assert ControlErrors(f, emailWellFormed, "phoneNumber") != {};
    }
  }

  /** The initial form cannot be submitted: the required fields are empty. */
  lemma InitialFormInvalid(emailWellFormed: bool)
    ensures FormInvalid(InitialForm, emailWellFormed)
  {
    assert ControlErrors(InitialForm, emailWellFormed, "email") != {};
  }

  // ---------------------------------------------------------------------------
  // The request

  /** `value || undefined`: an empty optional field is left out. */
  function Optional(value: string): (r: Option<string>)
    ensures r.None? <==> value == ""
    ensures r.Some? ==> r.value == value
  {
    if value == "" then None else Some(value)
  }

  /** The form's values without the confirmation, empty optional fields left
      out. Nothing but the confirmation is lost: the form comes back from its
      request. */
  function CleanedRequest(f: RegisterForm): (r: RegisterRequest)
    ensures FormOf(r, f.confirmPassword) == f
    ensures r.employeeId != Some("") && r.phoneNumber != Some("")
  {
    RegisterRequest(f.email, f.firstName, f.lastName, f.password,
                    Optional(f.employeeId), Optional(f.phoneNumber), f.workType, f.role)
  }

  /** The form a request comes from, given the confirmation it dropped. */
  function FormOf(r: RegisterRequest, confirmPassword: string): RegisterForm {
    RegisterForm(r.email, r.firstName, r.lastName, r.password, confirmPassword,
                 if r.employeeId.Some? then r.employeeId.value else "",
                 if r.phoneNumber.Some? then r.phoneNumber.value else "",
                 r.workType, r.role)
  }

  // ---------------------------------------------------------------------------
  // Server failures

  const EmailTakenMessage: string := "Email già registrata. Prova ad effettuare il login."
  const BadDataMessage: string := "Dati non validi. Controlla i campi e riprova."
  const UnreachableMessage: string := "Impossibile connettersi al server. Verifica che il backend sia attivo."
  const GenericMessage: string := "Si è verificato un errore. Riprova più tardi."

  /** The message for an HTTP failure: fixed for 409 and for an unreachable
      server (status 0), the server's own message (when non-empty) for 400 and
      any other status, with a fallback for each. */
  function FailureMessage(status: int, serverMessage: Option<string>): (m: string)
    ensures status == 409 ==> m == EmailTakenMessage
    ensures status == 0 ==> m == UnreachableMessage
    ensures status == 400 ==> m == if serverMessage.Some? && serverMessage.value != "" then serverMessage.value else BadDataMessage
    ensures status !in {0, 400, 409} ==>
              m == if serverMessage.Some? && serverMessage.value != "" then serverMessage.value else GenericMessage
  {
    if status == 409 then EmailTakenMessage
    else if status == 400 then
      (if serverMessage.Some? && serverMessage.value != "" then serverMessage.value else BadDataMessage)
    else if status == 0 then UnreachableMessage
    else if serverMessage.Some? && serverMessage.value != "" then serverMessage.value
    else GenericMessage
  }

  /** A failure always shows a message. */
  lemma FailureMessageNonEmpty(status: int, serverMessage: Option<string>)
    ensures FailureMessage(status, serverMessage) != ""
  {
  }

  // ---------------------------------------------------------------------------
  // The component

  class RegisterComponent {
    var form: RegisterForm
    var loading: bool
    var error: string
    var success: bool
    /** The controls marked as touched. */
    var touched: set<string>
    /** Every navigation started, oldest first. */
    var navigations: seq<string>

    /** An authenticated visitor is sent home; the form starts from its defaults. */
    constructor (isAuthenticated: bool)
      ensures form == InitialForm && !loading && error == "" && !success && touched == {}
      ensures navigations == if isAuthenticated then ["/"] else []
    {
      form, loading, error, success, touched := InitialForm, false, "", false, {};
      navigations := if isAuthenticated then ["/"] else [];
    }

    /** `onSubmit`: clears the outcome; an invalid form only has every control
        marked as touched; a valid one starts loading and sends the cleaned request. */
    method Submit(emailWellFormed: bool) returns (request: Option<RegisterRequest>)
      modifies this`error, this`success, this`touched, this`loading
      ensures error == "" && !success
      ensures FormInvalid(form, emailWellFormed) ==>
                request.None? && touched == old(touched) + Controls && loading == old(loading)
      ensures !FormInvalid(form, emailWellFormed) ==>
                request == Some(CleanedRequest(form)) && loading && touched == old(touched)
    {
      error, success := "", false;
      if FormInvalid(form, emailWellFormed) {
        touched := touched + Controls;
        return None;
      }
      loading := true;
      request := Some(CleanedRequest(form));
    }

    /** The success branch: the registration is confirmed and the home page is
        opened after the delay; `loading` is left as it was. */
    method OnRegistered()
      modifies this`success, this`navigations
      ensures success && navigations == old(navigations) + ["/"]
    {
      success := true;
      navigations := navigations + ["/"];
    }

    /** The error branch: the message for the failure, and loading ends. */
    method OnRegisterFailed(status: int, serverMessage: Option<string>)
      modifies this`error, this`loading
      ensures error == FailureMessage(status, serverMessage) && error != "" && !loading
    {
      error := FailureMessage(status, serverMessage);
      loading := false;
    }
  }
}
