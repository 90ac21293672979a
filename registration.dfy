/** The registration form (src/pages/Registration/index.tsx): the error record
    `validateForm` builds, the phone field's formatter hook, the request body
    and the submit handler, with the `register` call's outcome as a parameter. */
module Registration {
  import opened Wrappers
  import opened Strings
  import opened Js
  import opened Validation

  const PasswordsDiffer := "Пароли не совпадают"
  const RegistrationRejected := "Ошибка регистрации. Попробуйте еще раз."
  const RegistrationFailed := "Произошла ошибка при регистрации."
  /** The phone field's initial text. */
  const InitialPhone := "+7 "

  /** The five inputs of the form. */
  datatype Form = Form(username: string, email: string, phone: string, password: string, confirmPassword: string)

  /** The keys of the error record. */
  datatype FieldName = Username | Email | Phone | Password | ConfirmPassword

  /** The request body; `None` is an absent `phone` property. */
  datatype Payload = Payload(username: string, email: string, phone: Option<string>, password: string)

  /** Records `err` under `key` when there is one. */
  function Record(errors: map<FieldName, string>, key: FieldName, err: Option<string>): map<FieldName, string> {
    if err.Some? then errors[key := err.value] else errors
  }

  /** The record `validateForm` stores. */
  function FormErrors(f: Form): map<FieldName, string>
  {
    var e1 := Record(map[], Username, ValidateUsername(f.username));
    var e2 := Record(e1, Email, ValidateEmail(f.email));
    var e3 := Record(e2, Phone, ValidatePhone(f.phone));
    var e4 := Record(e3, Password, ValidatePassword(f.password));
    if f.password != f.confirmPassword then e4[ConfirmPassword := PasswordsDiffer] else e4
  }

  /** One entry per failing check, holding that check's message. */
  lemma FormErrorsEntries(f: Form)
    ensures FormErrors(f).Keys <= {Username, Email, Phone, Password, ConfirmPassword}
    ensures Username in FormErrors(f) <==> ValidateUsername(f.username).Some?
    ensures Email in FormErrors(f) <==> ValidateEmail(f.email).Some?
    ensures Phone in FormErrors(f) <==> ValidatePhone(f.phone).Some?
    ensures Password in FormErrors(f) <==> ValidatePassword(f.password).Some?
    ensures ConfirmPassword in FormErrors(f) <==> f.password != f.confirmPassword
    ensures Username in FormErrors(f) ==> FormErrors(f)[Username] == ValidateUsername(f.username).value
    ensures Email in FormErrors(f) ==> FormErrors(f)[Email] == ValidateEmail(f.email).value
    ensures Phone in FormErrors(f) ==> FormErrors(f)[Phone] == ValidatePhone(f.phone).value
    ensures Password in FormErrors(f) ==> FormErrors(f)[Password] == ValidatePassword(f.password).value
    ensures ConfirmPassword in FormErrors(f) ==> FormErrors(f)[ConfirmPassword] == PasswordsDiffer
  {
  }

  /** The form passes exactly when every validator accepts its field and the
      two passwords agree. */
  lemma {:induction false} FormErrorsEmptyIff(f: Form)
    ensures FormErrors(f) == map[] <==>
      && ValidateUsername(f.username).None?
      && ValidateEmail(f.email).None?
      && ValidatePhone(f.phone).None?
      && ValidatePassword(f.password).None?
      && f.password == f.confirmPassword
  {
    FormErrorsEntries(f);
    var e := FormErrors(f);
    if e != map[] {
      var k :| k in e;
    }
  }

  /** The request body: trimmed name and e-mail, the trimmed phone unless it
      equals the untouched `'+7 '`, and the password as typed. */
  function PayloadOf(f: Form): Payload
  {
    var phone := Trim(f.phone);
    Payload(Trim(f.username), Trim(f.email), if phone == InitialPhone then None else Some(phone), f.password)
  }

  /** The handler's step that builds the object literal handed to `register`.
      `PayloadOf` is its specification, used where functions and lemmas need
      the body; `PhoneAlwaysSent` states what the body actually carries. */
  method RequestBody(f: Form) returns (p: Payload)
    ensures p == PayloadOf(f)
  {
    var phone := Trim(f.phone);
    p := Payload(Trim(f.username), Trim(f.email), if phone == InitialPhone then None else Some(phone), f.password);
  }

  /** The `'+7 '` test never fires: a trimmed string cannot end in a space, so
      the phone is always sent. */
  lemma PhoneAlwaysSent(f: Form)
    ensures PayloadOf(f).phone == Some(Trim(f.phone))
  {
    var t := Trim(f.phone);
    if t == InitialPhone {
      assert IsSpace(t[|t| - 1]);
    }
  }

  /** The untouched phone field fails `validatePhone`, so a form whose phone
      was never edited (nor cleared) cannot be submitted. */
  lemma UntouchedPhoneRejected(f: Form)
    requires f.phone == InitialPhone
    ensures Phone in FormErrors(f)
    ensures FormErrors(f)[Phone] == PhoneInvalid
  {
    assert !IsSpace(InitialPhone[0]);
    FormErrorsEntries(f);
  }

  /** `isFormValid`: all four required inputs are non-empty and the passwords
      agree (the phone is not looked at). */
  predicate IsFormValid(f: Form) {
    f.username != [] && f.email != [] && f.password != [] && f.confirmPassword != []
    && f.password == f.confirmPassword
  }

  /** The submit button is enabled when the form looks valid and no request
      is in flight. */
  predicate SubmitEnabled(f: Form, isLoading: bool) {
    IsFormValid(f) && !isLoading
  }

  /** A form that passes `validateForm` always has its button enabled when
      idle; the converse does not hold. */
  lemma {:induction false} PassingFormEnablesButton(f: Form)
    ensures FormErrors(f) == map[] ==> SubmitEnabled(f, false)
  {
    FormErrorsEmptyIff(f);
  }

  /** An enabled button does not mean the form will pass: a short password. */
  lemma EnabledButtonMayFailValidation()
    ensures var f := Form("a", "b", "", "x", "x");
      SubmitEnabled(f, false) && Password in FormErrors(f)
  {
  }

  /** The outcome of the `register` call: the body it resolves with, or the
      value it rejects with. */
  type RegisterOutcome = Result<JsValue, JsValue>

  /** `response?.success && response.data`. */
  predicate Registered(outcome: RegisterOutcome) {
    outcome.Success? && !Nullish(outcome.value)
    && Truthy(Field(outcome.value, "success")) && Truthy(Field(outcome.value, "data"))
  }

  /** `'key' in err` for a truthy object. */
  predicate HasKey(err: JsValue, key: string) {
    Truthy(err) && IsObjectType(err) && err.Obj? && key in err.fields
  }

  /** The message the handler shows for an outcome: none on success, the
      fixed retry text for a resolved failure, and for a rejection the text
      `getErrorMessage` gives for its `error` field, for itself when it has
      `error_type`, or the fixed fallback. */
  function OutcomeMessage(outcome: RegisterOutcome, getErrorMessage: JsValue -> string): (m: string)
    ensures Registered(outcome) ==> m == []
    ensures outcome.Success? && !Registered(outcome) ==> m == RegistrationRejected
    ensures outcome.Failure? && HasKey(outcome.error, "error") ==> m == getErrorMessage(outcome.error.fields["error"])
    ensures outcome.Failure? && !HasKey(outcome.error, "error") && HasKey(outcome.error, "error_type") ==>
      m == getErrorMessage(outcome.error)
    ensures outcome.Failure? && !HasKey(outcome.error, "error") && !HasKey(outcome.error, "error_type") ==>
      m == RegistrationFailed
  {
    match outcome
    case Success(_) => if Registered(outcome) then [] else RegistrationRejected
    case Failure(err) =>
      if HasKey(err, "error") then getErrorMessage(err.fields["error"])
      else if HasKey(err, "error_type") then getErrorMessage(err)
      else RegistrationFailed
  }

  /** `if (err) newErrors[key] = err`. */
  method RecordIfError(errors: map<FieldName, string>, key: FieldName, err: Option<string>) returns (e: map<FieldName, string>)
    ensures e == Record(errors, key, err)
    ensures e.Keys == errors.Keys + (if err.Some? then {key} else {})
  {
    e := errors;
    if err.Some? {
      e := e[key := err.value];
    }
  }

  /** The body of `validateForm`: a fresh record filled one check at a time. */
  method CollectFormErrors(f: Form) returns (newErrors: map<FieldName, string>)
    ensures newErrors == FormErrors(f)
  {
    newErrors := map[];
    newErrors := RecordIfError(newErrors, Username, ValidateUsername(f.username));
    newErrors := RecordIfError(newErrors, Email, ValidateEmail(f.email));
    newErrors := RecordIfError(newErrors, Phone, ValidatePhone(f.phone));
    newErrors := RecordIfError(newErrors, Password, ValidatePassword(f.password));
    if f.password != f.confirmPassword {
      newErrors := newErrors[ConfirmPassword := PasswordsDiffer];
    }
  }

  /** The page state the handlers change. */
  class RegistrationPage {
    /** The five inputs. */
    var form: Form
    var errors: map<FieldName, string>
    var apiError: string
    var isLoading: bool
    /** The route the page navigated to, if any. */
    var navigatedTo: Option<string>

    constructor ()
      ensures form == Form([], [], InitialPhone, [], [])
      ensures errors == map[] && apiError == [] && !isLoading && navigatedTo.None?
    {
      form := Form([], [], InitialPhone, [], []);
      errors, apiError, isLoading, navigatedTo := map[], [], false, None;
    }

    /** `validateForm`: fills a fresh record field by field, stores it and
        reports whether it is empty. */
    method ValidateForm() returns (ok: bool)
      modifies this
      ensures errors == FormErrors(old(form))
      ensures ok <==> errors == map[]
      ensures form == old(form)
      ensures apiError == old(apiError) && isLoading == old(isLoading) && navigatedTo == old(navigatedTo)
    {
      var newErrors := CollectFormErrors(form);
      errors := newErrors;
      ok := newErrors == map[];
    }

    /** `handlePhoneChange`: stores the formatted input and blanks a non-empty
        phone error (the key stays). */
    method HandlePhoneChange(input: string)
      modifies this
      ensures form == old(form).(phone := FormatPhoneNumber(input))
      ensures errors == (if Phone in old(errors) && old(errors)[Phone] != [] then old(errors)[Phone := []] else old(errors))
      ensures apiError == old(apiError) && isLoading == old(isLoading) && navigatedTo == old(navigatedTo)
    {
      form := form.(phone := FormatPhoneNumber(input));
      if Phone in errors && errors[Phone] != [] {
        errors := errors[Phone := []];
      }
    }

    /** The `try`/`catch` of `handleRegistration` once the request is out:
        navigate home on success, otherwise show the outcome's message. */
    method Settle(outcome: RegisterOutcome, getErrorMessage: JsValue -> string)
      requires apiError == []
      modifies this
      ensures apiError == OutcomeMessage(outcome, getErrorMessage)
      ensures navigatedTo == (if Registered(outcome) then Some("/") else old(navigatedTo))
      ensures form == old(form) && errors == old(errors) && isLoading == old(isLoading)
    {
      match outcome {
        case Success(response) =>
          if Registered(outcome) {
            navigatedTo := Some("/");
          } else {
            apiError := RegistrationRejected;
          }
        case Failure(err) =>
          if HasKey(err, "error") {
            apiError := getErrorMessage(err.fields["error"]);
          } else if HasKey(err, "error_type") {
            apiError := getErrorMessage(err);
          } else {
            apiError := RegistrationFailed;
          }
      }
    }

    /** The part of `handleRegistration` after validation passed: the
        loading flag is raised for the request and lowered in `finally`. */
    method Submit(outcome: RegisterOutcome, getErrorMessage: JsValue -> string) returns (body: Payload)
      requires apiError == []
      modifies this
      ensures body == PayloadOf(old(form)) && !isLoading
      ensures apiError == OutcomeMessage(outcome, getErrorMessage)
      ensures navigatedTo == (if Registered(outcome) then Some("/") else old(navigatedTo))
      ensures form == old(form) && errors == old(errors)
    {
      var f := form;
      isLoading := true;
      body := RequestBody(f);
      Settle(outcome, getErrorMessage);
      isLoading := false;
    }

    /** `handleRegistration`. `sent` is the body handed to `register`, `None`
        when validation stops the submission before any request. */
    method HandleRegistration(outcome: RegisterOutcome, getErrorMessage: JsValue -> string) returns (sent: Option<Payload>)
      modifies this
      ensures form == old(form)
      ensures errors == FormErrors(old(form))
      ensures sent.Some? <==> errors == map[]
      ensures sent.None? ==> apiError == [] && isLoading == old(isLoading) && navigatedTo == old(navigatedTo)
      ensures sent.Some? ==> sent.value == PayloadOf(old(form)) && !isLoading
      ensures sent.Some? ==> apiError == OutcomeMessage(outcome, getErrorMessage)
      ensures sent.Some? ==> navigatedTo == (if Registered(outcome) then Some("/") else old(navigatedTo))
    {
      apiError := [];
      var ok := ValidateForm();
      if !ok {
        sent := None;
        return;
      }
      var body := Submit(outcome, getErrorMessage);
      sent := Some(body);
    }
  }
}
