/**
 * The "enroll student" modal (src/components/EnrollStudentModal.jsx).  The
 * form keeps the name, the age (coerced to a number, or "" when it is not
 * one) and the gender; `handleSubmit` checks the name and the age and only
 * then shows the spinner and calls `createStudent`, after which the form is
 * reset and `onSuccess` is called.
 *
 * How `createStudent` and `onSuccess` end is given as a parameter,
 * `Ok(value)` or `Err(thrown)`; the modal records the calls it makes, in
 * order, with whether the spinner was showing at the time.
 */
module EnrollStudent {
  import opened Outcomes
  import opened Text
  import opened Js

  const RequiredMessage := "Please fill in all required fields."
  const FailedMessage := "Failed to enroll student. Please try again."

  /** `formData`: the text of the name, the age as `handleChange` stored it, and the gender. */
  datatype Form = Form(name: string, age: JsValue, gender: string)

  /** `{ name: "", age: "", gender: "male" }`, the initial and the reset form. */
  const BlankForm := Form("", Str(""), "male")

  /** The `name` attribute of the input an event comes from. */
  datatype Input = NameInput | AgeInput | GenderInput

  /** `parseInt(value) || ""`: a non-zero number, or "" for text that is not a number or is zero. */
  function AgeValue(value: string): (r: JsValue)
    ensures r == Str("") || (r.Int? && r.i != 0)
  {
    Or(ParseInt(Str(value), Unspecified), Str(""))
  }

  /** `handleChange`: the named field takes the new value, the age coerced; the others are kept. */
  function Changed(form: Form, input: Input, value: string): Form
  {
    match input
    case NameInput => form.(name := value)
    case AgeInput => form.(age := AgeValue(value))
    case GenderInput => form.(gender := value)
  }

  /** `!formData.name.trim() || !formData.age`. */
  predicate Incomplete(form: Form)
  {
    Trim(form.name) == "" || !Truthy(form.age)
  }

  /** The calls `handleSubmit` makes outside the component. */
  datatype Call = CreateStudent(form: Form) | OnSuccess

  /** A call, and whether `isSubmitting` was set while it was made. */
  datatype Made = Made(call: Call, submitting: bool)

  /** Everything one submission does: its calls, the form and the error it leaves. */
  datatype Submission = Submission(calls: seq<Made>, form: Form, error: Option<string>)

  /**
   * `handleSubmit` on `form`, given how `createStudent` and `onSuccess`
   * end.  A throw from `onSuccess` is caught like a failed request, but the
   * form has already been reset by then.
   */
  function Submit(form: Form, create: Result<JsValue, JsValue>, onSuccess: Result<JsValue, JsValue>): Submission
  {
    if Incomplete(form) then Submission([], form, Some(RequiredMessage))
    else
      var created := [Made(CreateStudent(form), true)];
      if create.Err? then Submission(created, form, Some(FailedMessage))
      else
        var notified := created + [Made(OnSuccess, true)];
        Submission(notified, BlankForm, if onSuccess.Err? then Some(FailedMessage) else None)
  }

  class EnrollModal {
    var formData: Form
    var isSubmitting: bool
    var error: Option<string>
    /** The calls made so far, oldest first. */
    var calls: seq<Made>

    /** `useState({ name: "", age: "", gender: "male" })`, no spinner, no error. */
    constructor()
      ensures formData == BlankForm && !isSubmitting && error == None && calls == []
    {
      formData := BlankForm;
      isSubmitting := false;
      error := None;
      calls := [];
    }

    /** `handleChange` for an event from `input` carrying `value`. */
    method HandleChange(input: Input, value: string)
      modifies this
      ensures formData == Changed(old(formData), input, value)
      ensures isSubmitting == old(isSubmitting) && error == old(error) && calls == old(calls)
    {
      if input == AgeInput {
        var parsed := ParseInt(Str(value), Unspecified);
        formData := formData.(age := if Truthy(parsed) then parsed else Str(""));
      } else if input == NameInput {
        formData := formData.(name := value);
      } else {
        formData := formData.(gender := value);
      }
    }

    /** A call: it is recorded with the spinner's state, then ends as `outcome` says. */
    method Invoke(call: Call, outcome: Result<JsValue, JsValue>) returns (threw: bool)
      modifies this
      ensures calls == old(calls) + [Made(call, isSubmitting)]
      ensures threw == outcome.Err?
      ensures formData == old(formData) && isSubmitting == old(isSubmitting) && error == old(error)
    {
      calls := calls + [Made(call, isSubmitting)];
      threw := outcome.Err?;
    }

    /**
     * `handleSubmit`: the calls, the form and the error are those of
     * `Submit` on the form as it was; a submission that gets past the
     * check ends with the spinner off, a rejected one leaves it as it was.
     */
    method HandleSubmit(create: Result<JsValue, JsValue>, onSuccess: Result<JsValue, JsValue>)
      modifies this
      ensures var s := Submit(old(formData), create, onSuccess);
        calls == old(calls) + s.calls && formData == s.form && error == s.error
      ensures isSubmitting == (Incomplete(old(formData)) && old(isSubmitting))
    {
      error := None;
      if Trim(formData.name) == "" || !Truthy(formData.age) {
        error := Some(RequiredMessage);
        return;
      }
      isSubmitting := true;
      var threw := Invoke(CreateStudent(formData), create);
      if !threw {
        formData := BlankForm;
        threw := Invoke(OnSuccess, onSuccess);
      }
      if threw {
        error := Some(FailedMessage);
      }
      isSubmitting := false;
    }
  }

  // ------------------------------------------------------------- properties

  /** Only the name, the age and the gender are ever stored, and only the named one changes. */
  lemma ChangeTouchesOneField(form: Form, input: Input, value: string)
    ensures var f := Changed(form, input, value);
      && (f.name == if input == NameInput then value else form.name)
      && (f.gender == if input == GenderInput then value else form.gender)
      && (f.age == if input == AgeInput then AgeValue(value) else form.age)
  {
  }

  /** A typed whole number is stored as that number, except zero, which is stored as "". */
  lemma TypedNumberStored(n: int)
    ensures AgeValue(IntToString(n)) == if n == 0 then Str("") else Int(n)
  {
    ParseIntPrintsBack(n, Unspecified);
    assert ToString(Str(IntToString(n))) == ToString(Int(n));
  }

  /** Text that does not start with a digit, a sign or a space (such as "abc") is stored as "". */
  lemma NonNumberStoredBlank(value: string)
    requires value != [] && !JsSpace(value[0]) && !IsDigit(value[0]) && value[0] != '-' && value[0] != '+'
    ensures AgeValue(value) == Str("")
  {
    ParseIntRejectsNonNumeric(value, Unspecified);
  }

  /** `trim()` leaves nothing exactly when every character is white space. */
  lemma {:induction false} TrimEmptyIffBlank(s: string)
    ensures Trim(s) == "" <==> forall i :: 0 <= i < |s| ==> JsSpace(s[i])
  {
    TrimStartEmptyIffBlank(s);
    var t := TrimStart(s, JsSpace);
    if t != [] {
      TrimEndKeepsHead(t);
    }
  }

  lemma {:induction false} TrimStartEmptyIffBlank(s: string)
    ensures TrimStart(s, JsSpace) == "" <==> forall i :: 0 <= i < |s| ==> JsSpace(s[i])
  {
    if s != [] && JsSpace(s[0]) {
      TrimStartEmptyIffBlank(s[1..]);
      assert forall i :: 1 <= i < |s| ==> s[i] == s[1..][i - 1];
    }
  }

  /** Trimming the end of text that starts with a non-space character leaves that character. */
  lemma {:induction false} TrimEndKeepsHead(t: string)
    requires t != [] && !JsSpace(t[0])
    ensures TrimEnd(t, JsSpace) != ""
  {
    if JsSpace(t[|t| - 1]) {
      TrimEndKeepsHead(t[..|t| - 1]);
    }
  }

  /** The blank form is incomplete: submitting it straight away only asks for the fields. */
  lemma BlankFormIncomplete(create: Result<JsValue, JsValue>, onSuccess: Result<JsValue, JsValue>)
    ensures Submit(BlankForm, create, onSuccess) == Submission([], BlankForm, Some(RequiredMessage))
  {
  }

  /** A form is rejected exactly when its name is all white space or its age is falsy. */
  lemma RejectedIffIncomplete(form: Form, create: Result<JsValue, JsValue>, onSuccess: Result<JsValue, JsValue>)
    ensures var s := Submit(form, create, onSuccess);
      && (s.calls == [] <==> (forall i :: 0 <= i < |form.name| ==> JsSpace(form.name[i])) || !Truthy(form.age))
      && (s.calls == [] ==> s.form == form && s.error == Some(RequiredMessage))
      && (forall k :: 0 <= k < |s.calls| ==> s.calls[k].submitting)
  {
    TrimEmptyIffBlank(form.name);
  }

  /** A complete form is sent as it stands; success resets the form and notifies the parent. */
  lemma SuccessResets(form: Form, a: JsValue, b: JsValue)
    requires !Incomplete(form)
    ensures Submit(form, Ok(a), Ok(b))
      == Submission([Made(CreateStudent(form), true), Made(OnSuccess, true)], BlankForm, None)
  {
  }

  /** A failed request keeps what was typed and reports the failure, without notifying the parent. */
  lemma FailureKeepsForm(form: Form, e: JsValue, onSuccess: Result<JsValue, JsValue>)
    requires !Incomplete(form)
    ensures Submit(form, Err(e), onSuccess)
      == Submission([Made(CreateStudent(form), true)], form, Some(FailedMessage))
  {
  }

  /** A form built by typing a name with a letter in it and a non-zero age is accepted. */
  lemma TypedFormAccepted(name: string, n: int, gender: string)
    requires n != 0 && exists i :: 0 <= i < |name| && !JsSpace(name[i])
    ensures !Incomplete(Changed(Changed(Changed(BlankForm, NameInput, name), AgeInput, IntToString(n)), GenderInput, gender))
  {
    TypedNumberStored(n);
    TrimEmptyIffBlank(name);
  }
}
