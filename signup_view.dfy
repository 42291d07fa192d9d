/**
 * The coach sign-up form (src/components/SignupView.jsx).  `handleSubmit`
 * clears the error, checks the two passwords, and only then shows the
 * spinner and makes its awaited calls: the Firebase `register`, the backend
 * `registerCoach`, and the navigation home.  A failure is classified by the
 * error's `code`.
 *
 * The awaited calls are not part of this model: each is given by how it
 * settles, `Ok(value)` or `Err(thrown)`, and the screen records the calls it
 * makes, in order, with whether the spinner was showing at the time.
 */
module SignupView {
  import opened Outcomes
  import opened Js

  const MismatchMessage := "Passwords do not match"
  const TooShortMessage := "Password must be at least 6 characters"
  const EmailInUseCode := "auth/email-already-in-use"
  const EmailInUseMessage := "Email is already in use"
  const FailedMessage := "Failed to create account. Please try again."

  /** The length `password.length` is compared with. */
  const MinPasswordLength := 6

  /** The calls `handleSubmit` makes outside the component. */
  datatype Call =
    | Register(email: string, password: string, name: string)   // `register(email, password, name)`
    | RegisterCoach(payload: JsValue)                            // `registerCoach({ name })`
    | Navigate(path: string)                                     // `navigate("/")`
    | Logout                                                     // `logout()`

  /** A call, and whether `isLoading` was set while it was made. */
  datatype Made = Made(call: Call, loading: bool)

  /** The message the two password checks give, mismatch first; `None` lets the submission through. */
  function Validation(password: string, confirmPassword: string): (r: Option<string>)
    ensures r == None <==> password == confirmPassword && |password| >= MinPasswordLength
  {
    if password != confirmPassword then Some(MismatchMessage)
    else if |password| < MinPasswordLength then Some(TooShortMessage)
    else None
  }

  /** Everything one submission does: its calls, the error it leaves, and what its promise rejects with. */
  datatype Submission = Submission(calls: seq<Made>, error: Option<string>, rejection: Option<JsValue>)

  /**
   * The `catch` block for the error `err` after the calls `made`: the
   * email-in-use message, or (after `logout()` when the error has no code)
   * the generic failure.  Reading `err.code` of a null or undefined value
   * throws out of the block, as does a rejected `logout()`.
   */
  function Caught(err: JsValue, made: seq<Made>, logout: Result<JsValue, JsValue>): Submission
  {
    if Nullish(err) then Submission(made, None, Some(ReadError(err, "code")))
    else if Prop(err, "code") == Str(EmailInUseCode) then Submission(made, Some(EmailInUseMessage), None)
    else if !Truthy(Prop(err, "code")) then
      var withLogout := made + [Made(Logout, true)];
      match logout
      case Err(e) => Submission(withLogout, None, Some(e))
      case Ok(_) => Submission(withLogout, Some(FailedMessage), None)
    else Submission(made, Some(FailedMessage), None)
  }

  /** The `try` block and its `catch`, for a form that passed the checks. */
  function Attempt(name: string, email: string, password: string,
                   register: Result<JsValue, JsValue>, registerCoach: Result<JsValue, JsValue>,
                   logout: Result<JsValue, JsValue>): Submission
  {
    var registered := [Made(Register(email, password, name), true)];
    match register
    case Err(e) => Caught(e, registered, logout)
    case Ok(_) =>
      var coached := registered + [Made(RegisterCoach(Obj([("name", Str(name))])), true)];
      match registerCoach
      case Err(e) => Caught(e, coached, logout)
      case Ok(_) => Submission(coached + [Made(Navigate("/"), true)], None, None)
  }

  /** `handleSubmit` for the typed fields, given how each awaited call settles. */
  function Submit(name: string, email: string, password: string, confirmPassword: string,
                  register: Result<JsValue, JsValue>, registerCoach: Result<JsValue, JsValue>,
                  logout: Result<JsValue, JsValue>): Submission
  {
    match Validation(password, confirmPassword)
    case Some(message) => Submission([], Some(message), None)
    case None => Attempt(name, email, password, register, registerCoach, logout)
  }

  /** Which input an `onChange` handler writes. */
  datatype Input = NameInput | EmailInput | PasswordInput | ConfirmInput

  class SignupScreen {
    var name: string
    var email: string
    var password: string
    var confirmPassword: string
    var isLoading: bool
    var error: Option<string>
    /** The calls made so far, oldest first. */
    var calls: seq<Made>

    /** The initial state: every field empty, no spinner, no error. */
    constructor()
      ensures name == "" && email == "" && password == "" && confirmPassword == ""
      ensures !isLoading && error == None && calls == []
    {
      name, email, password, confirmPassword := "", "", "", "";
      isLoading := false;
      error := None;
      calls := [];
    }

    /** An input's `onChange`: `setName(e.target.value)` and its siblings. */
    method Type(input: Input, value: string)
      modifies this
      ensures name == (if input == NameInput then value else old(name))
      ensures email == (if input == EmailInput then value else old(email))
      ensures password == (if input == PasswordInput then value else old(password))
      ensures confirmPassword == (if input == ConfirmInput then value else old(confirmPassword))
      ensures isLoading == old(isLoading) && error == old(error) && calls == old(calls)
    {
      match input
      case NameInput => name := value;
      case EmailInput => email := value;
      case PasswordInput => password := value;
      case ConfirmInput => confirmPassword := value;
    }

    /** An awaited call: it is recorded with the spinner's state, then settles as `outcome` says. */
    method Await(call: Call, outcome: Result<JsValue, JsValue>) returns (thrown: Option<JsValue>)
      modifies this
      ensures calls == old(calls) + [Made(call, isLoading)]
      ensures thrown == (if outcome.Err? then Some(outcome.error) else None)
      ensures name == old(name) && email == old(email) && password == old(password)
      ensures confirmPassword == old(confirmPassword) && isLoading == old(isLoading) && error == old(error)
    {
      calls := calls + [Made(call, isLoading)];
      thrown := if outcome.Err? then Some(outcome.error) else None;
    }

    /** The `catch` block: classify `err` by its code, logging out first when it has none. */
    method Recover(err: JsValue, logout: Result<JsValue, JsValue>) returns (rejection: Option<JsValue>)
      requires isLoading
      modifies this
      ensures var s := Caught(err, old(calls), logout);
        calls == s.calls && rejection == s.rejection && error == (if s.error.Some? then s.error else old(error))
      ensures name == old(name) && email == old(email) && password == old(password)
      ensures confirmPassword == old(confirmPassword) && isLoading == old(isLoading)
    {
      rejection := None;
      if Nullish(err) {
        rejection := Some(ReadError(err, "code"));
      } else if Prop(err, "code") == Str(EmailInUseCode) {
        error := Some(EmailInUseMessage);
      } else {
        var failed := true;
        if !Truthy(Prop(err, "code")) {
          var thrown := Await(Logout, logout);
          if thrown.Some? {
            rejection := thrown;
            failed := false;
          }
        }
        if failed {
          error := Some(FailedMessage);
        }
      }
    }

    /** The `try`/`catch` part of `handleSubmit`, run with the spinner showing. */
    method TryRegister(register: Result<JsValue, JsValue>, registerCoach: Result<JsValue, JsValue>,
                       logout: Result<JsValue, JsValue>) returns (rejection: Option<JsValue>)
      requires isLoading
      modifies this
      ensures var s := Attempt(name, email, password, register, registerCoach, logout);
        calls == old(calls) + s.calls && rejection == s.rejection
        && error == (if s.error.Some? then s.error else old(error))
      ensures name == old(name) && email == old(email) && password == old(password)
      ensures confirmPassword == old(confirmPassword) && isLoading
    {
      ghost var before := calls;
      rejection := None;
      ghost var registered := [Made(Register(email, password, name), true)];
      var thrown := Await(Register(email, password, name), register);
      if thrown.Some? {
        CaughtAfter(thrown.value, before, registered, logout);
        rejection := Recover(thrown.value, logout);
        return;
      }
      ghost var coached := registered + [Made(RegisterCoach(Obj([("name", Str(name))])), true)];
      thrown := Await(RegisterCoach(Obj([("name", Str(name))])), registerCoach);
      assert calls == before + coached;
      if thrown.Some? {
        CaughtAfter(thrown.value, before, coached, logout);
        rejection := Recover(thrown.value, logout);
        return;
      }
      thrown := Await(Navigate("/"), Ok(Undefined));
      assert calls == before + (coached + [Made(Navigate("/"), true)]);
    }

    /**
     * `handleSubmit`: the fields are unchanged, the calls and the error are
     * those of `Submit`, the promise rejects as `Submit` says, and a
     * submission that gets past the checks ends with the spinner off (a
     * rejected one returns before touching it).
     */
    method HandleSubmit(register: Result<JsValue, JsValue>, registerCoach: Result<JsValue, JsValue>,
                        logout: Result<JsValue, JsValue>) returns (rejection: Option<JsValue>)
      modifies this
      ensures var s := Submit(name, email, password, confirmPassword, register, registerCoach, logout);
        calls == old(calls) + s.calls && error == s.error && rejection == s.rejection
      ensures name == old(name) && email == old(email) && password == old(password)
      ensures confirmPassword == old(confirmPassword)
      ensures isLoading == (Validation(password, confirmPassword).Some? && old(isLoading))
    {
      error := None;
      var invalid := Validation(password, confirmPassword);
      if invalid.Some? {
        error := invalid;
        rejection := None;
        return;
      }
      isLoading := true;
      rejection := TryRegister(register, registerCoach, logout);
      isLoading := false;
    }
  }

  /** The `catch` block only appends to the calls made before it. */
  lemma CaughtAfter(err: JsValue, earlier: seq<Made>, made: seq<Made>, logout: Result<JsValue, JsValue>)
    ensures var s := Caught(err, made, logout);
      Caught(err, earlier + made, logout) == Submission(earlier + s.calls, s.error, s.rejection)
  {
    assert earlier + made + [Made(Logout, true)] == earlier + (made + [Made(Logout, true)]);
  }

  // ------------------------------------------------------------- properties

  /** Mismatched passwords are reported before their length is looked at, and nothing is called. */
  lemma MismatchReportedFirst(name: string, email: string, password: string, confirmPassword: string,
                              register: Result<JsValue, JsValue>, registerCoach: Result<JsValue, JsValue>,
                              logout: Result<JsValue, JsValue>)
    requires password != confirmPassword
    ensures Submit(name, email, password, confirmPassword, register, registerCoach, logout)
      == Submission([], Some(MismatchMessage), None)
  {
  }

  /** Matching passwords shorter than six characters are reported, and nothing is called. */
  lemma ShortPasswordReported(name: string, email: string, password: string,
                              register: Result<JsValue, JsValue>, registerCoach: Result<JsValue, JsValue>,
                              logout: Result<JsValue, JsValue>)
    requires |password| < MinPasswordLength
    ensures Submit(name, email, password, password, register, registerCoach, logout)
      == Submission([], Some(TooShortMessage), None)
  {
  }

  /** No call is made exactly when the form is rejected, and every call is made with the spinner showing. */
  lemma CallsOnlyAfterValidation(name: string, email: string, password: string, confirmPassword: string,
                                 register: Result<JsValue, JsValue>, registerCoach: Result<JsValue, JsValue>,
                                 logout: Result<JsValue, JsValue>)
    ensures var s := Submit(name, email, password, confirmPassword, register, registerCoach, logout);
      && (s.calls == [] <==> Validation(password, confirmPassword).Some?)
      && (forall k :: 0 <= k < |s.calls| ==> s.calls[k].loading)
      && (s.calls != [] ==> s.calls[0].call == Register(email, password, name))
  {
  }

  /** A valid form whose calls succeed registers, registers the coach, then goes home, with no error. */
  lemma SuccessfulSignup(name: string, email: string, password: string, a: JsValue, b: JsValue,
                         logout: Result<JsValue, JsValue>)
    requires |password| >= MinPasswordLength
    ensures Submit(name, email, password, password, Ok(a), Ok(b), logout) == Submission([
      Made(Register(email, password, name), true),
      Made(RegisterCoach(Obj([("name", Str(name))])), true),
      Made(Navigate("/"), true)], None, None)
  {
  }

  /** An address already in use stops the sign-up after `register`, without a logout. */
  lemma EmailInUseReported(name: string, email: string, password: string, err: JsValue,
                           registerCoach: Result<JsValue, JsValue>, logout: Result<JsValue, JsValue>)
    requires |password| >= MinPasswordLength
    requires !Nullish(err) && Prop(err, "code") == Str(EmailInUseCode)
    ensures Submit(name, email, password, password, Err(err), registerCoach, logout)
      == Submission([Made(Register(email, password, name), true)], Some(EmailInUseMessage), None)
  {
  }

  /**
   * A code-less failure of the backend registration (the Firebase account
   * exists by then) logs the new user out before the generic message.
   */
  lemma BackendFailureLogsOut(name: string, email: string, password: string, a: JsValue, err: JsValue, l: JsValue)
    requires |password| >= MinPasswordLength
    requires !Nullish(err) && !Truthy(Prop(err, "code"))
    ensures var s := Submit(name, email, password, password, Ok(a), Err(err), Ok(l));
      && |s.calls| == 3
      && s.calls[1].call == RegisterCoach(Obj([("name", Str(name))]))
      && s.calls[2].call == Logout
      && s.error == Some(FailedMessage) && s.rejection == None
  {
  }

  /** Any other coded failure gives the generic message and does not log out. */
  lemma CodedFailureKeepsSession(err: JsValue, made: seq<Made>, logout: Result<JsValue, JsValue>)
    requires !Nullish(err) && Truthy(Prop(err, "code")) && Prop(err, "code") != Str(EmailInUseCode)
    ensures Caught(err, made, logout) == Submission(made, Some(FailedMessage), None)
  {
  }

  /** `logout()` is called exactly for an error object without a truthy code. */
  lemma LogoutOnlyWithoutCode(err: JsValue, made: seq<Made>, logout: Result<JsValue, JsValue>)
    ensures var s := Caught(err, made, logout);
      && (|s.calls| > |made| <==> !Nullish(err) && !Truthy(Prop(err, "code")))
      && s.calls[..|made|] == made
  {
  }

  /** A failed submission always leaves a message unless its promise rejects. */
  lemma FailureIsReported(name: string, email: string, password: string, confirmPassword: string,
                          register: Result<JsValue, JsValue>, registerCoach: Result<JsValue, JsValue>,
                          logout: Result<JsValue, JsValue>)
    requires Validation(password, confirmPassword).Some? || register.Err? || registerCoach.Err?
    ensures var s := Submit(name, email, password, confirmPassword, register, registerCoach, logout);
      s.error.Some? || s.rejection.Some?
  {
  }
}
