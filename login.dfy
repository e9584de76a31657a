/** The login screen: form fields, the submit handler with its validation
    guard and its persist-then-navigate success path, the error dialog, and
    the choice of the message the dialog shows. */
module Login {
  import opened JsValues
  import opened Session

  const FillInAllFields := "Please fill in all fields"
  const Fallback := "Something went wrong"

  /** `errors` of a rejected call: per-field messages, each possibly absent. */
  datatype FieldErrors = FieldErrors(password: Option<string>, username: Option<string>)

  /** `data` of a rejected call. */
  datatype ErrorData = ErrorData(message: Option<string>, errors: Option<FieldErrors>)

  /** A value caught by the handler; `data` is absent for errors that do not come from the API. */
  datatype Thrown = Thrown(data: Option<ErrorData>)

  /** How the `login` call settles: with the issued token, or by throwing. */
  datatype LoginOutcome = LoggedIn(token: string) | LoginRejected(error: Thrown)

  /** `apiError.data?.message` */
  function MessageOf(e: Thrown): (r: Option<string>)
    ensures e.data.None? ==> r.None?
    ensures e.data.Some? ==> r == e.data.value.message
  {
    if e.data.Some? then e.data.value.message else None
  }

  /** `apiError.data?.errors?.password` */
  function PasswordErrorOf(e: Thrown): (r: Option<string>)
    ensures e.data.None? || e.data.value.errors.None? ==> r.None?
    ensures e.data.Some? && e.data.value.errors.Some? ==> r == e.data.value.errors.value.password
  {
    if e.data.Some? && e.data.value.errors.Some? then e.data.value.errors.value.password else None
  }

  /** `apiError.data?.errors?.username` */
  function UsernameErrorOf(e: Thrown): (r: Option<string>)
    ensures e.data.None? || e.data.value.errors.None? ==> r.None?
    ensures e.data.Some? && e.data.value.errors.Some? ==> r == e.data.value.errors.value.username
  {
    if e.data.Some? && e.data.value.errors.Some? then e.data.value.errors.value.username else None
  }

  /** `apiError.data?.message || "Something went wrong"`: never empty. */
  function BaseMessage(e: Thrown): (m: string)
    ensures m != ""
    ensures Truthy(MessageOf(e)) ==> m == MessageOf(e).value
    ensures !Truthy(MessageOf(e)) ==> m == Fallback
  {
    if Truthy(MessageOf(e)) then MessageOf(e).value else Fallback
  }

  /** The dialog text for a caught error. The base message always leads; a non-empty
      password error is appended in preference to a non-empty username error. */
  function ErrorMessage(e: Thrown): (m: string)
    ensures BaseMessage(e) <= m
    ensures Truthy(PasswordErrorOf(e)) ==>
      m == BaseMessage(e) + ": " + PasswordErrorOf(e).value
    ensures !Truthy(PasswordErrorOf(e)) && Truthy(UsernameErrorOf(e)) ==>
      m == BaseMessage(e) + ": " + UsernameErrorOf(e).value
    ensures !Truthy(PasswordErrorOf(e)) && !Truthy(UsernameErrorOf(e)) ==>
      m == BaseMessage(e)
  {
    var base := BaseMessage(e);
    if Truthy(PasswordErrorOf(e)) then base + ": " + PasswordErrorOf(e).value
    else if Truthy(UsernameErrorOf(e)) then base + ": " + UsernameErrorOf(e).value
    else base
  }

  /** The field error named in the message is recoverable from it: it is whatever follows
      the base message and the separator, and it is the password error whenever there is one. */
  lemma PasswordErrorWins(e: Thrown)
    requires Truthy(PasswordErrorOf(e)) && Truthy(UsernameErrorOf(e))
    ensures var m := ErrorMessage(e);
      m[|BaseMessage(e)| + 2..] == PasswordErrorOf(e).value &&
      (PasswordErrorOf(e) != UsernameErrorOf(e) ==> m[|BaseMessage(e)| + 2..] != UsernameErrorOf(e).value)
  {
    var m, base := ErrorMessage(e), BaseMessage(e);
    assert m == (base + ": ") + PasswordErrorOf(e).value;
    assert |base + ": "| == |base| + 2;
  }

  /** The error that reaches the `catch` block, if any: the login rejection, or else the
      failure of `setAuthToken` (`stored` is `None` when the token was saved). */
  function CaughtError(outcome: LoginOutcome, stored: Option<Thrown>): (c: Option<Thrown>)
    ensures c.None? <==> outcome.LoggedIn? && stored.None?
    ensures outcome.LoginRejected? ==> c == Some(outcome.error)
    ensures outcome.LoggedIn? ==> c == stored
  {
    match outcome
    case LoginRejected(e) => Some(e)
    case LoggedIn(_) => stored
  }

  /** The submit button: its label and whether it ignores presses. */
  datatype SubmitButton = SubmitButton(title: string, disabled: bool)

  function SubmitButtonOf(loading: bool): (b: SubmitButton)
    ensures b.disabled <==> loading
    ensures b.title == if loading then "Logging in..." else "Login"
  {
    SubmitButton(if loading then "Logging in..." else "Login", loading)
  }

  class LoginScreen {
    var username: string
    var password: string
    var loading: bool
    var visible: bool
    var dialogMessage: string

    constructor ()
      ensures username == "" && password == "" && dialogMessage == ""
      ensures !loading && !visible
    {
      username, password := "", "";
      loading, visible := false, false;
      dialogMessage := "";
    }

    /** The username input's `onChangeText`. */
    method SetUsername(s: string)
      modifies this`username
      ensures username == s
    {
      username := s;
    }

    /** The password input's `onChangeText`. */
    method SetPassword(s: string)
      modifies this`password
      ensures password == s
    {
      password := s;
    }

    /** `handleLogin` up to the `await` of the login call. With a field empty it only opens the
        validation dialog; otherwise it raises `loading` and issues the call (`requested`). */
    method HandleLogin(env: Env) returns (requested: bool)
      modifies this`loading, this`visible, this`dialogMessage, env
      ensures requested <==> TruthyText(username) && TruthyText(password)
      ensures !requested ==>
        dialogMessage == FillInAllFields && visible && loading == old(loading) && unchanged(env)
      ensures requested ==>
        loading && SubmitButtonOf(loading).disabled &&
        visible == old(visible) && dialogMessage == old(dialogMessage) &&
        env.effects == old(env.effects) + [LoginRequest(username, password)] &&
        env.token == old(env.token) && env.routes == old(env.routes) && env.index == old(env.index) &&
        env.resetHappened == old(env.resetHappened)
    {
      if !TruthyText(username) || !TruthyText(password) {
        dialogMessage := FillInAllFields;
        visible := true;
        return false;
      }
      loading := true;
      env.Request(LoginRequest(username, password));
      requested := true;
    }

    /** The rest of `handleLogin`, once the login call has settled with `outcome`. On a token it
        awaits `setAuthToken` (settling with `stored`) and only then resets the root to the main
        tabs; any error that reaches the `catch` opens the dialog with its message instead.
        `loading` is lowered on every path. */
    method OnLoginSettled(env: Env, outcome: LoginOutcome, stored: Option<Thrown>)
      modifies this`loading, this`visible, this`dialogMessage, env
      ensures !loading
      ensures CaughtError(outcome, stored).None? ==>
        env.token == Some(outcome.token) &&
        env.routes == [MainTabs] && env.index == 0 && env.resetHappened &&
        env.effects == old(env.effects) + [TokenSaved(outcome.token), RootReset(MainTabs)] &&
        visible == old(visible) && dialogMessage == old(dialogMessage)
      ensures CaughtError(outcome, stored).Some? ==>
        visible && dialogMessage == ErrorMessage(CaughtError(outcome, stored).value) && unchanged(env)
      ensures old(env.Consistent()) ==> env.Consistent()
    {
      match outcome {
        case LoggedIn(t) =>
          if stored.None? {
            env.SetAuthToken(t);
            env.Reset(MainTabs);
          } else {
            dialogMessage := ErrorMessage(stored.value);
            visible := true;
          }
        case LoginRejected(e) =>
          dialogMessage := ErrorMessage(e);
          visible := true;
      }
      loading := false;
    }

    /** The dialog's `onDismiss` and its OK button: hide the dialog, nothing else. */
    method DismissDialog()
      modifies this`visible
      ensures !visible
    {
      visible := false;
    }

    /** The register link: shows the register screen. */
    method GoToRegister(env: Env)
      requires env.Valid()
      modifies env
      ensures env.Valid() && env.Current() == RegisterRoute
      ensures env.routes == old(env.routes) + [RegisterRoute] && env.index == |old(env.routes)|
      ensures env.token == old(env.token)
      ensures env.resetHappened == old(env.resetHappened)
      ensures env.effects == old(env.effects) + [Navigated(RegisterRoute)]
      ensures old(env.Consistent()) ==> env.Consistent()
    {
      env.Navigate(RegisterRoute);
    }
  }
}
