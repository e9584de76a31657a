/** The register screen: the submit handler (no field validation), the two fixed
    outcome messages, and the dialog whose title and dismissal depend on whether
    the message mentions "successful". */
module Register {
  import opened JsValues
  import opened Session

  const SuccessMessage := "Registration successful!"
  const FailureMessage := "Registration failed. Please try again."
  const Keyword := "successful"

  /** The success text mentions the keyword (at index 13). */
  lemma SuccessMessageHasKeyword()
    ensures Contains(SuccessMessage, Keyword)
  {
    assert SuccessMessage[13..23] == Keyword;
    assert OccursAt(SuccessMessage, Keyword, 13);
  }

  /** The failure text does not: it has no 'u', and every occurrence of the keyword would put one
      right after its first character. */
  lemma FailureMessageLacksKeyword()
    ensures !Contains(FailureMessage, Keyword)
  {
    var f := FailureMessage;
    assert forall k :: 0 <= k < |f| ==> f[k] != 'u';
    forall i | 0 <= i && i + |Keyword| <= |f|
      ensures !OccursAt(f, Keyword, i)
    {
      assert f[i..i + |Keyword|][1] == f[i + 1] != 'u';
    }
  }

  /** The dialog text for a settled `register` call (`ok`: it completed normally). */
  function RegisterMessage(ok: bool): (m: string)
    ensures ok ==> m == SuccessMessage
    ensures !ok ==> m == FailureMessage
  {
    if ok then SuccessMessage else FailureMessage
  }

  /** The message mentions "successful" exactly when the call succeeded: this is what the
      title and the dismissal test rely on. */
  lemma KeywordMarksSuccess(ok: bool)
    ensures Contains(RegisterMessage(ok), Keyword) <==> ok
  {
    if ok { SuccessMessageHasKeyword(); } else { FailureMessageLacksKeyword(); }
  }

  /** The dialog title. */
  function DialogTitle(message: string): (t: string)
    ensures t == "Success" <==> Contains(message, Keyword)
    ensures t == "Success" || t == "Error"
  {
    if Contains(message, Keyword) then "Success" else "Error"
  }

  /** The title after a settled call names its outcome. */
  lemma TitleNamesOutcome(ok: bool)
    ensures DialogTitle(RegisterMessage(ok)) == if ok then "Success" else "Error"
  {
    KeywordMarksSuccess(ok);
  }

  /** The register button: its label and whether it ignores presses. */
  datatype RegisterButton = RegisterButton(title: string, disabled: bool)

  function RegisterButtonOf(loading: bool): (b: RegisterButton)
    ensures b.disabled <==> loading
    ensures b.title == if loading then "Processing..." else "Register"
  {
    RegisterButton(if loading then "Processing..." else "Register", loading)
  }

  class RegisterScreen {
    var username: string
    var password: string
    var email: string
    var loading: bool
    var visible: bool
    var dialogMessage: string

    constructor ()
      ensures username == "" && password == "" && email == "" && dialogMessage == ""
      ensures !loading && !visible
    {
      username, password, email := "", "", "";
      loading, visible := false, false;
      dialogMessage := "";
    }

    /** The inputs' `onChangeText`. */
    method SetUsername(s: string)
      modifies this`username
      ensures username == s
    {
      username := s;
    }

    method SetPassword(s: string)
      modifies this`password
      ensures password == s
    {
      password := s;
    }

    method SetEmail(s: string)
      modifies this`email
      ensures email == s
    {
      email := s;
    }

    /** `handleRegister` up to the `await`: raises `loading` and issues the call with whatever
        the fields hold, empty or not. */
    method HandleRegister(env: Env)
      modifies this`loading, env`effects
      ensures loading && RegisterButtonOf(loading).disabled
      ensures env.effects == old(env.effects) + [RegisterRequest(username, password, email)]
    {
      loading := true;
      env.Request(RegisterRequest(username, password, email));
    }

    /** The rest of `handleRegister` once the call settled (`ok`: it completed normally):
        the dialog opens with the matching message, and `loading` is lowered. */
    method OnRegisterSettled(ok: bool)
      modifies this`loading, this`visible, this`dialogMessage
      ensures dialogMessage == RegisterMessage(ok) && visible && !loading
    {
      dialogMessage := if ok then SuccessMessage else FailureMessage;
      visible := true;
      loading := false;
    }

    /** `handleDialogDismiss`: hides the dialog, and shows the login screen when the message
        mentions "successful". */
    method HandleDialogDismiss(env: Env) returns (navigated: bool)
      requires env.Valid()
      modifies this`visible, env
      ensures !visible
      ensures navigated <==> Contains(dialogMessage, Keyword)
      ensures navigated ==>
        env.Valid() && env.Current() == LoginRoute &&
        env.routes == old(env.routes) + [LoginRoute] && env.index == |old(env.routes)| &&
        env.token == old(env.token) &&
        env.resetHappened == old(env.resetHappened) &&
        env.effects == old(env.effects) + [Navigated(LoginRoute)]
      ensures !navigated ==> unchanged(env)
      ensures old(env.Consistent()) ==> env.Consistent()
    {
      visible := false;
      navigated := Contains(dialogMessage, Keyword);
      if navigated {
        env.Navigate(LoginRoute);
      }
    }
  }
}
