/** Whole interactions, driven only through the screens' handlers on fresh state;
    each result follows from the handlers' contracts alone. */
module Scenarios {
  import opened JsValues
  import opened Session
  import Login
  import Register
  import Profile

  /** Submitting with the password empty opens the validation dialog and issues no request:
      nothing at all happens to the store, the navigator or the effect trace. */
  method LoginValidation(username: string)
    returns (requested: bool, message: string, visible: bool, effects: seq<Effect>, current: string)
    ensures !requested && message == "Please fill in all fields" && visible
    ensures effects == [] && current == LoginRoute
  {
    var env := new Env(None, LoginRoute);
    var screen := new Login.LoginScreen();
    screen.SetUsername(username);
    requested := screen.HandleLogin(env);
    message, visible, effects, current := screen.dialogMessage, screen.visible, env.effects, env.Current();
  }

  /** "alice" submits an empty password, then a wrong one, then the right one, and finally
      logs out from the profile screen. */
  method LoginThenLogout()
    returns (validation: string, rejection: string, tokenAfterLogin: Option<string>,
             rootAfterLogin: string, tokenAfterLogout: Option<string>, rootAfterLogout: string)
    ensures validation == "Please fill in all fields"
    ensures rejection == "Invalid credentials: incorrect"
    ensures tokenAfterLogin == Some("abc123") && rootAfterLogin == MainTabs
    ensures tokenAfterLogout == None && rootAfterLogout == LoginRoute
  {
    var wrong := Login.Thrown(Some(Login.ErrorData(Some("Invalid credentials"),
                                                   Some(Login.FieldErrors(Some("incorrect"), None)))));
    assert Login.ErrorMessage(wrong) == "Invalid credentials: incorrect";
    var env := new Env(None, LoginRoute);
    var screen := new Login.LoginScreen();
    screen.SetUsername("alice");
    screen.SetPassword("");
    var requested := screen.HandleLogin(env);
    assert !requested && env.effects == [];
    validation := screen.dialogMessage;
    screen.DismissDialog();

    screen.SetPassword("wrongpw");
    requested := screen.HandleLogin(env);
    assert requested;
    screen.OnLoginSettled(env, Login.LoginRejected(wrong), None);
    rejection := screen.dialogMessage;
    screen.DismissDialog();

    screen.SetPassword("rightpw");
    requested := screen.HandleLogin(env);
    assert requested;
    screen.OnLoginSettled(env, Login.LoggedIn("abc123"), None);
    tokenAfterLogin, rootAfterLogin := env.token, env.Current();

    var profile := new Profile.ProfileScreen();
    profile.HandleLogout(env, true);
    tokenAfterLogout, rootAfterLogout := env.token, env.Current();
  }

  /** Logging out twice in a row, the second time with the store already empty, ends in the same
      state as logging out once. */
  method LogoutTwice(stored: Option<string>, initial: string)
    returns (token: Option<string>, routes: seq<string>, effects: seq<Effect>)
    ensures token == None && routes == [LoginRoute]
    ensures effects == [TokenRemoved, RootReset(LoginRoute), TokenRemoved, RootReset(LoginRoute)]
  {
    var env := new Env(stored, initial);
    var profile := new Profile.ProfileScreen();
    profile.HandleLogout(env, true);
    profile.HandleLogout(env, true);
    token, routes, effects := env.token, env.routes, env.effects;
  }

  /** A logout whose token removal rejects leaves the session as it was: the main tabs stay
      on screen with the token still stored. */
  method LogoutRemovalFails(token: string)
    returns (stored: Option<string>, current: string, effects: seq<Effect>)
    ensures stored == Some(token) && current == MainTabs && effects == []
  {
    var env := new Env(Some(token), MainTabs);
    var profile := new Profile.ProfileScreen();
    profile.HandleLogout(env, false);
    stored, current, effects := env.token, env.Current(), env.effects;
  }

  /** A registration that settles with `ok`, then the dialog is dismissed: the register call is
      issued even with every field empty, and the login screen is shown exactly when `ok`. */
  method RegisterThenDismiss(ok: bool)
    returns (title: string, navigated: bool, current: string, effects: seq<Effect>)
    ensures title == if ok then "Success" else "Error"
    ensures navigated == ok
    ensures current == if ok then LoginRoute else RegisterRoute
    ensures effects == [Navigated(RegisterRoute), RegisterRequest("", "", "")] +
                       (if ok then [Navigated(LoginRoute)] else [])
  {
    var env := new Env(None, LoginRoute);
    var login := new Login.LoginScreen();
    login.GoToRegister(env);
    var screen := new Register.RegisterScreen();
    screen.HandleRegister(env);
    screen.OnRegisterSettled(ok);
    Register.TitleNamesOutcome(ok);
    Register.KeywordMarksSuccess(ok);
    title := Register.DialogTitle(screen.dialogMessage);
    navigated := screen.HandleDialogDismiss(env);
    current, effects := env.Current(), env.effects;
  }

  /** The profile screen mounts with a token and fetches `u`; the user opens the settings,
      edits the username and saves. Only the username changes. Without a token the screen
      shows the notice, which offers none of those controls. */
  method EditProfile(u: Profile.User, newName: string, token: string)
    returns (before: Profile.ProfileView, after: Profile.ProfileView)
    ensures token != "" ==> before == Profile.Details(u)
    ensures token != "" ==> after == Profile.Details(u.(username := newName))
    ensures token == "" ==> before == after == Profile.Notice(Profile.NoUserDataText)
  {
    var env := new Env(Some(token), MainTabs);
    var screen := new Profile.ProfileScreen();
    screen.LoadUserProfile(env, Profile.Fetched(u));
    before := screen.View();
    if before.Details? {
      screen.ToggleDropdown();
      screen.HandleEditProfile();
      screen.SetUsername(newName);
      screen.HandleSaveProfile();
      screen.ToggleDropdown();
    }
    after := screen.View();
  }
}
