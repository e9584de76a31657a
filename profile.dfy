/** The profile screen: the mount-time profile load, the three-way choice of what
    to render, logout, and the local-only edit dialog with its save. */
module Profile {
  import opened JsValues
  import opened Session

  const NoUserDataText := "No user data available."

  /** A user record: the two fields the screen shows and edits, and every other field by name. */
  datatype User = User(username: string, email: string, rest: map<string, string>)

  /** How `fetchUserProfile()` settles: with a profile, or by throwing. */
  datatype FetchOutcome = Fetched(profile: User) | FetchFailed

  /** What the screen renders. */
  datatype ProfileView = Spinner | Notice(text: string) | Details(shown: User)

  /** The render selection: the spinner while loading, then a notice when there is no user,
      and otherwise the user's details. */
  function RenderView(loading: bool, user: Option<User>): (v: ProfileView)
    ensures v.Spinner? <==> loading
    ensures v.Notice? <==> !loading && user.None?
    ensures v.Notice? ==> v.text == NoUserDataText
    ensures v.Details? <==> !loading && user.Some?
    ensures v.Details? ==> v.shown == user.value
  {
    if loading then Spinner
    else if user.None? then Notice(NoUserDataText)
    else Details(user.value)
  }

  /** `{...user, username, email}` when there is a user: only the two edited fields change. */
  function SavedUser(user: Option<User>, username: string, email: string): (r: Option<User>)
    ensures r.Some? <==> user.Some?
    ensures r.Some? ==>
      r.value.username == username && r.value.email == email && r.value.rest == user.value.rest
  {
    match user
    case None => None
    case Some(u) => Some(u.(username := username, email := email))
  }

  /** Saving the same edits twice has the effect of saving them once. */
  lemma SaveIdempotent(user: Option<User>, username: string, email: string)
    ensures SavedUser(SavedUser(user, username, email), username, email) == SavedUser(user, username, email)
  {
  }

  /** Saving the values the fields were loaded with leaves the user as it was. */
  lemma SaveUneditedIsIdentity(u: User)
    ensures SavedUser(Some(u), u.username, u.email) == Some(u)
  {
  }

  class ProfileScreen {
    var user: Option<User>
    var loading: bool
    var dropdownVisible: bool
    var editModalVisible: bool
    /** The edit dialog's fields. */
    var username: string
    var email: string

    constructor ()
      ensures user == None && loading && !dropdownVisible && !editModalVisible
      ensures username == "" && email == ""
    {
      user := None;
      loading := true;
      dropdownVisible, editModalVisible := false, false;
      username, email := "", "";
    }

    /** `loadUserProfile`, run once on mount. It reads the token; only with a non-empty token does
        it fetch the profile (settling with `fetch`), and a fetched profile becomes the user and
        fills the edit fields. A failed fetch is swallowed. Every path lowers `loading`. */
    method LoadUserProfile(env: Env, fetch: FetchOutcome)
      modifies this`user, this`loading, this`username, this`email, env`effects
      ensures !loading
      ensures Truthy(env.token) ==> env.effects == old(env.effects) + [TokenRead, ProfileRequest]
      ensures !Truthy(env.token) ==> env.effects == old(env.effects) + [TokenRead]
      ensures Truthy(env.token) && fetch.Fetched? ==>
        user == Some(fetch.profile) && username == fetch.profile.username && email == fetch.profile.email
      ensures !(Truthy(env.token) && fetch.Fetched?) ==>
        user == old(user) && username == old(username) && email == old(email)
    {
      var token := env.GetAuthToken();
      if Truthy(token) {
        env.Request(ProfileRequest);
        match fetch {
          case Fetched(profile) =>
            user := Some(profile);
            username := profile.username;
            email := profile.email;
          case FetchFailed =>
        }
      }
      loading := false;
    }

    /** What the screen renders in its current state. */
    function View(): (v: ProfileView)
      reads this
      ensures v.Spinner? <==> loading
      ensures v.Notice? <==> !loading && user.None?
      ensures v.Notice? ==> v.text == NoUserDataText
      ensures v.Details? ==> user == Some(v.shown)
    {
      RenderView(loading, user)
    }

    /** `handleLogout`: awaits the removal of the token (`removed`: it completed normally), and
        only then resets the root to the login screen. A rejected removal is not caught: the
        handler stops there, the store is taken to be as it was, and no reset happens. */
    method HandleLogout(env: Env, removed: bool)
      modifies env
      ensures removed ==>
        env.token == None &&
        env.Valid() && env.routes == [LoginRoute] && env.index == 0 && env.resetHappened &&
        env.effects == old(env.effects) + [TokenRemoved, RootReset(LoginRoute)] &&
        env.Consistent()
      ensures !removed ==> unchanged(env)
      ensures old(env.Consistent()) ==> env.Consistent()
    {
      if removed {
        env.RemoveAuthToken();
        env.Reset(LoginRoute);
      }
    }

    /** The settings button: flips the dropdown. */
    method ToggleDropdown()
      modifies this`dropdownVisible
      ensures dropdownVisible == !old(dropdownVisible)
    {
      dropdownVisible := !dropdownVisible;
    }

    /** `handleEditProfile`: opens the edit dialog. */
    method HandleEditProfile()
      modifies this`editModalVisible
      ensures editModalVisible
    {
      editModalVisible := true;
    }

    /** The edit dialog's inputs' `onChangeText`. */
    method SetUsername(s: string)
      modifies this`username
      ensures username == s
    {
      username := s;
    }

    method SetEmail(s: string)
      modifies this`email
      ensures email == s
    {
      email := s;
    }

    /** `handleSaveProfile`: copies the edit fields into the user, if there is one, and closes the
        dialog. Nothing is sent to the server. */
    method HandleSaveProfile()
      modifies this`user, this`editModalVisible
      ensures user == SavedUser(old(user), username, email)
      ensures !editModalVisible
    {
      if user.Some? {
        user := Some(user.value.(username := username, email := email));
      }
      editModalVisible := false;
    }

    /** The dialog's Close button and its `onRequestClose`: hides the dialog and keeps the user. */
    method CloseEditModal()
      modifies this`editModalVisible
      ensures !editModalVisible
    {
      editModalVisible := false;
    }
  }
}
