# Session and navigation logic of a React Native book-catalog app

This project models the decision logic of the app's authentication screens and its tab bar:

- the login screen's submit handler: an empty-field guard, then persist-then-navigate on success, and the error message it derives on failure;
- the register screen's handler, and its dialog, whose title and dismissal depend on the message;
- the profile screen's mount-time load, logout, local-only edit and render selection;
- the tab navigator's route-to-icon lookup and its declared tabs.

The screens act on a shared environment, `Session.Env`. It holds:

- the token store;
- the root navigator (route list, focused index, whether a reset happened);
- a trace of every externally visible effect in order: remote requests, token reads, writes and removals, resets and navigations.

Remote and storage calls lie outside the model. The login and register submit handlers are split at the `await` of their remote call:

- the first method runs up to the call and records the request in the trace;
- the continuation method takes the call's outcome as a parameter (`LoginOutcome` with, for `setAuthToken`, an optional thrown value; a `register` success flag).

The state between the two halves is the state the user sees while the request is in flight. For example, `loading` is then true and the submit button is disabled.

The profile screen's two asynchronous handlers are single methods that take their outcome up front: `LoadUserProfile` takes a `FetchOutcome`, and `HandleLogout` takes a flag saying whether `removeAuthToken` completed. Their in-flight state is the state before the call. `loading` is already true from mount, and logout has no in-flight flag, so there is nothing to observe between the halves.

JavaScript truthiness is explicit:

- `TruthyText` treats only `""` as a falsy string;
- `Truthy` treats an absent value and `""` as falsy;
- `Contains` is `String.prototype.includes`.

`Session.Env.Consistent` states the intended agreement between root and token store: after any reset, the root is the main tabs only when a token is stored, and the login screen only when none is. Every handler that touches navigation preserves it.

Behaviours of the code worth noting:

- a successful registration stores no token and only navigates to the login screen;
- a field error does not replace the top-level message but is appended to it (`message: fieldError`);
- a failed profile fetch is swallowed (only logged), leaving "No user data available." on screen;
- the profile screen treats an empty stored token like a missing one, so it fetches nothing;
- a login that returns the empty token `""` still stores it and resets the root to the main tabs, which agrees with `Consistent` (a token is stored). The profile screen then treats that token as missing and shows "No user data available."

## Model

| member | source | states |
|---|---|---|
| `Session.Env.GetAuthToken` | src/screens/ProfileScreen.tsx:31 | returns the stored token exactly and records one token read |
| `Session.Env.SetAuthToken` | src/screens/LoginScreen.tsx:34 | afterwards the store holds exactly the given token; one write is recorded |
| `Session.Env.RemoveAuthToken` | src/screens/ProfileScreen.tsx:49 | afterwards no token is stored, whatever was there before; one removal is recorded |
| `Session.Env.Request` | src/screens/LoginScreen.tsx:33 | the stand-in for `login`, `register` (src/screens/RegisterScreen.tsx:21) and `fetchUserProfile` (src/screens/ProfileScreen.tsx:34): only remote calls are accepted, and exactly that request is appended to the trace |
| `Session.Env.Reset` | src/screens/LoginScreen.tsx:35-38 | the route list becomes exactly the one given route at index 0, history is discarded, and a reset is recorded |
| `Session.Env.Navigate` | src/screens/RegisterScreen.tsx:37 | the target becomes the focused screen on top of the unchanged history (the root is kept) |
| `JsValues.TruthyText` | src/screens/LoginScreen.tsx:25 | a string is truthy exactly when it is non-empty |
| `JsValues.Truthy` | src/screens/ProfileScreen.tsx:32 | a value is truthy if and only if it is present and non-empty, so an absent value and the empty string are falsy |
| `JsValues.Contains` | src/screens/RegisterScreen.tsx:36 | `includes`: an occurrence at the start suffices, and nothing longer than the string is included in it |
| `Session.Env.Consistent` | src/screens/LoginScreen.tsx:34-38 | implies a valid focused index; after a reset, a MainTabs root implies a stored token and a Login root implies none |
| `Login.MessageOf` | src/screens/LoginScreen.tsx:41 | `data?.message`: absent when the error has no `data`, and otherwise the top-level message as given |
| `Login.PasswordErrorOf` | src/screens/LoginScreen.tsx:42-43 | `data?.errors?.password`: absent when `data` or `errors` is missing, and otherwise the password error as given |
| `Login.UsernameErrorOf` | src/screens/LoginScreen.tsx:42-44 | `data?.errors?.username`: absent when `data` or `errors` is missing, and otherwise the username error as given |
| `Login.BaseMessage` | src/screens/LoginScreen.tsx:41 | the API's top-level message when present and non-empty, otherwise "Something went wrong"; never empty |
| `Login.ErrorMessage` | src/screens/LoginScreen.tsx:40-51 | the dialog text starts with the base message; a non-empty password error is appended after ": ", else a non-empty username error, else nothing |
| `Login.PasswordErrorWins` | src/screens/LoginScreen.tsx:45-51 | with both field errors present, the text after the base message and separator is the password error and not a distinct username error |
| `Login.CaughtError` | src/screens/LoginScreen.tsx:32-40 | no error reaches the catch block exactly when the login returned a token and saving it succeeded; otherwise the login rejection or the storage failure does |
| `Login.SubmitButtonOf` | src/screens/LoginScreen.tsx:80-85 | the button is disabled exactly while loading and reads "Logging in..." then, "Login" otherwise |
| `Login.LoginScreen.constructor` | src/screens/LoginScreen.tsx:18-22 | empty fields and message, not loading, dialog hidden |
| `Login.LoginScreen.SetUsername` | src/screens/LoginScreen.tsx:65-71 | the username field takes the typed text; nothing else changes |
| `Login.LoginScreen.SetPassword` | src/screens/LoginScreen.tsx:72-79 | the password field takes the typed text; nothing else changes |
| `Login.LoginScreen.HandleLogin` | src/screens/LoginScreen.tsx:24-33 | a request is issued iff both fields are non-empty; otherwise the message is "Please fill in all fields", the dialog shows, loading is unchanged and the environment is untouched; when issued, loading is true, the button disabled and only the login request is recorded |
| `Login.LoginScreen.OnLoginSettled` | src/screens/LoginScreen.tsx:33-55 | loading ends false; on success the token is saved first and then the root is reset to MainTabs alone at index 0; on any caught error the dialog shows the derived message and the environment is untouched; root/token agreement is preserved |
| `Login.LoginScreen.DismissDialog` | src/screens/LoginScreen.tsx:93-99 | hides the dialog and changes nothing else |
| `Login.LoginScreen.GoToRegister` | src/screens/LoginScreen.tsx:86-89 | shows the register screen on top of the history, focused at the new last index; token and root unchanged |
| `Register.SuccessMessageHasKeyword` | src/screens/RegisterScreen.tsx:23 | "Registration successful!" includes "successful" |
| `Register.FailureMessageLacksKeyword` | src/screens/RegisterScreen.tsx:27 | "Registration failed. Please try again." does not include "successful" |
| `Register.RegisterMessage` | src/screens/RegisterScreen.tsx:22-28 | the success text for a completed call, the failure text for a thrown one |
| `Register.KeywordMarksSuccess` | src/screens/RegisterScreen.tsx:23-36 | the outcome message includes "successful" if and only if the call succeeded |
| `Register.DialogTitle` | src/screens/RegisterScreen.tsx:78 | the title is "Success" iff the message includes "successful", and "Error" otherwise |
| `Register.TitleNamesOutcome` | src/screens/RegisterScreen.tsx:78 | after a settled call the title is "Success" for a success and "Error" for a failure |
| `Register.RegisterButtonOf` | src/screens/RegisterScreen.tsx:70-75 | disabled exactly while loading; reads "Processing..." then, "Register" otherwise |
| `Register.RegisterScreen.constructor` | src/screens/RegisterScreen.tsx:12-17 | empty fields and message, not loading, dialog hidden |
| `Register.RegisterScreen.SetUsername` | src/screens/RegisterScreen.tsx:48-54 | the username field takes the typed text |
| `Register.RegisterScreen.SetEmail` | src/screens/RegisterScreen.tsx:55-61 | the email field takes the typed text |
| `Register.RegisterScreen.SetPassword` | src/screens/RegisterScreen.tsx:62-69 | the password field takes the typed text |
| `Register.RegisterScreen.HandleRegister` | src/screens/RegisterScreen.tsx:19-22 | unconditionally raises loading and issues the register request with the fields as they are; only that request is recorded |
| `Register.RegisterScreen.OnRegisterSettled` | src/screens/RegisterScreen.tsx:22-31 | the dialog shows the outcome's fixed message and loading ends false, on both outcomes |
| `Register.RegisterScreen.HandleDialogDismiss` | src/screens/RegisterScreen.tsx:34-39 | always hides the dialog; navigates to Login iff the message includes "successful" (focused at the new last index, history kept), and otherwise leaves the environment untouched |
| `Profile.RenderView` | src/screens/ProfileScreen.tsx:68-84 | spinner iff loading; "No user data available." iff not loading and no user; otherwise the details of exactly the current user |
| `Profile.SavedUser` | src/screens/ProfileScreen.tsx:62-64 | with a user, exactly username and email take the edited values and every other field is kept; without one, still none |
| `Profile.SaveIdempotent` | src/screens/ProfileScreen.tsx:60-66 | saving the same edits twice equals saving them once |
| `Profile.SaveUneditedIsIdentity` | src/screens/ProfileScreen.tsx:60-64 | saving the values the fields were loaded with leaves the user unchanged |
| `Profile.ProfileScreen.constructor` | src/screens/ProfileScreen.tsx:20-25 | loading, no user, dropdown and modal hidden, empty edit fields |
| `Profile.ProfileScreen.LoadUserProfile` | src/screens/ProfileScreen.tsx:29-46 | reads the token first; fetches only with a non-empty token; a fetched profile becomes the user and fills both edit fields; no token or a failed fetch leaves user and fields as they were; loading ends false on every path |
| `Profile.ProfileScreen.HandleLogout` | src/screens/ProfileScreen.tsx:48-54 | when the removal completes, clears the token store, then resets the root to Login alone at index 0, in that order, and root/token agreement holds afterwards; when it rejects, nothing changes and no reset happens |
| `Profile.ProfileScreen.View` | src/screens/ProfileScreen.tsx:68-84 | the screen in its current state shows the spinner iff loading, the notice "No user data available." iff loaded without a user, and otherwise exactly the current user |
| `Profile.ProfileScreen.ToggleDropdown` | src/screens/ProfileScreen.tsx:87-92 | flips the dropdown's visibility, so two presses restore it |
| `Profile.ProfileScreen.HandleEditProfile` | src/screens/ProfileScreen.tsx:56-58 | opens the edit modal |
| `Profile.ProfileScreen.SetUsername` | src/screens/ProfileScreen.tsx:139-145 | the username edit field takes the typed text |
| `Profile.ProfileScreen.SetEmail` | src/screens/ProfileScreen.tsx:146-153 | the email edit field takes the typed text |
| `Profile.ProfileScreen.HandleSaveProfile` | src/screens/ProfileScreen.tsx:60-66 | the user becomes the saved record of the edit fields (none stays none) and the modal closes |
| `Profile.ProfileScreen.CloseEditModal` | src/screens/ProfileScreen.tsx:128-163 | the Close button and the modal's request-close both hide the modal and leave the user alone |
| `Tabs.TabIcon` | src/navigation/TabNavigator.tsx:18-30 | the switch agrees with the icon table on its three names and gives "help-circle-outline" to every other name |
| `Tabs.DeclaredTabOrder` | src/navigation/TabNavigator.tsx:42-56 | exactly three tabs, in the order Home, Books, Profile |
| `Tabs.IconTableCoversTabs` | src/navigation/TabNavigator.tsx:18-56 | the names with an icon are exactly the declared tab names |
| `Tabs.DeclaredTabsHaveIcons` | src/navigation/TabNavigator.tsx:18-56 | every declared tab gets a non-default icon, and no two tabs share one |
| `Tabs.OnlyHomeHasBadge` | src/navigation/TabNavigator.tsx:42-56 | the Home tab is the only one with a badge, and its value is 5 |
| `Scenarios.LoginValidation` | src/screens/LoginScreen.tsx:24-29 | with the password empty no request is issued, the validation dialog shows, and the trace and navigator are untouched |
| `Scenarios.LoginThenLogout` | src/screens/LoginScreen.tsx:24-56 | an empty password gives the validation text; a rejection with message "Invalid credentials" and password error "incorrect" shows "Invalid credentials: incorrect"; a token "abc123" is stored and the root is MainTabs; a later logout leaves no token and the root at Login |
| `Scenarios.LogoutTwice` | src/screens/ProfileScreen.tsx:48-54 | logging out twice, the second time with an empty store, leaves no token and Login as the only route |
| `Scenarios.LogoutRemovalFails` | src/screens/ProfileScreen.tsx:48-54 | when the token removal rejects, the token stays stored, the main tabs stay on screen and no reset is recorded |
| `Scenarios.RegisterThenDismiss` | src/screens/RegisterScreen.tsx:19-39 | with empty fields the register request is still issued; the title names the outcome and dismissing navigates to Login exactly after a success |
| `Scenarios.EditProfile` | src/screens/ProfileScreen.tsx:29-66 | with a non-empty token the fetched user is shown, and after editing the username and saving only the username differs; with an empty token the no-data notice, which offers no edit controls, is shown throughout |

## Left out

- src/screens/HomeScreen.tsx: static markup with no logic.
- Style sheets, colours, layout numbers, icon sizes and colours, the images loaded with `require`, and the inline base64 picture: presentation only.
- The fixed "Error" title and the static labels of the login dialog: markup with no decision.
- The remote client (`login`, `register`, `fetchUserProfile`) and the token storage (`getAuthToken`, `setAuthToken`, `removeAuthToken`) are not part of this model. Each remote call becomes a recorded request plus an outcome parameter. Each storage call becomes a recorded effect, and its failure, where modelled, a parameter.
- Login.LoginScreen.OnLoginSettled: the suspension inside `await setAuthToken(...)` is folded into the continuation. When `setAuthToken` throws, the token is taken not to have been written.
- Login.LoginScreen.OnLoginSettled: a login response whose `data` lacks `token` is not modelled; the model's `LoggedIn` always carries a string. In the source, `setAuthToken(undefined)` is then awaited, and if that resolves the root is reset to MainTabs without a usable token. What the token store does with `undefined` is not part of this model. Only a response without `data` throws (a `TypeError`) into the catch block.
- Login.LoginScreen.OnLoginSettled: a rejection with a nullish value (`undefined` or `null`) from `login` or `setAuthToken` is not modelled; `Thrown` always carries an object. In the source, reading `apiError.data` then throws a `TypeError` inside the catch block. `finally` still clears `loading`, the handler's promise rejects, and no dialog text is set or shown.
- Register.RegisterScreen.OnRegisterSettled: a `register` rejection with a nullish value is not modelled; `ok == false` stands for a thrown object. In the source, reading `error.message` then throws inside the catch block, so no dialog text is set or shown; `finally` still clears `loading`, and the handler's promise rejects.
- Profile.ProfileScreen.HandleLogout: when `removeAuthToken` rejects, the store is taken to be as it was, and the handler's own rejected promise (nothing catches it) is not modelled.
- Profile.ProfileScreen.LoadUserProfile: a throwing `getAuthToken` is not modelled. The source does not catch it, so `loading` would stay true.
- Session.Env.Navigate: modelled as a push. React Navigation's return to a route already in the stack is not modelled, and neither is the lookup of a route name through nested navigators.
- Session.Env.Reset: modelled as acting on the root navigator. It is not modelled that the profile screen sits inside a stack inside the tabs.
- React's scheduling of state updates and `useEffect` timing are not modelled. Updates after an unmount, and a second submit while a request is in flight, are not modelled either. The button's disabled flag is modelled, but the handlers themselves do not check it.
- `console.error` logging, dialog and modal rendering, tab-state preservation, and the book-list and profile-stack screens are not part of this model.
- Choosing the root from the stored token at cold start is not part of this model: the app's entry point is not among the modelled files.
