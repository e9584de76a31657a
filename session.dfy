/** The environment the screens act on: the device token store, the root
    navigator, and the trace of every externally visible effect (remote
    requests, storage operations, navigation) in the order it happened. */
module Session {
  import opened JsValues

  const MainTabs := "MainTabs"
  const LoginRoute := "Login"
  const RegisterRoute := "Register"

  /** One externally visible effect of a screen handler. */
  datatype Effect =
    | LoginRequest(username: string, password: string)
    | RegisterRequest(username: string, password: string, email: string)
    | ProfileRequest
    | TokenRead
    | TokenSaved(saved: string)
    | TokenRemoved
    | RootReset(root: string)
    | Navigated(target: string)

  /** A remote call (login, register or profile fetch), as opposed to a storage or navigation effect. */
  predicate IsRequest(e: Effect) {
    e.LoginRequest? || e.RegisterRequest? || e.ProfileRequest?
  }

  class Env {
    /** The token store: `None` when no session token is stored. */
    var token: Option<string>
    /** The root navigator's route list and the index of the focused route. */
    var routes: seq<string>
    var index: nat
    /** Whether some handler has reset the root navigator. */
    var resetHappened: bool
    /** Every effect so far, oldest first. */
    var effects: seq<Effect>

    ghost predicate Valid()
      reads this
    {
      index < |routes|
    }

    /** The screen currently shown by the root navigator. */
    function Current(): string
      reads this
      requires Valid()
    {
      routes[index]
    }

    /** After any reset, the root route agrees with the token store:
        the main tabs only with a token, the login screen only without one. */
    ghost predicate Consistent()
      reads this
      ensures Consistent() ==> Valid()
      ensures Consistent() && resetHappened && routes[0] == MainTabs ==> token.Some?
      ensures Consistent() && resetHappened && routes[0] == LoginRoute ==> token == None
    {
      Valid() &&
      (resetHappened ==>
        (routes[0] == MainTabs ==> token.Some?) &&
        (routes[0] == LoginRoute ==> token.None?))
    }

    constructor (stored: Option<string>, initial: string)
      ensures Valid() && Current() == initial
      ensures token == stored && routes == [initial] && index == 0
      ensures !resetHappened && effects == []
    {
      token := stored;
      routes := [initial];
      index := 0;
      resetHappened := false;
      effects := [];
    }

    /** Issues a remote call; its outcome reaches the screen later, as a parameter of its continuation. */
    method Request(e: Effect)
      requires IsRequest(e)
      modifies this`effects
      ensures effects == old(effects) + [e]
    {
      effects := effects + [e];
    }

    /** `getAuthToken()`: reads the stored token. */
    method GetAuthToken() returns (t: Option<string>)
      modifies this`effects
      ensures t == token
      ensures effects == old(effects) + [TokenRead]
    {
      t := token;
      effects := effects + [TokenRead];
    }

    /** `setAuthToken(t)` when it completes normally. */
    method SetAuthToken(t: string)
      modifies this`token, this`effects
      ensures token == Some(t)
      ensures effects == old(effects) + [TokenSaved(t)]
    {
      token := Some(t);
      effects := effects + [TokenSaved(t)];
    }

    /** `removeAuthToken()`: afterwards no token is stored, whether or not one was. */
    method RemoveAuthToken()
      modifies this`token, this`effects
      ensures token == None
      ensures effects == old(effects) + [TokenRemoved]
    {
      token := None;
      effects := effects + [TokenRemoved];
    }

    /** `navigation.reset({index: 0, routes: [{name: root}]})`: discards the whole history. */
    method Reset(root: string)
      modifies this`routes, this`index, this`resetHappened, this`effects
      ensures Valid() && Current() == root
      ensures routes == [root] && index == 0 && resetHappened
      ensures effects == old(effects) + [RootReset(root)]
    {
      routes := [root];
      index := 0;
      resetHappened := true;
      effects := effects + [RootReset(root)];
    }

    /** `navigation.navigate(target)`: shows `target` on top of the current history. */
    method Navigate(target: string)
      requires Valid()
      modifies this`routes, this`index, this`effects
      ensures Valid() && Current() == target
      ensures routes == old(routes) + [target] && index == |old(routes)|
      ensures effects == old(effects) + [Navigated(target)]
    {
      routes := routes + [target];
      index := |routes| - 1;
      effects := effects + [Navigated(target)];
    }
  }
}
