/**
 * The sign-in state of the storefront (frontend/src/context/AuthContext.jsx): the reducer over
 * { user, token, isAuthenticated, loading, error }, its initial state and the effect that
 * restores a session from the browser's storage at startup.
 *
 * The user object is kept as the JSON text it was parsed into; `JSON.parse` is a parameter
 * that yields None where it would throw.
 */
module AuthContext {
  import opened Wrappers
  import opened Strings

  datatype AuthState = AuthState(
    user: Field<string>,
    token: Field<string>,
    isAuthenticated: bool,
    loading: bool,
    error: Field<string>)

  datatype AuthAction =
    | LoginStart
    | LoginSuccess(payloadUser: Field<string>, payloadToken: Field<string>)
    | LoginFailure(payload: Field<string>)
    | Logout
    | ClearError
    | OtherAction(actionType: string)

  /** Nobody signed in, still loading, no error. */
  const InitialState: AuthState := AuthState(Null, Null, false, true, Null)

  /** `authReducer`. */
  function Reduce(s: AuthState, a: AuthAction): (r: AuthState)
    ensures a.LoginStart? ==> r == s.(loading := true)
    ensures a.LoginSuccess? ==>
      && r.user == a.payloadUser && r.token == a.payloadToken
      && r.isAuthenticated && !r.loading && r.error == s.error
    ensures a.LoginFailure? ==>
      && !r.loading && r.error == a.payload
      && r.user == s.user && r.token == s.token && r.isAuthenticated == s.isAuthenticated
    ensures a.Logout? ==> r == AuthState(Null, Null, false, false, Undefined)
    ensures a.ClearError? ==> r == s.(error := Null)
    ensures a.OtherAction? ==> r == s
  {
    match a
    case LoginStart => s.(loading := true)
    case LoginSuccess(user, token) => s.(loading := false, user := user, token := token, isAuthenticated := true)
    case LoginFailure(error) => s.(loading := false, error := error)
    case Logout => AuthState(Null, Null, false, false, Undefined)
    case ClearError => s.(error := Null)
    case OtherAction(_) => s
  }

  /** The state after dispatching `actions` in order. */
  function Run(s: AuthState, actions: seq<AuthAction>): AuthState {
    if |actions| == 0 then s
    else Reduce(Run(s, actions[..|actions| - 1]), actions[|actions| - 1])
  }

  /** A session is open when some sign-in has not been followed by a sign-out. */
  predicate SessionOpen(actions: seq<AuthAction>) {
    exists i :: 0 <= i < |actions| && actions[i].LoginSuccess? && NoLogoutAfter(actions, i)
  }

  predicate NoLogoutAfter(actions: seq<AuthAction>, i: int) {
    forall j :: 0 <= j < |actions| && i < j ==> !actions[j].Logout?
  }

  /** From the initial state, the user is authenticated exactly when a session is open. */
  lemma {:induction false} AuthenticatedIffSessionOpen(actions: seq<AuthAction>)
    ensures Run(InitialState, actions).isAuthenticated <==> SessionOpen(actions)
  {
    if |actions| > 0 {
      var front := actions[..|actions| - 1];
      var last := actions[|actions| - 1];
      AuthenticatedIffSessionOpen(front);
      if last.LoginSuccess? {
        assert NoLogoutAfter(actions, |actions| - 1);
      } else if last.Logout? {
        forall i | 0 <= i < |actions| && actions[i].LoginSuccess?
          ensures !NoLogoutAfter(actions, i)
        {
          assert i < |actions| - 1;
        }
      } else {
        if SessionOpen(front) {
          var i :| 0 <= i < |front| && front[i].LoginSuccess? && NoLogoutAfter(front, i);
          assert actions[i] == front[i];
          forall j | i < j < |actions|
            ensures !actions[j].Logout?
          {
            if j < |front| {
              assert actions[j] == front[j];
            }
          }
        }
        if SessionOpen(actions) {
          var i :| 0 <= i < |actions| && actions[i].LoginSuccess? && NoLogoutAfter(actions, i);
          assert i < |front|;
          assert front[i] == actions[i];
          forall j | i < j < |front|
            ensures !front[j].Logout?
          {
            assert front[j] == actions[j];
          }
        }
      }
    }
  }

  /** A sign-in carries a token and a user. */
  predicate WellFormed(a: AuthAction) {
    a.LoginSuccess? ==> a.payloadUser.Defined? && a.payloadToken.Defined?
  }

  /** An authenticated state holds the token and the user it was signed in with. */
  predicate Consistent(s: AuthState) {
    s.isAuthenticated ==> s.user.Defined? && s.token.Defined?
  }

  /** Dispatching well-formed actions from the initial state keeps the state consistent. */
  lemma {:induction false} RunKeepsConsistent(actions: seq<AuthAction>)
    requires forall k :: 0 <= k < |actions| ==> WellFormed(actions[k])
    ensures Consistent(Run(InitialState, actions))
  {
    if |actions| > 0 {
      var front := actions[..|actions| - 1];
      assert forall k :: 0 <= k < |front| ==> front[k] == actions[k];
      RunKeepsConsistent(front);
    }
  }

  /** Only LOGIN_START leaves the state loading; every other action keeps or clears it. */
  lemma LoadingOnlyFromStart(s: AuthState, a: AuthAction)
    requires Reduce(s, a).loading
    ensures a.LoginStart? || (s.loading && (a.ClearError? || a.OtherAction?))
  {
  }

  /**
   * The startup effect: with a stored token and user, a LOGIN_SUCCESS carrying them (the user
   * parsed from its JSON text); otherwise a LOGOUT. A user text that does not parse throws
   * before anything is dispatched.
   */
  function Restore(storedToken: Option<string>, storedUser: Option<string>,
                   parse: string -> Option<Field<string>>, s: AuthState): (r: AuthState)
    ensures Present(storedToken) && Present(storedUser) && parse(storedUser.value).Some? ==>
      r == Reduce(s, LoginSuccess(parse(storedUser.value).value, Defined(storedToken.value)))
    ensures Present(storedToken) && Present(storedUser) && parse(storedUser.value).None? ==> r == s
    ensures !(Present(storedToken) && Present(storedUser)) ==> r == Reduce(s, Logout)
  {
    if Present(storedToken) && Present(storedUser) then
      match parse(storedUser.value)
      case Some(user) => Reduce(s, LoginSuccess(user, Defined(storedToken.value)))
      case None => s
    else
      Reduce(s, Logout)
  }

  /** At startup the stored session is resumed exactly when both items are stored and the user parses. */
  lemma RestoreFromInitial(storedToken: Option<string>, storedUser: Option<string>,
                           parse: string -> Option<Field<string>>)
    ensures var r := Restore(storedToken, storedUser, parse, InitialState);
      && (r.isAuthenticated <==> Present(storedToken) && Present(storedUser) && parse(storedUser.value).Some?)
      && (r.isAuthenticated ==> r.token == Defined(storedToken.value) && !r.loading && r.error == Null)
      && (!r.isAuthenticated ==> r.user == Null && r.token == Null)
      && (r.loading <==> Present(storedToken) && Present(storedUser) && parse(storedUser.value).None?)
  {
  }
}
