/** The session holder: the signed-in user, the token, the loading flag,
    the token kept in local storage and the Authorization header of the API
    client. `GET /users/me` is an oracle `me` from the token sent to the
    profile it answers with. */
module Auth {
  import opened Common

  /** The local-storage key of the token. */
  const TokenKey := "@UaiFood:token"

  datatype SessionState = SessionState(
    user: Option<User>,
    token: Option<string>,
    loading: bool,
    storedToken: Option<string>,   // the entry under TokenKey
    authHeader: Option<string>)    // `api.defaults.headers.common['Authorization']`

  /** What `login` leaves behind and what it returns or rethrows. */
  datatype LoginResult = LoginResult(session: SessionState, result: Response<User>)

  function Bearer(t: string): string {
    "Bearer " + t
  }

  /** A signed-in session has both a user and a token, and the token is the
      one in storage and in the header. */
  predicate Consistent(s: SessionState) {
    && (s.token.Some? <==> s.user.Some?)
    && (s.token.Some? ==> s.storedToken == s.token && s.authHeader == Some(Bearer(s.token.value)))
  }

  /** The provider as first rendered: loading, nobody signed in. */
  function Mounted(stored: Option<string>): SessionState {
    SessionState(None, None, true, stored, None)
  }

  /** `loadStorageData`: a stored token (a non-empty one) is put in the header
      and checked against `/users/me`; a token that fails is erased from
      storage. Loading ends either way. */
  function Startup(s: SessionState, me: string -> Response<User>): SessionState {
    match s.storedToken
    case Some(t) =>
      if t == "" then s.(loading := false)
      else
        var withHeader := s.(authHeader := Some(Bearer(t)));
        (match me(t)
         case Ok(u) => withHeader.(user := Some(u), token := Some(t), loading := false)
         case Failed(_) => withHeader.(storedToken := None, loading := false))
    case None => s.(loading := false)
  }

  /** `logout`: user, token, stored token and header are all cleared. */
  function LoggedOut(s: SessionState): SessionState {
    s.(user := None, token := None, storedToken := None, authHeader := None)
  }

  /** `login(newToken)`: stores the token, sets the header and fetches the
      profile; on failure it logs out and rethrows; loading ends either way. */
  function LoginStep(s: SessionState, newToken: string, me: string -> Response<User>): LoginResult {
    var pending := s.(loading := true, storedToken := Some(newToken), authHeader := Some(Bearer(newToken)));
    match me(newToken)
    case Ok(u) => LoginResult(pending.(user := Some(u), token := Some(newToken), loading := false), Ok(u))
    case Failed(e) => LoginResult(LoggedOut(pending).(loading := false), Failed(e))
  }

  /** The provider renders its children only once loading is over. */
  function RendersChildren(s: SessionState): bool {
    !s.loading
  }

  // ---------------------------------------------------------------------

  /** Without a stored token, start-up ends signed out and not loading. */
  lemma StartupWithoutToken(stored: Option<string>, me: string -> Response<User>)
    requires stored == None || stored == Some("")
    ensures var s := Startup(Mounted(stored), me);
      s.user == None && s.token == None && !s.loading && RendersChildren(s)
  {
  }

  /** A stored token that validates signs the fetched user in with that
      token; one that fails is erased and nobody is signed in, while the
      header set from it stays in place. */
  lemma StartupWithToken(t: string, me: string -> Response<User>)
    requires t != ""
    ensures var s := Startup(Mounted(Some(t)), me);
      && !s.loading
      && (me(t).Ok? ==> s.user == Some(me(t).data) && s.token == Some(t) && s.storedToken == Some(t))
      && (me(t).Failed? ==> s.user == None && s.token == None && s.storedToken == None
                            && s.authHeader == Some(Bearer(t)))
  {
  }

  /** A successful login stores and holds the token, signs the fetched user
      in and returns that user. */
  lemma LoginSucceeds(s: SessionState, t: string, me: string -> Response<User>)
    requires me(t).Ok?
    ensures var r := LoginStep(s, t, me);
      && r.result == Ok(me(t).data)
      && r.session.user == Some(me(t).data) && r.session.token == Some(t)
      && r.session.storedToken == Some(t) && r.session.authHeader == Some(Bearer(t))
      && !r.session.loading
  {
  }

  /** A failed login ends logged out, rethrows the failure and ends loading. */
  lemma LoginFails(s: SessionState, t: string, me: string -> Response<User>)
    requires me(t).Failed?
    ensures var r := LoginStep(s, t, me);
      && r.result == Failed(me(t).error)
      && r.session == LoggedOut(s).(loading := false)
  {
  }

  /** Logging out clears the sign-in, and a second logout changes nothing. */
  lemma LogoutIdempotent(s: SessionState)
    ensures LoggedOut(LoggedOut(s)) == LoggedOut(s)
    ensures LoggedOut(s).user == None && LoggedOut(s).token == None
    ensures LoggedOut(s).storedToken == None && LoggedOut(s).authHeader == None
    ensures LoggedOut(s).loading == s.loading
  {
  }

  /** After start-up, login or logout: a token implies a user and the
      stored token is that token. */
  lemma TransitionsKeepConsistent(stored: Option<string>, s: SessionState, t: string, me: string -> Response<User>)
    ensures Consistent(Startup(Mounted(stored), me))
    ensures Consistent(LoginStep(s, t, me).session)
    ensures Consistent(LoggedOut(s))
  {
  }

  /** `AuthProvider`, whose state setters, storage writes and header edits
      are the fields below. */
  class Session {
    var user: Option<User>
    var token: Option<string>
    var loading: bool
    var storedToken: Option<string>
    var authHeader: Option<string>

    function State(): SessionState
      reads this
    {
      SessionState(user, token, loading, storedToken, authHeader)
    }

    constructor (stored: Option<string>)
      ensures State() == Mounted(stored)
    {
      user, token, loading, storedToken, authHeader := None, None, true, stored, None;
    }

    /** The mount effect; the provider runs it once, on the state the
        constructor made. */
    method LoadStorageData(me: string -> Response<User>)
      modifies this
      ensures State() == Startup(old(State()), me)
    {
      var stored := storedToken;
      if stored.Some? && stored.value != "" {
        authHeader := Some(Bearer(stored.value));
        var response := me(stored.value);
        match response {
          case Ok(u) =>
            user := Some(u);
            token := stored;
          case Failed(_) =>
            storedToken := None;
        }
      }
      loading := false;
    }

    method Login(newToken: string, me: string -> Response<User>) returns (result: Response<User>)
      modifies this
      ensures LoginResult(State(), result) == LoginStep(old(State()), newToken, me)
    {
      loading := true;
      storedToken := Some(newToken);
      authHeader := Some(Bearer(newToken));
      var response := me(newToken);
      match response {
        case Ok(u) =>
          user := Some(u);
          token := Some(newToken);
          result := Ok(u);
        case Failed(e) =>
          Logout();
          result := Failed(e);
      }
      loading := false;
    }

    method Logout()
      modifies this
      ensures State() == LoggedOut(old(State()))
    {
      user := None;
      token := None;
      storedToken := None;
      authHeader := None;
    }
  }
}
