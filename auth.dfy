/** The session store (src/store/authSlice.js): token expiry check, the
    login / logout / restore thunks, and the slice's reducer. Durable
    storage (`localStorage`) is the value `Storage`, passed in and handed
    back; the clock and the token decoder are parameters. */
module Auth {
  import Store
  import opened Wrappers
  import opened Text
  import opened Entities

  /** The two durable keys, `magento_token` and `user_data`. */
  datatype Storage = Storage(token: Option<string>, userData: Option<Profile>)

  const EmptyStorage: Storage := Storage(None, None)

  // ---------------------------------------------------------------------
  // isTokenExpired (authSlice.js:87-105)

  /** What base64-decoding and JSON-parsing the payload segment yields:
      it throws (bad base64, bad JSON, or a `null` payload whose `.exp`
      read throws), or it gives a claims object whose `exp` is a number or
      absent. */
  datatype Claims = Undecodable | Decoded(exp: Option<int>)

  /** `isTokenExpired(token)` at wall-clock time `nowMs` (`Date.now()`),
      with `decode` standing for the base64 and JSON decoding of a segment. A token is taken
      as expired unless it is a three-part compact JWS (section 7.1 of
      RFC 7515) whose payload decodes; then it is expired exactly when its
      `exp` claim (section 4.1.4 of RFC 7519) is present, non-zero (`0` is
      falsy) and strictly before the current second. */
  function IsTokenExpired(token: Option<string>, decode: string -> Claims, nowMs: nat): (expired: bool)
    ensures !Truthy(token) ==> expired
    ensures Truthy(token) && Count(token.value, '.') != 2 ==> expired
  {
    if !Truthy(token) then true
    else
      var parts := Split(token.value, '.');
      if |parts| != 3 then true
      else match decode(parts[1])
        case Undecodable => true
        case Decoded(exp) => exp.Some? && exp.value != 0 && exp.value < nowMs / 1000
  }

  /** A compact JWS `header.payload.signature`. */
  function Compact(header: string, payload: string, signature: string): string {
    header + ['.'] + payload + ['.'] + signature
  }

  /** For a well-formed compact token the check reads the payload segment
      and nothing else: expired iff it does not decode, or its `exp` is
      present, non-zero and before the current second. So a missing `exp`
      and an `exp` equal to the current second both count as live. */
  lemma {:induction false} CompactTokenExpiry(header: string, payload: string, signature: string, decode: string -> Claims, nowMs: nat)
    requires '.' !in header && '.' !in payload && '.' !in signature
    ensures IsTokenExpired(Some(Compact(header, payload, signature)), decode, nowMs) <==>
              match decode(payload)
              case Undecodable => true
              case Decoded(exp) => exp.Some? && exp.value != 0 && exp.value < nowMs / 1000
  {
    var parts := [header, payload, signature];
    assert Join(parts[2..], '.') == signature;
    assert Join(parts[1..], '.') == payload + ['.'] + signature;
    assert Join(parts, '.') == Compact(header, payload, signature);
    SplitJoin(parts, '.');
  }

  // ---------------------------------------------------------------------
  // Users, requests and thunk runs

  /** The `user` object the thunks build from a profile (the avatar glyph
      is left out). */
  datatype User = User(id: int, email: string, firstname: string, lastname: string, name: string, role: string, profile: Profile)

  datatype SessionPayload = SessionPayload(token: string, user: User)

  function UserOf(c: Profile): (u: User)
    ensures u.name == c.firstname + " " + c.lastname
    ensures u.role == "Cashier"
    ensures u.id == c.id && u.email == c.email && u.profile == c
  {
    User(c.id, c.email, c.firstname, c.lastname, c.firstname + " " + c.lastname, "Cashier", c)
  }

  function WelcomeMessage(c: Profile): string {
    "Welcome back, " + c.firstname + "!"
  }

  datatype Credentials = Credentials(username: string, password: string)

  /** Requests sent to the backend: `generateCustomerToken`, the
      `customer` profile query with a bearer token, `revokeCustomerToken`. */
  datatype AuthRequest = GenerateToken(email: string, password: string) | CustomerQuery(token: string) | RevokeToken(token: string)

  /** A settled auth thunk: its result, the requests it sent, durable
      storage afterwards, and the success notification it showed. */
  datatype AuthRun = AuthRun(result: Result<SessionPayload>, sent: seq<AuthRequest>, storage: Storage, welcome: Option<string>)

  // ---------------------------------------------------------------------
  // loginUser (authSlice.js:108-180)

  const NetworkErrorMessage: string := "Network error. Please check your connection."

  /** The catch block of `loginUser`: GraphQL errors first, then a network
      error, then the error's own message. */
  function LoginErrorMessage(f: Fault): (m: string)
    ensures m != ""
    ensures |f.graphQLErrors| > 0 ==> m == OrElse(f.graphQLErrors[0], "Authentication failed")
    ensures |f.graphQLErrors| == 0 && f.networkError ==> m == NetworkErrorMessage
    ensures |f.graphQLErrors| == 0 && !f.networkError ==> m == OrElse(f.message, "Login failed")
  {
    if |f.graphQLErrors| > 0 then OrElse(f.graphQLErrors[0], "Authentication failed")
    else if f.networkError then NetworkErrorMessage
    else OrElse(f.message, "Login failed")
  }

  /** `loginUser(credentials)`: `issued` is the token mutation's reply
      (`generateCustomerToken.token`), `profile` the profile query's reply,
      reached only with a usable token. */
  function LoginUser(creds: Credentials, issued: Reply<Option<string>>, profile: Reply<Option<Profile>>, storage: Storage): (run: AuthRun)
    ensures 1 <= |run.sent| <= 2 && run.sent[0] == GenerateToken(creds.username, creds.password)
    ensures run.result.Ok? <==>
              issued.Replied? && Truthy(issued.value) && profile.Replied? && profile.value.Some?
    ensures run.result.Ok? ==>
              && run.result.value.token == issued.value.value
              && run.result.value.token != ""
              && run.result.value.user == UserOf(profile.value.value)
              && run.storage == Storage(Some(issued.value.value), Some(profile.value.value))
              && run.welcome == Some(WelcomeMessage(profile.value.value))
    ensures run.result.Err? ==> run.storage == storage && run.welcome.None? && run.result.message != ""
    ensures |run.sent| == 2 <==> issued.Replied? && Truthy(issued.value)
    ensures issued.Failed? ==> run.result == Err(LoginErrorMessage(issued.fault))
    ensures issued.Replied? && !Truthy(issued.value) ==> run.result == Err("Failed to generate authentication token")
    ensures issued.Replied? && Truthy(issued.value) && profile.Failed? ==>
              run.result == Err(LoginErrorMessage(profile.fault))
    ensures issued.Replied? && Truthy(issued.value) && profile == Replied(None) ==>
              run.result == Err("Failed to fetch customer data")
  {
    var first := GenerateToken(creds.username, creds.password);
    match issued
    case Failed(f) => AuthRun(Err(LoginErrorMessage(f)), [first], storage, None)
    case Replied(token) =>
      if !Truthy(token) then
        AuthRun(Err(LoginErrorMessage(PlainError("Failed to generate authentication token"))), [first], storage, None)
      else
        var second := CustomerQuery(token.value);
        match profile
        case Failed(f) => AuthRun(Err(LoginErrorMessage(f)), [first, second], storage, None)
        case Replied(None) =>
          AuthRun(Err(LoginErrorMessage(PlainError("Failed to fetch customer data"))), [first, second], storage, None)
        case Replied(Some(c)) =>
          AuthRun(Ok(SessionPayload(token.value, UserOf(c))), [first, second],
                  Storage(Some(token.value), Some(c)), Some(WelcomeMessage(c)))
  }

  // ---------------------------------------------------------------------
  // logoutUser (authSlice.js:183-216)

  /** The `ReferenceError` message raised at authSlice.js:208, where
      `dispatch` is not in scope of the thunk body. */
  const DispatchNotDefined: string := "dispatch is not defined"

  /** `logoutUser()` as written: revoke the stored token if there is one
      (a failed revocation is ignored, so its reply does not matter),
      clear storage, then reach `dispatch(clearAllData())`, which throws,
      so the thunk always rejects. */
  function LogoutUser(storage: Storage): (run: AuthRun)
    ensures run.result == Err(DispatchNotDefined)
    ensures run.storage == EmptyStorage
    ensures run.sent == if Truthy(storage.token) then [RevokeToken(storage.token.value)] else []
    ensures run.welcome.None?
  {
    var sent := if Truthy(storage.token) then [RevokeToken(storage.token.value)] else [];
    AuthRun(Err(OrElse(DispatchNotDefined, "Logout failed")), sent, EmptyStorage, None)
  }

  // ---------------------------------------------------------------------
  // checkAuthStatus (authSlice.js:219-275)

  /** Storage holds a token and user data, and the token is not expired:
      the restore goes on to validate it with the backend. */
  predicate Restorable(storage: Storage, decode: string -> Claims, nowMs: nat) {
    Truthy(storage.token) && storage.userData.Some? && !IsTokenExpired(storage.token, decode, nowMs)
  }

  /** `checkAuthStatus()`: restore a session from storage. Fails closed:
      every rejection leaves storage cleared. `profile` is the reply of the
      validating profile query, sent only for a stored, unexpired token. */
  function CheckAuthStatus(storage: Storage, decode: string -> Claims, nowMs: nat, profile: Reply<Option<Profile>>): (run: AuthRun)
    ensures run.result.Err? ==> run.storage == EmptyStorage && run.welcome.None?
    ensures run.result.Ok? ==>
              && Truthy(storage.token) && storage.userData.Some?
              && !IsTokenExpired(storage.token, decode, nowMs)
              && run.result.value.token == storage.token.value
              && profile == Replied(Some(run.result.value.user.profile))
              && run.result.value.user == UserOf(run.result.value.user.profile)
              && run.storage == storage
    ensures storage.userData.None? || IsTokenExpired(storage.token, decode, nowMs) ==>
              run.result.Err? && run.sent == []
    ensures run.sent != [] ==> run.sent == [CustomerQuery(storage.token.value)]
    ensures run.result.Err? ==> run.result.message != ""
    ensures !Truthy(storage.token) || storage.userData.None? ==> run.result == Err("No valid session found")
    ensures Truthy(storage.token) && storage.userData.Some? && IsTokenExpired(storage.token, decode, nowMs) ==>
              run.result == Err("Token has expired")
    ensures Restorable(storage, decode, nowMs) ==>
              && run.sent == [CustomerQuery(storage.token.value)]
              && (profile.Failed? ==> run.result == Err(OrElse(profile.fault.message, "Authentication check failed")))
              && (profile == Replied(None) ==> run.result == Err("Token is invalid or expired"))
              && (profile.Replied? && profile.value.Some? ==>
                    && run.result == Ok(SessionPayload(storage.token.value, UserOf(profile.value.value)))
                    && run.storage == storage
                    && run.welcome == Some(WelcomeMessage(profile.value.value)))
  {
    if !Truthy(storage.token) || storage.userData.None? then
      AuthRun(Err("No valid session found"), [], EmptyStorage, None)
    else if IsTokenExpired(storage.token, decode, nowMs) then
      AuthRun(Err("Token has expired"), [], EmptyStorage, None)
    else
      var query := CustomerQuery(storage.token.value);
      match profile
      case Failed(f) => AuthRun(Err(OrElse(f.message, "Authentication check failed")), [query], EmptyStorage, None)
      case Replied(None) => AuthRun(Err("Token is invalid or expired"), [query], EmptyStorage, None)
      case Replied(Some(c)) =>
        AuthRun(Ok(SessionPayload(storage.token.value, UserOf(c))), [query], storage, Some(WelcomeMessage(c)))
  }

  // ---------------------------------------------------------------------
  // The slice (authSlice.js:277-354)

  datatype AuthState = AuthState(
    user: Option<User>,
    token: Option<string>,
    isAuthenticated: bool,
    isLoading: bool,
    error: Option<string>,
    isInitialized: bool)

  const Initial: AuthState := AuthState(None, None, false, false, None, false)

  datatype Action =
    | ClearError
    | SetLoading(loading: bool)
    | LoginPending
    | LoginFulfilled(session: SessionPayload)
    | LoginRejected(message: string)
    | LogoutPending
    | LogoutFulfilled
    | LogoutRejected(message: string)
    | CheckPending
    | CheckFulfilled(session: SessionPayload)
    | CheckRejected(message: string)

  /** The store says "authenticated" exactly when it holds a token and a
      user. */
  predicate SessionConsistent(s: AuthState) {
    s.isAuthenticated <==> s.token.Some? && s.user.Some?
  }

  /** Actions that start or end a session. */
  predicate ChangesSession(a: Action) {
    a.LoginFulfilled? || a.LoginRejected? || a.LogoutFulfilled? || a.CheckFulfilled? || a.CheckRejected?
  }

  function Reduce(s: AuthState, a: Action): (r: AuthState)
    ensures SessionConsistent(s) ==> SessionConsistent(r)
    ensures s.isInitialized ==> r.isInitialized
    ensures !ChangesSession(a) ==> r.user == s.user && r.token == s.token && r.isAuthenticated == s.isAuthenticated
    ensures a.CheckFulfilled? || a.CheckRejected? ==> r.isInitialized
    ensures !(a.CheckFulfilled? || a.CheckRejected?) ==> r.isInitialized == s.isInitialized
    ensures (a.LoginFulfilled? || a.CheckFulfilled?) ==>
              r.isAuthenticated && r.user == Some(a.session.user) && r.token == Some(a.session.token) &&
              r.error.None? && !r.isLoading
    ensures (a.LoginRejected? || a.CheckRejected? || a.LogoutFulfilled?) ==>
              !r.isAuthenticated && r.user.None? && r.token.None? && !r.isLoading
    ensures (a.LoginRejected? || a.CheckRejected?) ==> r.error == Some(a.message)
    ensures a.LogoutFulfilled? ==> r.error.None?
    ensures a.LogoutRejected? ==> r == s.(isLoading := false, error := Some(a.message))
    ensures a.LoginPending? ==> r == s.(isLoading := true, error := None)
    ensures a.LogoutPending? || a.CheckPending? ==> r == s.(isLoading := true)
    ensures a.ClearError? ==> r == s.(error := None)
    ensures a.SetLoading? ==> r == s.(isLoading := a.loading)
  {
    match a
    case ClearError => s.(error := None)
    case SetLoading(b) => s.(isLoading := b)
    case LoginPending => s.(isLoading := true, error := None)
    case LoginFulfilled(p) =>
      s.(isLoading := false, isAuthenticated := true, user := Some(p.user), token := Some(p.token), error := None)
    case LoginRejected(m) =>
      s.(isLoading := false, isAuthenticated := false, user := None, token := None, error := Some(m))
    case LogoutPending => s.(isLoading := true)
    case LogoutFulfilled =>
      s.(isLoading := false, isAuthenticated := false, user := None, token := None, error := None)
    case LogoutRejected(m) => s.(isLoading := false, error := Some(m))
    case CheckPending => s.(isLoading := true)
    case CheckFulfilled(p) =>
      s.(isLoading := false, isAuthenticated := true, user := Some(p.user), token := Some(p.token),
         isInitialized := true, error := None)
    case CheckRejected(m) =>
      s.(isLoading := false, isAuthenticated := false, user := None, token := None,
         isInitialized := true, error := Some(m))
  }

  /** The state after dispatching `actions` in order. */
  function ReduceAll(s: AuthState, actions: seq<Action>): AuthState {
    Store.Replay(Reduce, s, actions)
  }


  /** The session invariant holds after any sequence of actions. */
  lemma {:induction false} SessionConsistentAlways(s: AuthState, actions: seq<Action>)
    requires SessionConsistent(s)
    ensures SessionConsistent(ReduceAll(s, actions))
    decreases |actions|
  {
    if actions != [] {
      SessionConsistentAlways(Reduce(s, actions[0]), actions[1..]);
    }
  }

  /** Once initialized, the store stays initialized. */
  lemma {:induction false} InitializedStays(s: AuthState, actions: seq<Action>)
    requires s.isInitialized
    ensures ReduceAll(s, actions).isInitialized
    decreases |actions|
  {
    if actions != [] {
      InitializedStays(Reduce(s, actions[0]), actions[1..]);
    }
  }

  /** The action a login run settles with. */
  function LoginSettled(run: AuthRun): Action {
    match run.result
    case Ok(p) => LoginFulfilled(p)
    case Err(m) => LoginRejected(m)
  }

  /** The action a restore run settles with. */
  function CheckSettled(run: AuthRun): Action {
    match run.result
    case Ok(p) => CheckFulfilled(p)
    case Err(m) => CheckRejected(m)
  }

  /** A login leaves the store authenticated, with a non-empty token,
      exactly when the backend issued a token and returned a profile;
      otherwise unauthenticated with the error set. */
  lemma {:induction false} LoginOutcome(s: AuthState, creds: Credentials, issued: Reply<Option<string>>, profile: Reply<Option<Profile>>, storage: Storage)
    ensures var run := LoginUser(creds, issued, profile, storage);
            var after := ReduceAll(s, [LoginPending, LoginSettled(run)]);
            && (after.isAuthenticated <==> issued.Replied? && Truthy(issued.value) && profile.Replied? && profile.value.Some?)
            && (after.isAuthenticated ==> after.token.Some? && after.token.value != "" && after.error.None?)
            && (!after.isAuthenticated ==> after.error.Some? && after.error.value != "" && after.token.None?)
  {
    var run := LoginUser(creds, issued, profile, storage);
    Store.ReplayTwo(Reduce, s, LoginPending, LoginSettled(run));
  }

  /** Restoring with an absent, malformed or expired token never
      authenticates, always initializes, always clears storage and sends
      nothing. */
  lemma {:induction false} RestoreFailsClosed(s: AuthState, storage: Storage, decode: string -> Claims, nowMs: nat, profile: Reply<Option<Profile>>)
    requires IsTokenExpired(storage.token, decode, nowMs)
    ensures var run := CheckAuthStatus(storage, decode, nowMs, profile);
            var after := ReduceAll(s, [CheckPending, CheckSettled(run)]);
            !after.isAuthenticated && after.isInitialized && !after.isLoading &&
            run.storage == EmptyStorage && run.sent == []
  {
    var run := CheckAuthStatus(storage, decode, nowMs, profile);
    Store.ReplayTwo(Reduce, s, CheckPending, CheckSettled(run));
  }

  /** A stored, unexpired session that the backend still accepts is
      restored: the store is authenticated with the stored token and the
      returned customer, initialized, idle and without error. */
  lemma {:induction false} RestoreSucceeds(s: AuthState, storage: Storage, decode: string -> Claims, nowMs: nat, c: Profile)
    requires Restorable(storage, decode, nowMs)
    ensures var run := CheckAuthStatus(storage, decode, nowMs, Replied(Some(c)));
            var after := ReduceAll(s, [CheckPending, CheckSettled(run)]);
            && after.isAuthenticated && after.isInitialized && !after.isLoading && after.error.None?
            && after.token == storage.token && after.user == Some(UserOf(c))
            && run.storage == storage && run.welcome == Some(WelcomeMessage(c))
  {
    var run := CheckAuthStatus(storage, decode, nowMs, Replied(Some(c)));
    Store.ReplayTwo(Reduce, s, CheckPending, CheckSettled(run));
  }

  /** Logging out as written: storage is cleared, but the thunk rejects,
      so the store keeps its user, token and `isAuthenticated`. */
  lemma {:induction false} LogoutKeepsStoreSession(s: AuthState, storage: Storage)
    ensures var run := LogoutUser(storage);
            var after := ReduceAll(s, [LogoutPending, LogoutRejected(run.result.message)]);
            && run.storage == EmptyStorage
            && after.isAuthenticated == s.isAuthenticated
            && after.token == s.token && after.user == s.user
            && after.error == Some(DispatchNotDefined)
  {
    var run := LogoutUser(storage);
    Store.ReplayTwo(Reduce, s, LogoutPending, LogoutRejected(run.result.message));
  }

  /** The slice's state, updated field by field as the reducers do. */
  class AuthStore {
    var user: Option<User>
    var token: Option<string>
    var isAuthenticated: bool
    var isLoading: bool
    var error: Option<string>
    var isInitialized: bool

    function State(): AuthState
      reads this
    {
      AuthState(user, token, isAuthenticated, isLoading, error, isInitialized)
    }

    constructor ()
      ensures State() == Initial
    {
      user, token, isAuthenticated, isLoading, error, isInitialized := None, None, false, false, None, false;
    }

    method Dispatch(a: Action)
      modifies this
      ensures State() == Reduce(old(State()), a)
    {
      match a {
        case ClearError =>
          error := None;
        case SetLoading(b) =>
          isLoading := b;
        case LoginPending =>
          isLoading := true;
          error := None;
        case LoginFulfilled(p) =>
          isLoading := false;
          isAuthenticated := true;
          user := Some(p.user);
          token := Some(p.token);
          error := None;
        case LoginRejected(m) =>
          isLoading := false;
          isAuthenticated := false;
          user := None;
          token := None;
          error := Some(m);
        case LogoutPending =>
          isLoading := true;
        case LogoutFulfilled =>
          isLoading := false;
          isAuthenticated := false;
          user := None;
          token := None;
          error := None;
        case LogoutRejected(m) =>
          isLoading := false;
          error := Some(m);
        case CheckPending =>
          isLoading := true;
        case CheckFulfilled(p) =>
          isLoading := false;
          isAuthenticated := true;
          user := Some(p.user);
          token := Some(p.token);
          isInitialized := true;
          error := None;
        case CheckRejected(m) =>
          isLoading := false;
          isAuthenticated := false;
          user := None;
          token := None;
          isInitialized := true;
          error := Some(m);
      }
    }
  }
}
