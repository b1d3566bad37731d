/** The client's auth action creators: `registerUser`, `loginUser`,
    `logoutUser` and `setCurrentUser`. Their effects are on the browser's
    local storage, the default Authorization header of outgoing requests, the
    Redux store (through `dispatch`) and the router history. The server's
    answer is a parameter (`res.data` on success, `err.response.data` on
    failure, or no response at all), and so is `jwt-decode`. */
module AuthActions {
  import opened Http
  import AuthReducer
  import UserRoutes

  datatype Option<T> = None | Some(value: T)

  /** How a request settled: with a server reply (`res.data`, or
      `err.response.data` for an error status), or with no response at all
      (a network failure or time-out, where `err.response` is undefined). */
  datatype Settled<T> = Response(reply: Reply<T>) | NoResponse

  const TOKEN_KEY := "jwtToken"
  const LOGIN_ROUTE := "/login"

  /** Everything the action creators touch. `auth` is the auth reducer's
      state; `dispatched` records every action dispatched, in order. */
  datatype Client = Client(
    storage: map<string, string>,
    authHeader: Option<string>,
    auth: AuthReducer.AuthState,
    dispatched: seq<AuthReducer.Action>,
    history: seq<string>)

  function Start(): Client {
    Client(map[], None, AuthReducer.Initial(), [], [])
  }

  /** `setCurrentUser(decoded)` */
  function SetCurrentUser(decoded: JsonObject): AuthReducer.Action {
    AuthReducer.Action(AuthReducer.SetCurrentUser, decoded)
  }

  function GetErrors(data: JsonObject): AuthReducer.Action {
    AuthReducer.Action(AuthReducer.GetErrors, data)
  }

  /** `dispatch(a)`: the action is recorded and the auth reducer runs on it. */
  function Dispatch(c: Client, a: AuthReducer.Action): Client {
    c.(auth := AuthReducer.Reduce(c.auth, a), dispatched := c.dispatched + [a])
  }

  /** `loginUser(userData)(dispatch)` once the request settled with `res`. */
  function AfterLogin(c: Client, res: Settled<UserRoutes.LoginBody>, decode: string -> JsonObject): Client {
    match res
    case Response(Ok(body)) =>
      Dispatch(c.(storage := c.storage[TOKEN_KEY := body.token], authHeader := Some(body.token)),
               SetCurrentUser(decode(body.token)))
    case Response(Err(_, data)) => Dispatch(c, GetErrors(data))
    case NoResponse => c
  }

  /** `logoutUser()(dispatch)` */
  function AfterLogout(c: Client): Client {
    Dispatch(c.(storage := c.storage - {TOKEN_KEY}, authHeader := None), SetCurrentUser(map[]))
  }

  /** `registerUser(userData, history)(dispatch)` once the request settled. */
  function AfterRegister(c: Client, res: Settled<UserRoutes.User>): Client {
    match res
    case Response(Ok(_)) => c.(history := c.history + [LOGIN_ROUTE])
    case Response(Err(_, data)) => Dispatch(c, GetErrors(data))
    case NoResponse => c
  }

  /** A successful login stores the token under "jwtToken", uses the same
      token as the auth header, and dispatches SET_CURRENT_USER with the
      decoded token, which becomes the current user. */
  lemma LoginSuccess(c: Client, body: UserRoutes.LoginBody, decode: string -> JsonObject)
    ensures var r := AfterLogin(c, Response(Ok(body)), decode);
            && r.storage == c.storage[TOKEN_KEY := body.token]
            && r.authHeader == Some(body.token)
            && r.dispatched == c.dispatched + [SetCurrentUser(decode(body.token))]
            && r.auth == AuthReducer.AuthState(|decode(body.token)| > 0, decode(body.token))
            && r.history == c.history
  {
  }

  /** A failed login or register dispatches GET_ERRORS with the response
      data and changes neither the storage, nor the header, nor the auth state. */
  lemma FailureOnlyReportsErrors(c: Client, status: nat, data: JsonObject, decode: string -> JsonObject)
    ensures AfterLogin(c, Response(Err(status, data)), decode) == c.(dispatched := c.dispatched + [GetErrors(data)])
    ensures AfterRegister(c, Response(Err(status, data))) == c.(dispatched := c.dispatched + [GetErrors(data)])
  {
  }

  /** A request that fails without a response makes the catch handler throw
      when it reads `err.response.data`: nothing is dispatched, and storage,
      header, auth state and history stay as they were. */
  lemma NoResponseChangesNothing(c: Client, decode: string -> JsonObject)
    ensures AfterLogin(c, NoResponse, decode) == c
    ensures AfterRegister(c, NoResponse) == c
  {
  }

  /** A successful register only navigates to the login page. */
  lemma RegisterSuccess(c: Client, u: UserRoutes.User)
    ensures AfterRegister(c, Response(Ok(u))) == c.(history := c.history + [LOGIN_ROUTE])
  {
  }

  /** Logout removes the token, clears the header and resets the auth state. */
  lemma LogoutResets(c: Client)
    ensures var r := AfterLogout(c);
            && TOKEN_KEY !in r.storage
            && r.authHeader == None
            && r.auth == AuthReducer.Initial()
            && AuthReducer.PhaseOf(r.auth) == AuthReducer.Anonymous
            && r.dispatched == c.dispatched + [SetCurrentUser(map[])]
            && (forall k :: k in c.storage && k != TOKEN_KEY ==> k in r.storage && r.storage[k] == c.storage[k])
  {
    AuthReducer.EmptyUserResets(c.auth);
  }

  /** Logging out twice leaves the same storage, header and auth state as
      logging out once; only the record of dispatched actions grows. */
  lemma LogoutIdempotent(c: Client)
    ensures var once := AfterLogout(c);
            var twice := AfterLogout(once);
            twice.(dispatched := once.dispatched) == once
  {
    assert AfterLogout(c).storage - {TOKEN_KEY} == AfterLogout(c).storage;
  }

  /** The session events a client goes through. */
  datatype Event =
    | LoginSettled(res: Settled<UserRoutes.LoginBody>, decode: string -> JsonObject)
    | Logout
    | RegisterSettled(registered: Settled<UserRoutes.User>)

  function Step(c: Client, e: Event): Client {
    match e
    case LoginSettled(res, decode) => AfterLogin(c, res, decode)
    case Logout => AfterLogout(c)
    case RegisterSettled(res) => AfterRegister(c, res)
  }

  function RunEvents(c: Client, events: seq<Event>): Client
    decreases |events|
  {
    if events == [] then c else RunEvents(Step(c, events[0]), events[1..])
  }

  /** Each action creator keeps the auth invariant ("authenticated iff the user
      is non-empty"), since none of them dispatches REGISTER_USER. */
  lemma StepKeepsConsistent(c: Client, e: Event)
    requires AuthReducer.Consistent(c.auth)
    ensures AuthReducer.Consistent(Step(c, e).auth)
  {
  }

  /** From the start of the app, through any sequence of logins, logouts and
      registrations, the invariant holds and the client is authenticated
      exactly when its user object is non-empty. */
  lemma {:induction false} EventsKeepConsistent(c: Client, events: seq<Event>)
    requires AuthReducer.Consistent(c.auth)
    ensures AuthReducer.Consistent(RunEvents(c, events).auth)
    decreases |events|
  {
    if events != [] {
      StepKeepsConsistent(c, events[0]);
      EventsKeepConsistent(Step(c, events[0]), events[1..]);
    }
  }

  /** End to end: when the server logs a registered user in and `jwt-decode`
      gives back the signed id, name and avatar (it may add other claims,
      such as `iat` and `exp`), the client stores the issued token and is
      authenticated as that user, with that id, name and avatar. */
  lemma ServerLoginAuthenticates(c: Client, users: map<string, UserRoutes.User>, crypto: UserRoutes.Crypto,
                                 secretKey: string, req: UserRoutes.LoginRequest, decode: string -> JsonObject)
    requires req.email in users
    requires crypto.compare(req.password, users[req.email].password)
    requires var u := users[req.email];
             var claims := decode(UserRoutes.TokenFor(crypto, secretKey, u));
             && "id" in claims && claims["id"] == u.id
             && "name" in claims && claims["name"] == u.name
             && "avatar" in claims && claims["avatar"] == u.avatar
    ensures var u := users[req.email];
            var token := UserRoutes.TokenFor(crypto, secretKey, u);
            var r := AfterLogin(c, Response(UserRoutes.Login(users, crypto, secretKey, req)), decode);
            && r.storage[TOKEN_KEY] == token
            && r.authHeader == Some(token)
            && AuthReducer.PhaseOf(r.auth) == AuthReducer.Authenticated
            && "id" in r.auth.user && r.auth.user["id"] == u.id
            && "name" in r.auth.user && r.auth.user["name"] == u.name
            && "avatar" in r.auth.user && r.auth.user["avatar"] == u.avatar
  {
    var token := UserRoutes.TokenFor(crypto, secretKey, users[req.email]);
    LoginSuccess(c, UserRoutes.LoginBody(true, token), decode);
  }

  /** The client's mutable state, changed by the action creators. */
  class Session {
    var storage: map<string, string>
    var authHeader: Option<string>
    var auth: AuthReducer.AuthState
    var dispatched: seq<AuthReducer.Action>
    var history: seq<string>

    function View(): Client
      reads this
    {
      Client(storage, authHeader, auth, dispatched, history)
    }

    ghost predicate Valid()
      reads this
    {
      AuthReducer.Consistent(auth)
    }

    constructor ()
      ensures Valid() && View() == Start()
    {
      storage, authHeader, auth, dispatched, history := map[], None, AuthReducer.Initial(), [], [];
    }

    method DispatchAction(a: AuthReducer.Action)
      modifies this
      ensures View() == Dispatch(old(View()), a)
    {
      auth := AuthReducer.Reduce(auth, a);
      dispatched := dispatched + [a];
    }

    /** `setAuthToken(token)`: a token sets the header, `false` removes it. */
    method SetAuthToken(token: Option<string>)
      modifies this
      ensures View() == old(View()).(authHeader := token)
    {
      authHeader := token;
    }

    method LoginUser(res: Settled<UserRoutes.LoginBody>, decode: string -> JsonObject)
      requires Valid()
      modifies this
      ensures Valid()
      ensures View() == AfterLogin(old(View()), res, decode)
    {
      match res {
        case Response(Ok(body)) =>
          var token := body.token;
          storage := storage[TOKEN_KEY := token];
          SetAuthToken(Some(token));
          var decoded := decode(token);
          DispatchAction(SetCurrentUser(decoded));
        case Response(Err(_, data)) =>
          DispatchAction(GetErrors(data));
        case NoResponse =>
      }
    }

    method LogoutUser()
      requires Valid()
      modifies this
      ensures Valid()
      ensures View() == AfterLogout(old(View()))
    {
      storage := storage - {TOKEN_KEY};
      SetAuthToken(None);
      DispatchAction(SetCurrentUser(map[]));
    }

    method RegisterUser(res: Settled<UserRoutes.User>)
      requires Valid()
      modifies this
      ensures Valid()
      ensures View() == AfterRegister(old(View()), res)
    {
      match res {
        case Response(Ok(_)) =>
          history := history + [LOGIN_ROUTE];
        case Response(Err(_, data)) =>
          DispatchAction(GetErrors(data));
        case NoResponse =>
      }
    }
  }
}
