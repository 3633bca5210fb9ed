/// The router `run` builds (car_api/src/startup.rs) and the server state
/// a request goes through: the users table, the session binding, the
/// login guard in front of the protected route and the fallback.
module Startup {
  import opened Common
  import opened Errors
  import opened Uuid
  import opened Users
  import opened Authenticate

  const ACCOUNT_PATH := "/api/account"
  const LOGIN_PATH := "/api/login"
  const LOGOUT_PATH := "/api/logout"
  const HEALTH_CHECK_PATH := "/health_check"
  const NO_ROUTE_FOR := "No route for "
  const SECRET_LENGTH: nat := 64

  /// Request methods. `OtherMethod` stands for any method the router never
  /// names (PUT, DELETE, ...); its `name` never spells GET, HEAD or POST,
  /// which a request always carries as the constructors above.
  datatype HttpMethod = GET | HEAD | POST | OtherMethod(name: string)

  /// The handlers the router names.
  datatype Endpoint = GetAccountDetails | CreateAccount | LoginEndpoint | LogoutEndpoint | HealthCheck

  /// One registered (path, method) pair; `requiresLogin` when a
  /// `RequireAuthorizationLayer::login()` route layer wraps it.
  datatype RouteEntry = RouteEntry(path: string, verb: HttpMethod, endpoint: Endpoint, requiresLogin: bool)

  datatype Router = Router(routes: seq<RouteEntry>)

  /// `Router::new()`.
  function NewRouter(): Router
  {
    Router([])
  }

  /// `.route(path, method(handler))`: registers an unguarded route.
  function AddRoute(r: Router, path: string, m: HttpMethod, e: Endpoint): (r': Router)
    ensures r'.routes == r.routes + [RouteEntry(path, m, e, false)]
  {
    Router(r.routes + [RouteEntry(path, m, e, false)])
  }

  /// `.route_layer(RequireAuthorizationLayer::login())`: guards every route
  /// registered so far, and none added later.
  function RequireLogin(r: Router): (r': Router)
    ensures |r'.routes| == |r.routes|
    ensures forall i :: 0 <= i < |r.routes| ==> r'.routes[i] == r.routes[i].(requiresLogin := true)
  {
    Router(seq(|r.routes|, i requires 0 <= i < |r.routes| => r.routes[i].(requiresLogin := true)))
  }

  /// The builder chain of `run`: five routes, of which only the account
  /// details route, registered before the `route_layer`, is guarded.
  function AppRouter(): (r: Router)
    ensures r.routes == [
      RouteEntry(ACCOUNT_PATH, GET, GetAccountDetails, true),
      RouteEntry(ACCOUNT_PATH, POST, CreateAccount, false),
      RouteEntry(LOGIN_PATH, POST, LoginEndpoint, false),
      RouteEntry(LOGOUT_PATH, GET, LogoutEndpoint, false),
      RouteEntry(HEALTH_CHECK_PATH, GET, HealthCheck, false)]
  {
    var r := AddRoute(NewRouter(), ACCOUNT_PATH, GET, GetAccountDetails);
    var r := RequireLogin(r);
    var r := AddRoute(r, ACCOUNT_PATH, POST, CreateAccount);
    var r := AddRoute(r, LOGIN_PATH, POST, LoginEndpoint);
    var r := AddRoute(r, LOGOUT_PATH, GET, LogoutEndpoint);
    AddRoute(r, HEALTH_CHECK_PATH, GET, HealthCheck)
  }

  /// Where a request goes: a handler, the login guard's 401, axum's 405
  /// for a known path with another method, or the fallback.
  datatype Routed = Run(endpoint: Endpoint) | Unauthorized | MethodNotAllowed | NoRoute

  /// Whether a registered route answers `m` at `path`: a route answers its
  /// own method, and a `get(handler)` route answers HEAD as well.
  predicate Serves(entry: RouteEntry, path: string, m: HttpMethod)
  {
    entry.path == path && (entry.verb == m || (entry.verb == GET && m == HEAD))
  }

  /// The index of the first registered route that answers (path, m), or
  /// the table's length when none does.
  function FirstIndex(routes: seq<RouteEntry>, path: string, m: HttpMethod): (k: nat)
    ensures k <= |routes|
    ensures k < |routes| ==> Serves(routes[k], path, m)
    ensures forall j :: 0 <= j < k ==> !Serves(routes[j], path, m)
  {
    if routes == [] then 0
    else if Serves(routes[0], path, m) then 0
    else
      var k := FirstIndex(routes[1..], path, m);
      assert forall j :: 1 <= j < |routes| ==> routes[j] == routes[1..][j - 1];
      k + 1
  }

  predicate HasPath(routes: seq<RouteEntry>, path: string)
  {
    exists i :: 0 <= i < |routes| && routes[i].path == path
  }

  /// Routing of one request, given whether its session resolves to a user:
  /// the first route answering (path, method) runs, unless it is guarded
  /// and nobody is logged in; a known path answers 405 to a method none of
  /// its routes answers; an unknown path goes to the fallback.
  function Dispatch(r: Router, m: HttpMethod, path: string, loggedIn: bool): (routed: Routed)
    ensures var k := FirstIndex(r.routes, path, m);
      k < |r.routes| ==>
        routed == if r.routes[k].requiresLogin && !loggedIn then Unauthorized else Run(r.routes[k].endpoint)
    ensures routed == MethodNotAllowed <==>
      HasPath(r.routes, path) && forall i :: 0 <= i < |r.routes| ==> !Serves(r.routes[i], path, m)
    ensures routed == NoRoute <==> !HasPath(r.routes, path)
  {
    var k := FirstIndex(r.routes, path, m);
    if k < |r.routes| then
      if r.routes[k].requiresLogin && !loggedIn then Unauthorized else Run(r.routes[k].endpoint)
    else if HasPath(r.routes, path) then MethodNotAllowed
    else NoRoute
  }

  /// Which of the app's routes answers a request first: 5 when none does.
  lemma AppFirstIndex(path: string, m: HttpMethod)
    ensures FirstIndex(AppRouter().routes, path, m) ==
      if path == ACCOUNT_PATH && (m == GET || m == HEAD) then 0
      else if path == ACCOUNT_PATH && m == POST then 1
      else if path == LOGIN_PATH && m == POST then 2
      else if path == LOGOUT_PATH && (m == GET || m == HEAD) then 3
      else if path == HEALTH_CHECK_PATH && (m == GET || m == HEAD) then 4
      else 5
  {
    var routes := AppRouter().routes;
    var e := if path == ACCOUNT_PATH && (m == GET || m == HEAD) then 0
      else if path == ACCOUNT_PATH && m == POST then 1
      else if path == LOGIN_PATH && m == POST then 2
      else if path == LOGOUT_PATH && (m == GET || m == HEAD) then 3
      else if path == HEALTH_CHECK_PATH && (m == GET || m == HEAD) then 4
      else 5;
    assert e < 5 ==> Serves(routes[e], path, m);
    assert forall j :: 0 <= j < e ==> !Serves(routes[j], path, m);
  }

  /// `GET /api/account` (and the HEAD it implies) is the one guarded route:
  /// it is the only request an anonymous session is refused ...
  lemma {:induction false} OnlyAccountDetailsGuarded(m: HttpMethod, path: string)
    ensures Dispatch(AppRouter(), m, path, false) == Unauthorized <==> (m == GET || m == HEAD) && path == ACCOUNT_PATH
  {
    AppFirstIndex(path, m);
  }

  /// ... and a logged-in session changes the routing of nothing else.
  lemma {:induction false} SessionMattersOnlyForGuardedRoute(m: HttpMethod, path: string)
    requires !((m == GET || m == HEAD) && path == ACCOUNT_PATH)
    ensures Dispatch(AppRouter(), m, path, true) == Dispatch(AppRouter(), m, path, false)
  {
    AppFirstIndex(path, m);
  }

  /// The guarded route reaches its handler only when logged in.
  lemma {:induction false} AccountDetailsNeedsLogin(m: HttpMethod, loggedIn: bool)
    requires m == GET || m == HEAD
    ensures Dispatch(AppRouter(), m, ACCOUNT_PATH, loggedIn) == if loggedIn then Run(GetAccountDetails) else Unauthorized
  {
    AppFirstIndex(ACCOUNT_PATH, m);
  }

  /// The public routes reach their handlers with or without a session;
  /// logout and the health check answer HEAD too.
  lemma {:induction false} PublicRoutes(loggedIn: bool)
    ensures Dispatch(AppRouter(), POST, ACCOUNT_PATH, loggedIn) == Run(CreateAccount)
    ensures Dispatch(AppRouter(), POST, LOGIN_PATH, loggedIn) == Run(LoginEndpoint)
    ensures Dispatch(AppRouter(), GET, LOGOUT_PATH, loggedIn) == Run(LogoutEndpoint)
    ensures Dispatch(AppRouter(), HEAD, LOGOUT_PATH, loggedIn) == Run(LogoutEndpoint)
    ensures Dispatch(AppRouter(), GET, HEALTH_CHECK_PATH, loggedIn) == Run(HealthCheck)
    ensures Dispatch(AppRouter(), HEAD, HEALTH_CHECK_PATH, loggedIn) == Run(HealthCheck)
  {
    AppFirstIndex(ACCOUNT_PATH, POST);
    AppFirstIndex(LOGIN_PATH, POST);
    AppFirstIndex(LOGOUT_PATH, GET);
    AppFirstIndex(LOGOUT_PATH, HEAD);
    AppFirstIndex(HEALTH_CHECK_PATH, GET);
    AppFirstIndex(HEALTH_CHECK_PATH, HEAD);
  }

  /// Whatever the method and path, the account details handler runs only
  /// for a logged-in session.
  lemma {:induction false} AccountDetailsRunOnlyLoggedIn(m: HttpMethod, path: string, loggedIn: bool)
    ensures Dispatch(AppRouter(), m, path, loggedIn) == Run(GetAccountDetails) ==> loggedIn
  {
    AppFirstIndex(path, m);
  }

  /// Any other path falls through to `fallback_handler`.
  lemma {:induction false} UnknownPathsFallBack(m: HttpMethod, path: string, loggedIn: bool)
    requires path !in {ACCOUNT_PATH, LOGIN_PATH, LOGOUT_PATH, HEALTH_CHECK_PATH}
    ensures Dispatch(AppRouter(), m, path, loggedIn) == NoRoute
  {
  }

  /// `fallback_handler`: 404 naming the request's URI.
  function FallbackHandler(uri: string): (reply: Reply<string>)
    ensures reply.status == NOT_FOUND
    ensures |reply.body| == |NO_ROUTE_FOR| + |uri|
    ensures reply.body[..|NO_ROUTE_FOR|] == NO_ROUTE_FOR && reply.body[|NO_ROUTE_FOR|..] == uri
  {
    Reply(NOT_FOUND, NO_ROUTE_FOR + uri)
  }

  /// An inbound request: method, path, query string (if any), and the JSON
  /// body, which only the login route reads.
  datatype Request = Request(verb: HttpMethod, path: string, query: Option<string>, login: LoginUser)

  /// The request's URI as `Display for Uri` prints it: the path, then
  /// `?` and the query when there is one.
  function Uri(req: Request): string
  {
    match req.query
    case None => req.path
    case Some(q) => req.path + "?" + q
  }

  /// What the server answers. `Delegated` stands for the handlers whose
  /// code is not part of this model (account details, health check), with
  /// the user the request was authenticated as.
  datatype Response = Plain(reply: Reply<string>) | Delegated(endpoint: Endpoint, user: Option<User>)

  /// The routing decision for a request under a session binding.
  function RouteOf(rows: seq<UserRow>, session: Option<string>, req: Request): Routed
  {
    Dispatch(AppRouter(), req.verb, req.path, CurrentUser(rows, session).Some?)
  }

  /// The running server: the session and auth layers, both keyed with the
  /// same secret, over the users table and the session binding.
  class App {
    const sessionSecret: seq<byte>
    const authSecret: seq<byte>
    const users: UsersTable
    const auth: AuthContext

    /// `run`: one 64-byte secret, drawn once (`secret`), keys both layers.
    constructor (secret: seq<byte>, users: UsersTable)
      requires |secret| == SECRET_LENGTH
      ensures sessionSecret == secret && authSecret == secret
      ensures this.users == users && fresh(auth) && auth.sessionUserId == None
    {
      sessionSecret := secret;
      authSecret := secret;
      this.users := users;
      auth := new AuthContext();
    }

    /// Serves one request. `sessionAccepts` is whether the session store
    /// accepts a login, should the request be one.
    method Serve(req: Request, sessionAccepts: bool) returns (resp: Response)
      modifies auth
      ensures RouteOf(users.rows, old(auth.sessionUserId), req) == Unauthorized ==>
                resp == Plain(Reply(UNAUTHORIZED, "")) && auth.sessionUserId == old(auth.sessionUserId)
      ensures RouteOf(users.rows, old(auth.sessionUserId), req) == NoRoute ==>
                resp == Plain(FallbackHandler(Uri(req))) && auth.sessionUserId == old(auth.sessionUserId)
      ensures RouteOf(users.rows, old(auth.sessionUserId), req) == MethodNotAllowed ==>
                resp == Plain(Reply(METHOD_NOT_ALLOWED, "")) && auth.sessionUserId == old(auth.sessionUserId)
      ensures RouteOf(users.rows, old(auth.sessionUserId), req) == Run(LoginEndpoint) ==>
                resp == Plain(LoginReply(users.rows, req.login, sessionAccepts)) &&
                auth.sessionUserId == (if resp.reply.status == OK
                                       then Some(GetId(AsUser(FindByEmail(users.rows, req.login.email).value)))
                                       else old(auth.sessionUserId))
      ensures users.Valid() && RouteOf(users.rows, old(auth.sessionUserId), req) == Run(LoginEndpoint) &&
              resp.reply.status == OK ==>
                CurrentUser(users.rows, auth.sessionUserId) == Some(AsUser(FindByEmail(users.rows, req.login.email).value))
      ensures RouteOf(users.rows, old(auth.sessionUserId), req) == Run(LogoutEndpoint) ==>
                resp == Plain(Reply(OK, "")) && auth.sessionUserId == None
      ensures RouteOf(users.rows, old(auth.sessionUserId), req) == Run(CreateAccount) ==>
                resp == Plain(Reply(CREATED, "")) && auth.sessionUserId == old(auth.sessionUserId)
      ensures RouteOf(users.rows, old(auth.sessionUserId), req) == Run(GetAccountDetails) ==>
                resp == Delegated(GetAccountDetails, CurrentUser(users.rows, old(auth.sessionUserId))) &&
                resp.user.Some? && auth.sessionUserId == old(auth.sessionUserId)
      ensures RouteOf(users.rows, old(auth.sessionUserId), req) == Run(HealthCheck) ==>
                resp == Delegated(HealthCheck, CurrentUser(users.rows, old(auth.sessionUserId))) &&
                auth.sessionUserId == old(auth.sessionUserId)
    {
      var user := CurrentUser(users.rows, auth.sessionUserId);
      var routed := Dispatch(AppRouter(), req.verb, req.path, user.Some?);
      AccountDetailsRunOnlyLoggedIn(req.verb, req.path, user.Some?);
      resp := Handle(routed, req, user, sessionAccepts);
      if users.Valid() && routed == Run(LoginEndpoint) && resp.reply.status == OK {
        LoginThenResolve(users.rows, req.login);
      }
    }

    /// Carries out a routing decision: the guard's 401, the fallback, 405,
    /// or the handler, given the user the session resolved to.
    method Handle(routed: Routed, req: Request, user: Option<User>, sessionAccepts: bool) returns (resp: Response)
      modifies auth
      ensures routed == Unauthorized ==> resp == Plain(Reply(UNAUTHORIZED, "")) && unchanged(auth)
      ensures routed == NoRoute ==> resp == Plain(FallbackHandler(Uri(req))) && unchanged(auth)
      ensures routed == MethodNotAllowed ==> resp == Plain(Reply(METHOD_NOT_ALLOWED, "")) && unchanged(auth)
      ensures routed == Run(LoginEndpoint) ==>
                resp == Plain(LoginReply(users.rows, req.login, sessionAccepts)) &&
                auth.sessionUserId == (if resp.reply.status == OK
                                       then Some(GetId(AsUser(FindByEmail(users.rows, req.login.email).value)))
                                       else old(auth.sessionUserId))
      ensures routed == Run(LogoutEndpoint) ==> resp == Plain(Reply(OK, "")) && auth.sessionUserId == None
      ensures routed == Run(CreateAccount) ==> resp == Plain(Reply(CREATED, "")) && unchanged(auth)
      ensures routed == Run(GetAccountDetails) ==> resp == Delegated(GetAccountDetails, user) && unchanged(auth)
      ensures routed == Run(HealthCheck) ==> resp == Delegated(HealthCheck, user) && unchanged(auth)
    {
      match routed {
        case Unauthorized =>
          resp := Plain(Reply(UNAUTHORIZED, ""));
        case NoRoute =>
          resp := Plain(FallbackHandler(Uri(req)));
        case MethodNotAllowed =>
          resp := Plain(Reply(METHOD_NOT_ALLOWED, ""));
        case Run(endpoint) =>
          match endpoint {
            case LoginEndpoint =>
              var reply := LoginHandler(auth, users.rows, req.login, sessionAccepts);
              resp := Plain(reply);
            case LogoutEndpoint =>
              var reply := LogoutHandler(auth);
              resp := Plain(reply);
            case CreateAccount =>
              // `create_account` is a stub: it writes nothing and answers 201.
              resp := Plain(Reply(CREATED, ""));
            case GetAccountDetails =>
              resp := Delegated(GetAccountDetails, user);
            case HealthCheck =>
              resp := Delegated(HealthCheck, user);
          }
      }
    }
  }

  const TOTO_NAME := "toto"
  const TOTO_EMAIL := "toto@email.com"
  const TOTO_PASSWORD := "my super password"

  /// The login / account details / logout sequence of the integration test:
  /// a login before the user exists is refused, the account route answers
  /// 201, a login after the user is stored succeeds, the account details are
  /// served for that user, logout answers 200, and the account details are
  /// then refused with 401. Because `create_account` writes nothing, the
  /// user is stored by `insert_user_in_table` between the two logins.
  method LoginDetailsLogout(secret: seq<byte>, id: Uuid)
    returns (r0: Response, r1: Response, r2: Response, r3: Response, r4: Response, r5: Response)
    requires |secret| == SECRET_LENGTH
    ensures r0 == Plain(Reply(UNAUTHORIZED, LOGIN_FAILED))
    ensures r1 == Plain(Reply(CREATED, ""))
    ensures r2 == Plain(Reply(OK, LOGGED_IN))
    ensures r3 == Delegated(GetAccountDetails, Some(User(id, TOTO_EMAIL, TOTO_PASSWORD)))
    ensures r4 == Plain(Reply(OK, ""))
    ensures r5 == Plain(Reply(UNAUTHORIZED, ""))
  {
    var users := new UsersTable();
    var app := new App(secret, users);
    r0, r1 := BeforeSignup(app);
    var inserted := users.InsertUser(NewUser(TOTO_NAME, TOTO_EMAIL, TOTO_PASSWORD), id, None);
    assert users.rows == [UserRow(id, TOTO_NAME, TOTO_EMAIL, TOTO_PASSWORD)];
    r2, r3, r4, r5 := AfterSignup(app, id);
  }

  /// The same login and logout as the integration test sends them, to
  /// `/login` and `/logout`: no route registers those paths, so both are
  /// answered by the fallback with 404, whatever the session and the table
  /// hold, and never with the 401 and 200 the test expects of them.
  method TestPathsAsWritten(app: App, body: LoginUser) returns (login: Response, logout: Response)
    modifies app.auth
    ensures login == Plain(FallbackHandler("/login")) && login.reply.status == NOT_FOUND
    ensures logout == Plain(FallbackHandler("/logout")) && logout.reply.status == NOT_FOUND
    ensures app.auth.sessionUserId == old(app.auth.sessionUserId)
  {
    var loggedIn := CurrentUser(app.users.rows, app.auth.sessionUserId).Some?;
    UnknownPathsFallBack(POST, "/login", loggedIn);
    login := app.Serve(Request(POST, "/login", None, body), true);
    loggedIn := CurrentUser(app.users.rows, app.auth.sessionUserId).Some?;
    UnknownPathsFallBack(GET, "/logout", loggedIn);
    logout := app.Serve(Request(GET, "/logout", None, body), true);
  }

  /// The first half of the sequence, on an empty table: the login is
  /// refused and the account route answers 201; the session stays anonymous.
  method BeforeSignup(app: App) returns (r0: Response, r1: Response)
    requires app.users.rows == [] && app.auth.sessionUserId == None
    modifies app.auth
    ensures r0 == Plain(Reply(UNAUTHORIZED, LOGIN_FAILED))
    ensures r1 == Plain(Reply(CREATED, ""))
    ensures app.auth.sessionUserId == None
  {
    r0 := RefusedLogin(app);
    var body := LoginUser(TOTO_EMAIL, TOTO_PASSWORD);
    PublicRoutes(false);
    assert RouteOf(app.users.rows, None, Request(POST, ACCOUNT_PATH, None, body)) == Run(CreateAccount);
    r1 := app.Serve(Request(POST, ACCOUNT_PATH, None, body), true);
  }

  /// A login for an email nobody has registered is refused, and the session
  /// stays anonymous.
  method RefusedLogin(app: App) returns (r0: Response)
    requires app.users.rows == [] && app.auth.sessionUserId == None
    modifies app.auth
    ensures r0 == Plain(Reply(UNAUTHORIZED, LOGIN_FAILED))
    ensures app.auth.sessionUserId == None
  {
    var body := LoginUser(TOTO_EMAIL, TOTO_PASSWORD);
    AppFirstIndex(LOGIN_PATH, POST);
    assert !EmailTaken([], TOTO_EMAIL);
    assert LoginReply([], body, true) == Reply(UNAUTHORIZED, LOGIN_FAILED);
    r0 := app.Serve(Request(POST, LOGIN_PATH, None, body), true);
  }

  /// The second half, once the user is stored: login succeeds, the account
  /// details are served for that user, logout answers 200, and the account
  /// details are then refused.
  method AfterSignup(app: App, id: Uuid) returns (r2: Response, r3: Response, r4: Response, r5: Response)
    requires app.users.rows == [UserRow(id, TOTO_NAME, TOTO_EMAIL, TOTO_PASSWORD)]
    requires app.auth.sessionUserId == None
    modifies app.auth
    ensures r2 == Plain(Reply(OK, LOGGED_IN))
    ensures r3 == Delegated(GetAccountDetails, Some(User(id, TOTO_EMAIL, TOTO_PASSWORD)))
    ensures r4 == Plain(Reply(OK, ""))
    ensures r5 == Plain(Reply(UNAUTHORIZED, ""))
  {
    r2 := SuccessfulLogin(app, id);
    var details := Request(GET, ACCOUNT_PATH, None, LoginUser(TOTO_EMAIL, TOTO_PASSWORD));
    AccountDetailsNeedsLogin(GET, true);
    r3 := app.Serve(details, true);
    r4, r5 := LogoutThenRefused(app);
  }

  /// A login for the stored user succeeds, and the session then resolves
  /// to that user.
  method SuccessfulLogin(app: App, id: Uuid) returns (r2: Response)
    requires app.users.rows == [UserRow(id, TOTO_NAME, TOTO_EMAIL, TOTO_PASSWORD)]
    requires app.auth.sessionUserId == None
    modifies app.auth
    ensures r2 == Plain(Reply(OK, LOGGED_IN))
    ensures CurrentUser(app.users.rows, app.auth.sessionUserId) == Some(User(id, TOTO_EMAIL, TOTO_PASSWORD))
  {
    var body := LoginUser(TOTO_EMAIL, TOTO_PASSWORD);
    var row := UserRow(id, TOTO_NAME, TOTO_EMAIL, TOTO_PASSWORD);
    var rows := app.users.rows;
    assert EmailTaken(rows, TOTO_EMAIL) by {
      assert rows[0].email == TOTO_EMAIL;
    }
    assert FindByEmail(rows, TOTO_EMAIL) == Some(row);
    AppFirstIndex(LOGIN_PATH, POST);
    r2 := app.Serve(Request(POST, LOGIN_PATH, None, body), true);
    assert app.auth.sessionUserId == Some(GetId(AsUser(row)));
    LoginThenResolve(rows, body);
  }

  /// Whatever the session and the table, logout answers 200, and the
  /// account details are refused with 401 afterwards.
  method LogoutThenRefused(app: App) returns (r4: Response, r5: Response)
    modifies app.auth
    ensures r4 == Plain(Reply(OK, ""))
    ensures r5 == Plain(Reply(UNAUTHORIZED, ""))
    ensures app.auth.sessionUserId == None
  {
    var body := LoginUser(TOTO_EMAIL, TOTO_PASSWORD);
    AppFirstIndex(LOGOUT_PATH, GET);
    r4 := app.Serve(Request(GET, LOGOUT_PATH, None, body), true);
    AccountDetailsNeedsLogin(GET, false);
    r5 := app.Serve(Request(GET, ACCOUNT_PATH, None, body), true);
  }
}
