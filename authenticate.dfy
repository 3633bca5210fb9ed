/// Login, logout and the authenticated user (car_api/src/routes/authenticate.rs).
/// The session is reduced to the one thing the handlers change: the id of
/// the user it is bound to, if any.
module Authenticate {
  import opened Common
  import opened Errors
  import opened Uuid
  import opened Users

  const LOGIN_FAILED := "Couldn't login user"
  const LOGGED_IN := "User logged in"
  const LOGGED_IN_AS := "Logged in as: "

  /// `User`: the columns of a `users` row that authentication reads.
  datatype User = User(id: Uuid, email: string, passwordHash: string)

  /// The login request body.
  datatype LoginUser = LoginUser(email: string, passwordHash: string)

  /// `sqlx::FromRow` for `User` over `SELECT *`.
  function AsUser(row: UserRow): User
  {
    User(row.id, row.email, row.passwordHash)
  }

  /// `AuthUser::get_id`: the text form of the id, from which the id can be
  /// read back.
  function GetId(u: User): (t: string)
    ensures |t| == 36 && FromText(t) == u.id
  {
    TextRoundTrip(u.id);
    ToText(u.id)
  }

  /// `AuthUser::get_password_hash`: the stored hash, unchanged.
  function GetPasswordHash(u: User): (h: string)
    ensures h == u.passwordHash
  {
    u.passwordHash
  }

  /// `protected_handler`: greets the authenticated user by email.
  function ProtectedHandler(u: User): (body: string)
    ensures |body| == |LOGGED_IN_AS| + |u.email|
    ensures body[..|LOGGED_IN_AS|] == LOGGED_IN_AS && body[|LOGGED_IN_AS|..] == u.email
  {
    LOGGED_IN_AS + u.email
  }

  /// The reply of `login_handler`: the user is looked up by email alone,
  /// and both failures (no such email, the session refusing the login)
  /// give the same 401.
  function LoginReply(rows: seq<UserRow>, body: LoginUser, sessionAccepts: bool): (r: Reply<string>)
    ensures r.status == OK <==> EmailTaken(rows, body.email) && sessionAccepts
    ensures r.status == OK ==> r.body == LOGGED_IN
    ensures r.status != OK ==> r == Reply(UNAUTHORIZED, LOGIN_FAILED)
  {
    match FindByEmail(rows, body.email)
    case Some(_) => if sessionAccepts then Reply(OK, LOGGED_IN) else Reply(UNAUTHORIZED, LOGIN_FAILED)
    case None => Reply(UNAUTHORIZED, LOGIN_FAILED)
  }

  /// The submitted `password_hash` plays no part in the outcome.
  lemma LoginIgnoresPassword(rows: seq<UserRow>, email: string, p1: string, p2: string, sessionAccepts: bool)
    ensures LoginReply(rows, LoginUser(email, p1), sessionAccepts) == LoginReply(rows, LoginUser(email, p2), sessionAccepts)
  {
  }

  /// An unknown email and a refused login cannot be told apart.
  lemma LoginFailuresIndistinguishable(rows: seq<UserRow>, unknown: LoginUser, known: LoginUser)
    requires !EmailTaken(rows, unknown.email)
    requires EmailTaken(rows, known.email)
    ensures LoginReply(rows, unknown, true) == LoginReply(rows, known, false)
  {
  }

  /// The authentication context of a request: the session's user binding.
  class AuthContext {
    var sessionUserId: Option<string>

    constructor ()
      ensures sessionUserId == None
    {
      sessionUserId := None;
    }

    /// `auth.login`: binds the session to the user's id, unless the session
    /// store refuses (`sessionAccepts` false), in which case nothing changes.
    method Login(u: User, sessionAccepts: bool) returns (ok: bool)
      modifies this
      ensures ok == sessionAccepts
      ensures sessionUserId == if ok then Some(GetId(u)) else old(sessionUserId)
    {
      ok := sessionAccepts;
      if ok {
        sessionUserId := Some(GetId(u));
      }
    }

    /// `auth.logout`: drops the binding; logging out twice is harmless.
    method Logout()
      modifies this
      ensures sessionUserId == None
    {
      sessionUserId := None;
    }
  }

  /// `login_handler`.
  method LoginHandler(auth: AuthContext, rows: seq<UserRow>, body: LoginUser, sessionAccepts: bool)
    returns (reply: Reply<string>)
    modifies auth
    ensures reply == LoginReply(rows, body, sessionAccepts)
    ensures reply.status == OK ==> auth.sessionUserId == Some(GetId(AsUser(FindByEmail(rows, body.email).value)))
    ensures reply.status != OK ==> auth.sessionUserId == old(auth.sessionUserId)
  {
    var user := FindByEmail(rows, body.email);
    match user {
      case Some(row) =>
        var ok := auth.Login(AsUser(row), sessionAccepts);
        if ok {
          reply := Reply(OK, LOGGED_IN);
        } else {
          reply := Reply(UNAUTHORIZED, LOGIN_FAILED);
        }
      case None =>
        reply := Reply(UNAUTHORIZED, LOGIN_FAILED);
    }
  }

  /// `logout_handler`: replies 200 with an empty body.
  method LogoutHandler(auth: AuthContext) returns (reply: Reply<string>)
    modifies auth
    ensures auth.sessionUserId == None
    ensures reply == Reply(OK, "")
  {
    auth.Logout();
    reply := Reply(OK, "");
  }

  /// The user a session binding resolves to on the next request, through
  /// the user store's `id::text = $1` query.
  function CurrentUser(rows: seq<UserRow>, sessionUserId: Option<string>): (u: Option<User>)
    ensures u.Some? ==> sessionUserId.Some? && ToText(u.value.id) == sessionUserId.value
    ensures u.Some? ==> exists i :: 0 <= i < |rows| && AsUser(rows[i]) == u.value
    ensures sessionUserId.None? ==> u.None?
    ensures sessionUserId.Some? && (exists i :: 0 <= i < |rows| && ToText(rows[i].id) == sessionUserId.value) ==>
              u.Some?
  {
    match sessionUserId
    case None => None
    case Some(text) =>
      match FindByIdText(rows, text)
      case None => None
      case Some(row) => Some(AsUser(row))
  }

  /// After a successful login the next request is made by the user that
  /// logged in: `get_id` and the `id::text` lookup agree.
  lemma {:induction false} LoginThenResolve(rows: seq<UserRow>, body: LoginUser)
    requires UniqueKeys(rows)
    requires EmailTaken(rows, body.email)
    ensures CurrentUser(rows, Some(GetId(AsUser(FindByEmail(rows, body.email).value))))
         == Some(AsUser(FindByEmail(rows, body.email).value))
  {
    var row := FindByEmail(rows, body.email).value;
    var k :| 0 <= k < |rows| && rows[k] == row;
    FindByIdTextOwnId(rows, k);
  }
}
