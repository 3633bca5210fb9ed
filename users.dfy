/// The `users` table: the insert of car_api/src/routes/user.rs and the two
/// lookups the login flow issues against it (by email in
/// car_api/src/routes/authenticate.rs, by `id::text` in the user store of
/// car_api/src/startup.rs).
module Users {
  import opened Common
  import opened Errors
  import opened Uuid

  const USER_ALREADY_EXISTS := "user already exist"
  /// The unique constraint on `users.email` (the schema is not part of
  /// this model; Postgres names such a constraint `users_email_key`).
  const EMAIL_CONSTRAINT := "users_email_key"

  /// The request to create a user.
  datatype NewUser = NewUser(userName: string, email: string, password: string)

  /// A row of `users` (timestamps are not modelled).
  datatype UserRow = UserRow(id: Uuid, userName: string, email: string, passwordHash: string)

  /// The `map_err` of `insert_user_in_table`: a database error that names a
  /// constraint means the user exists; anything else is an internal error.
  function ClassifyInsertError(err: DbError): (e: Error)
    ensures (err.kind.Database? && err.kind.constraint.Some?) ==> e == Conflict(USER_ALREADY_EXISTS)
    ensures !(err.kind.Database? && err.kind.constraint.Some?) ==> e == Sqlx(err)
  {
    match err.kind
    case Database(Some(_)) => Conflict(USER_ALREADY_EXISTS)
    case _ => Sqlx(err)
  }

  /// Seen over HTTP: 409 exactly for constraint violations, 500 otherwise.
  lemma InsertErrorStatus(err: DbError)
    ensures StatusCode(ClassifyInsertError(err)) == CONFLICT <==> err.kind.Database? && err.kind.constraint.Some?
    ensures StatusCode(ClassifyInsertError(err)) == INTERNAL_SERVER_ERROR <==> !(err.kind.Database? && err.kind.constraint.Some?)
  {
  }

  predicate EmailTaken(rows: seq<UserRow>, email: string)
  {
    exists i :: 0 <= i < |rows| && rows[i].email == email
  }

  predicate IdTaken(rows: seq<UserRow>, id: Uuid)
  {
    exists i :: 0 <= i < |rows| && rows[i].id == id
  }

  /// The error the database reports for an insert that would repeat an email.
  const DUPLICATE_EMAIL := DbError(Database(Some(EMAIL_CONSTRAINT)),
                                   "duplicate key value violates unique constraint \"users_email_key\"")

  /// What the single INSERT statement yields: the failure the database
  /// reports, if any (`fault` stands for failures the model does not
  /// derive, such as a lost connection, and comes first).
  function InsertFailure(rows: seq<UserRow>, email: string, fault: Option<DbError>): Option<DbError>
  {
    if fault.Some? then fault
    else if EmailTaken(rows, email) then Some(DUPLICATE_EMAIL)
    else None
  }

  /// `SELECT * FROM users WHERE email=$1`, fetched with `fetch_optional`:
  /// the first row with that email, if any.
  function FindByEmail(rows: seq<UserRow>, email: string): (r: Option<UserRow>)
    ensures r.None? <==> !EmailTaken(rows, email)
    ensures r.Some? ==> r.value in rows && r.value.email == email
  {
    if rows == [] then None
    else if rows[0].email == email then Some(rows[0])
    else
      var rest := FindByEmail(rows[1..], email);
      assert EmailTaken(rows, email) <==> EmailTaken(rows[1..], email) by {
        if EmailTaken(rows[1..], email) {
          var i :| 0 <= i < |rows[1..]| && rows[1..][i].email == email;
          assert rows[i + 1].email == email;
        }
        if EmailTaken(rows, email) {
          var i :| 0 <= i < |rows| && rows[i].email == email;
          assert rows[1..][i - 1].email == email;
        }
      }
      rest
  }

  /// `SELECT * FROM users WHERE id::text = $1`: the first row whose id
  /// prints as `text`.
  function FindByIdText(rows: seq<UserRow>, text: string): (r: Option<UserRow>)
    ensures r.Some? ==> r.value in rows && ToText(r.value.id) == text
    ensures r.None? ==> forall i :: 0 <= i < |rows| ==> ToText(rows[i].id) != text
  {
    if rows == [] then None
    else if ToText(rows[0].id) == text then Some(rows[0])
    else
      var rest := FindByIdText(rows[1..], text);
      assert forall i :: 1 <= i < |rows| ==> rows[i] == rows[1..][i - 1];
      rest
  }

  /// The table's constraints: ids are a primary key, emails are unique.
  ghost predicate UniqueKeys(rows: seq<UserRow>)
  {
    (forall i, j :: 0 <= i < j < |rows| ==> rows[i].id != rows[j].id) &&
    (forall i, j :: 0 <= i < j < |rows| ==> rows[i].email != rows[j].email)
  }

  /// Under unique ids, looking a row up by the text of its own id finds it.
  lemma {:induction false} FindByIdTextOwnId(rows: seq<UserRow>, k: nat)
    requires UniqueKeys(rows)
    requires k < |rows|
    ensures FindByIdText(rows, ToText(rows[k].id)) == Some(rows[k])
  {
    var i := 0;
    while i < k
      invariant 0 <= i <= k
      invariant FindByIdText(rows, ToText(rows[k].id)) == FindByIdText(rows[i..], ToText(rows[k].id))
    {
      TextInjective(rows[i].id, rows[k].id);
      assert rows[i..][1..] == rows[i + 1..];
      i := i + 1;
    }
  }

  /// Under unique emails, looking a row up by its email finds it.
  lemma {:induction false} FindByEmailOwnEmail(rows: seq<UserRow>, k: nat)
    requires UniqueKeys(rows)
    requires k < |rows|
    ensures FindByEmail(rows, rows[k].email) == Some(rows[k])
  {
    var i := 0;
    while i < k
      invariant 0 <= i <= k
      invariant FindByEmail(rows, rows[k].email) == FindByEmail(rows[i..], rows[k].email)
    {
      assert rows[i..][1..] == rows[i + 1..];
      i := i + 1;
    }
  }

  /// The `users` table, updated in place by inserts.
  class UsersTable {
    var rows: seq<UserRow>

    ghost predicate Valid()
      reads this
    {
      UniqueKeys(rows)
    }

    constructor ()
      ensures Valid() && rows == []
    {
      rows := [];
    }

    /// `insert_user_in_table`: one INSERT of (user_name, email, password)
    /// RETURNING the id the database generated (`newId`). The password is
    /// stored as given in `password_hash`. On failure nothing is written
    /// and the error is classified by `ClassifyInsertError`.
    method InsertUser(user: NewUser, newId: Uuid, fault: Option<DbError>) returns (r: Result<Uuid>)
      requires Valid()
      requires !IdTaken(rows, newId)
      modifies this
      ensures Valid()
      ensures r.Ok? <==> InsertFailure(old(rows), user.email, fault).None?
      ensures r.Ok? ==> r.value == newId &&
                        rows == old(rows) + [UserRow(newId, user.userName, user.email, user.password)]
      ensures r.Err? ==> rows == old(rows) &&
                         r.error == ClassifyInsertError(InsertFailure(old(rows), user.email, fault).value)
    {
      var failure := InsertFailure(rows, user.email, fault);
      match failure {
        case Some(err) =>
          r := Err(ClassifyInsertError(err));
        case None =>
          rows := rows + [UserRow(newId, user.userName, user.email, user.password)];
          r := Ok(newId);
      }
    }
  }
}
