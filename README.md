# car_api core, modelled in Dafny

A model of the core of the `car_api` web service, with proofs about it. The
service is an axum and Postgres backend. The model covers:

- **Field encryption** (`Encrypt`): `encrypt_data` / `decrypt_data`. AES-256-GCM is
  keyed by PBKDF2-HMAC-SHA512 (section 5.2 of RFC 8018, 10000 iterations,
  32-byte key) from `ENCRYPTION_SECRET` and a fresh 64-byte salt. The stored text is the base64 of
  `salt(64) ++ iv(16) ++ tag(16) ++ ciphertext`, which `decrypt` slices apart at 64, 80 and 96.
  OpenSSL's PBKDF2, GCM, base64 and the UTF-8 views are values of a `Primitives` datatype.
  The predicate `Lawful` states the only facts the proofs use: the key length, the tag length,
  that GCM opening inverts sealing, that base64 decoding inverts encoding, and the UTF-8 round trip.
  `rand_bytes` fills its buffer from an `entropy` parameter.
- **Errors** (`Errors`): the `Error` enum, its display texts, `status_code`, and the JSON body
  `into_response` renders.
- **Users** (`Users`): the `users` table as a class with an in-place `InsertUser`. It classifies
  insert errors (a named constraint means 409 "user already exist"). It also holds the two lookups
  that login and the session store issue: by email, and by `id::text`.
- **Authentication** (`Authenticate`, `Uuid`): `login_handler`, `logout_handler` and
  `protected_handler`, plus `get_id` / `get_password_hash`. The session is the one thing the
  handlers change: an optional user id (its text form), held in the `AuthContext` class. `Uuid`
  models the hyphenated lower-case hex text of a UUID, with its parse round trip.
- **Routing** (`Startup`): the builder chain of `run` as a route table. It includes the login
  guard the `route_layer` puts on the routes registered before it, dispatch on
  (method, path, logged in), and the 404 fallback. A route built with `get` also answers HEAD,
  as axum's method router does. The `App` class serves requests over the
  users table and the session. `LoginDetailsLogout` replays the login / account details / logout
  integration test against it.
- **Notes** (`Note`): the `note` table as a class changed in place by `create_note`,
  `update_note` (COALESCE) and `delete_note`. The read-only `get_note_by_id`, `get_user_notes`
  and `get_user_notes_by_tags` are functions: filter, `ORDER BY created_at ASC` (an insertion
  sort), then `LIMIT`/`OFFSET`.

Database failures that the model does not derive (lost connection and the like) are a
`fault: Option<DbError>` parameter. Identifiers and timestamps the database generates are also
parameters, and so is whether the session store accepts a login.

Where the code and its comments or tests disagree, the model follows the code:

- Login looks the user up by email only. The submitted `password_hash` is never compared, because
  the argon2 check is commented out (`LoginIgnoresPassword`).
- `POST /api/account` (`create_account`) is a stub that writes nothing. It answers 201 for a
  body that deserializes into `CreateUser`. So the integration sequence stores its user through
  `insert_user_in_table` between the two logins.
- The routes are `/api/login` and `/api/logout`, not `/login` and `/logout`.
  `GET /api/logout` is not guarded; it answers 200 with or without a session.
- `insert_user_in_table` stores the submitted password verbatim in `password_hash`.
- With `ENCRYPTION_SECRET` unset, `decrypt_data` hands the stored value back unchanged; it does
  not fail.
- A decoded blob shorter than 96 bytes makes `decrypt` panic on an out-of-range slice
  (`Outcome.Panicked`); it does not return an error.
- `delete_note` answers with the text "note created with success", as the handler does.

## Model

| member | source | states |
|---|---|---|
| Errors.Message | car_api/src/errors.rs:11-21 | `Conflict(s)` displays `s` verbatim; `Sqlx`, `Openssl` and `InvalidEntity` each display their own fixed text |
| Errors.StatusCode | car_api/src/errors.rs:54-63 | total; 500 exactly for `Sqlx`/`Openssl`, 422 exactly for `InvalidEntity`, 409 exactly for `Conflict` |
| Errors.IntoResponse | car_api/src/errors.rs:24-50 | the response status is `status_code`, the message is the display text, and `errors` is present exactly for `InvalidEntity` (carrying its field errors) |
| Errors.ResponseIdentifiesVariant | car_api/src/errors.rs:37-48 | equal responses come from the same variant, and from equal errors for `Conflict` and `InvalidEntity` |
| Errors.InternalDetailsHidden | car_api/src/errors.rs:11-15 | any two database errors, or any two OpenSSL errors, render the same response |
| Uuid.TextRoundTrip | car_api/src/routes/authenticate.rs:31-33 | parsing the text `format!("{}", id)` prints gives the id back |
| Uuid.TextInjective | car_api/src/routes/authenticate.rs:31-33 | two ids have the same text exactly when they are equal |
| Encrypt.DeriveKey | car_api/src/encrypt.rs:33-39 | PBKDF2 yields exactly as many key bytes as the buffer holds |
| Encrypt.GetKey | car_api/src/encrypt.rs:27-42 | with the secret set, the key buffer ends holding PBKDF2(secret, salt, 10000) of its length (the unset-secret panic is its precondition) |
| Encrypt.RandBytes | car_api/src/encrypt.rs:57-61 | the buffer is overwritten with the random bytes drawn |
| Encrypt.EncryptAead | car_api/src/encrypt.rs:65 | returns the GCM ciphertext and writes the GCM tag into the 16-byte tag buffer |
| Encrypt.Encrypt | car_api/src/encrypt.rs:54-70 | returns the base64 of salt ++ iv ++ tag ++ ciphertext, with the drawn salt and iv and the key derived from the salt |
| Encrypt.EncryptData | car_api/src/encrypt.rs:72-79 | secret unset: `Conflict("failed to find ENCRYPTION_SECRET in env")`, which renders as 409, and nothing is encrypted; secret set: the sealed blob of the string's UTF-8 bytes, so `get_key`'s panic cannot be reached |
| Encrypt.SplitConcat | car_api/src/encrypt.rs:85-94 | slicing at 64/80/96 recovers salt, iv, tag and ciphertext from any well-formed concatenation |
| Encrypt.Split | car_api/src/encrypt.rs:91-94 | the four fixed-offset slices of a blob of at least 96 bytes form a well-formed frame: a 64-byte salt, a 16-byte iv, a 16-byte tag and the rest |
| Encrypt.ConcatSplit | car_api/src/encrypt.rs:91-94 | the four slices of any blob of at least 96 bytes concatenate back to it |
| Encrypt.Decode | car_api/src/encrypt.rs:47-52 | fails exactly when base64 decoding fails, and then with `Error::Openssl`; otherwise returns the decoded bytes |
| Encrypt.Decrypt | car_api/src/encrypt.rs:81-102 | panics exactly when the blob decodes to fewer than 96 bytes; every error it returns is `Error::Openssl` |
| Encrypt.DecryptData | car_api/src/encrypt.rs:104-115 | with the secret unset, returns its input unchanged |
| Encrypt.DecryptRederivesKey | car_api/src/encrypt.rs:96-97 | the key `decrypt` derives from the blob's embedded salt is the key `encrypt` sealed with |
| Encrypt.DecryptDataInvertsEncryptData | car_api/src/encrypt.rs:99-101 | with the secret set, decrypting what was stored for `s` returns `s` and never panics |
| Encrypt.FreshRandomnessGivesFreshBlob | car_api/src/encrypt.rs:57-61 | two encryptions that drew a different salt or iv store different texts |
| Users.ClassifyInsertError | car_api/src/routes/user.rs:40-46 | a database error naming a constraint becomes `Conflict("user already exist")`; anything else becomes `Sqlx` |
| Users.InsertErrorStatus | car_api/src/routes/user.rs:40-45 | an insert fails with 409 exactly for constraint violations and with 500 otherwise |
| Users.FindByEmail | car_api/src/routes/authenticate.rs:61-65 | none exactly when no row has the email; otherwise a row of the table with that email |
| Users.FindByEmailOwnEmail | car_api/src/routes/authenticate.rs:61-65 | with unique emails, looking up a row's email finds that row |
| Users.FindByIdText | car_api/src/startup.rs:30-31 | returns a row whose id prints as the given text; none when no row's id does |
| Users.FindByIdTextOwnId | car_api/src/startup.rs:30-31 | with unique ids, looking up the text of a row's id finds that row |
| Users.UsersTable.InsertUser | car_api/src/routes/user.rs:27-49 | success exactly when the INSERT does not fail; on success exactly one row (id, user_name, email, password verbatim) is appended and its id returned; on failure the table is unchanged and the error is classified; unique keys are kept |
| Authenticate.GetId | car_api/src/routes/authenticate.rs:31-33 | the 36-character text form of the id, which parses back to the id |
| Authenticate.GetPasswordHash | car_api/src/routes/authenticate.rs:35-37 | the stored `password_hash`, unchanged |
| Authenticate.ProtectedHandler | car_api/src/routes/authenticate.rs:80-82 | "Logged in as: " followed by the user's email |
| Authenticate.LoginReply | car_api/src/routes/authenticate.rs:56-74 | 200 "User logged in" exactly when the email is known and the session accepts the login; every other case is `(401, "Couldn't login user")` |
| Authenticate.LoginIgnoresPassword | car_api/src/routes/authenticate.rs:61-68 | the submitted `password_hash` does not affect the reply |
| Authenticate.LoginFailuresIndistinguishable | car_api/src/routes/authenticate.rs:67-72 | an unknown email and a refused login of a known email give identical replies |
| Authenticate.AuthContext.Login | car_api/src/routes/authenticate.rs:68-70 | when the session accepts, it is bound to `get_id` of the user; otherwise nothing changes |
| Authenticate.AuthContext.Logout | car_api/src/routes/authenticate.rs:76-78 | the session binding is cleared |
| Authenticate.LoginHandler | car_api/src/routes/authenticate.rs:56-74 | replies as `LoginReply`; on 200 the session is bound to the found user; on 401 the session is unchanged |
| Authenticate.LogoutHandler | car_api/src/routes/authenticate.rs:76-78 | the session is cleared and the reply is 200 with an empty body |
| Authenticate.CurrentUser | car_api/src/startup.rs:30-31 | an anonymous session resolves to no user; a resolved user is a row of the table whose id prints as the bound text; a binding that some row's id text matches always resolves |
| Authenticate.LoginThenResolve | car_api/src/routes/authenticate.rs:31-33 | with unique keys, the binding a successful login stores resolves on the next request to the user that logged in |
| Startup.RequireLogin | car_api/src/startup.rs:43 | guards every route registered before it and changes nothing else about them |
| Startup.AppRouter | car_api/src/startup.rs:36-50 | the builder chain yields exactly the five routes, with only `GET /api/account` guarded |
| Startup.FirstIndex | car_api/src/startup.rs:36-50 | the index of the first registered route that answers the method at the path, a `get` route answering HEAD too; the table's length when none does |
| Startup.Dispatch | car_api/src/startup.rs:36-56 | the first route that answers (path, method) runs its handler, except that a guarded route answers 401 when nobody is logged in; 405 exactly when the path is registered but no route answers the method; the fallback exactly when no route has the path |
| Startup.AppFirstIndex | car_api/src/startup.rs:36-50 | which of the five routes answers each (path, method) first; `GET` and `HEAD /api/account` reach the guarded entry |
| Startup.OnlyAccountDetailsGuarded | car_api/src/startup.rs:38-43 | an anonymous request is refused with 401 exactly when it is `GET` or `HEAD /api/account` |
| Startup.SessionMattersOnlyForGuardedRoute | car_api/src/startup.rs:43-50 | for every other request, logged in or not makes no difference to routing |
| Startup.AccountDetailsNeedsLogin | car_api/src/startup.rs:38-43 | `GET` or `HEAD /api/account` runs its handler when logged in and is refused with 401 otherwise |
| Startup.AccountDetailsRunOnlyLoggedIn | car_api/src/startup.rs:38-43 | whatever the method and path, the account details handler runs only for a logged-in session |
| Startup.PublicRoutes | car_api/src/startup.rs:45-50 | `POST /api/account`, `POST /api/login`, `GET` and `HEAD /api/logout`, and `GET` and `HEAD /health_check` reach their handlers with or without a session |
| Startup.UnknownPathsFallBack | car_api/src/startup.rs:55 | any unregistered path goes to the fallback |
| Startup.FallbackHandler | car_api/src/startup.rs:75-78 | 404 with body "No route for " followed by the URI |
| Startup.App.constructor | car_api/src/startup.rs:26-32 | the session layer and the auth layer are keyed with the same 64-byte secret, drawn once; the session starts anonymous |
| Startup.App.Serve | car_api/src/startup.rs:36-56 | per routing outcome: 401, 405 or the fallback (404 naming the request's URI, query included) leave the session alone; login and logout behave as their handlers, and with unique keys a successful login makes the session resolve to the user who logged in; account creation answers 201; account details are served only with a resolved user |
| Startup.App.Handle | car_api/src/startup.rs:36-56 | each routing decision gets the reply and session change of its guard, of axum's 405, of the fallback, or of its handler |
| Startup.LoginDetailsLogout | car_api/tests/get_account_details.rs:88-127 | sent to the routes `run` registers: login before the user exists gives 401; account creation gives 201; login gives 200; the details are served for that user; logout gives 200; the details are then refused with 401 |
| Startup.BeforeSignup | car_api/tests/get_account_details.rs:94-103 | on an empty table, login gives 401 "Couldn't login user" and account creation 201; the session stays anonymous |
| Startup.RefusedLogin | car_api/tests/get_account_details.rs:94-97 | on an empty table, login is refused with 401 and the session stays anonymous |
| Startup.AfterSignup | car_api/tests/get_account_details.rs:105-126 | with the user stored, login gives 200, the details are served for that user, logout gives 200, and the details are then refused with 401 |
| Startup.SuccessfulLogin | car_api/tests/get_account_details.rs:105-108 | logging in as the stored user gives 200, and the session then resolves to that user |
| Startup.LogoutThenRefused | car_api/tests/get_account_details.rs:113-126 | whatever the session and the table, logout gives 200 and the account details are then refused with 401 |
| Startup.TestPathsAsWritten | car_api/tests/get_account_details.rs:9-35 | the login and logout as the test sends them, to `/login` and `/logout`, are answered by the fallback with 404 whatever the state |
| Note.Failure | car_api/src/routes/note.rs:51-54 | a database error answers 500 with "An error happened " followed by the error's debug text |
| Note.Coalesce | car_api/src/routes/note.rs:71 | a given value replaces the current one; an absent one keeps it |
| Note.Updated | car_api/src/routes/note.rs:70-76 | the UPDATE keeps the table's length and changes it row by row, each row as `UpdateRow` does |
| Note.UpdatedAt | car_api/src/routes/note.rs:70-76 | only rows matching both note_id and user_id change, and only in name and content; all other rows are unchanged |
| Note.UpdateWithNothingIsIdentity | car_api/src/routes/note.rs:71 | an update with neither name nor content changes nothing |
| Note.Remaining | car_api/src/routes/note.rs:102 | a row survives the DELETE exactly when it does not match both ids; as many rows go as match |
| Note.UpdatedKeepsIds | car_api/src/routes/note.rs:70-76 | the UPDATE keeps every row's note_id, so note ids stay unique |
| Note.RemainingKeepsIds | car_api/src/routes/note.rs:102 | the DELETE keeps note ids unique |
| Note.AtMostOneMatch | car_api/src/routes/note.rs:70-76 | with unique note ids, at most one row matches a (note_id, user_id) pair |
| Note.NoteTable.CreateNote | car_api/src/routes/note.rs:33-56 | on success one row carrying name, user_id, content, tags and the database's id and time is appended, and the reply is 201 with one row affected; on error the table is unchanged and the reply is 500 |
| Note.NoteTable.UpdateNote | car_api/src/routes/note.rs:66-90 | on success the table is the COALESCE update of the old one and the reply is 200 with the number of matching rows, at most one since note ids are unique; on error nothing changes and the reply is 500 |
| Note.NoteTable.DeleteNote | car_api/src/routes/note.rs:98-118 | on success exactly the matching rows are removed, order kept, and the reply is 200 with their count, at most one since note ids are unique; on error nothing changes and the reply is 500 |
| Note.GetNoteById | car_api/src/routes/note.rs:120-145 | 200 "note obtained" on success, 500 "An error happened ..." on error |
| Note.NoteByIdRevealsNothing | car_api/src/routes/note.rs:132-139 | the reply does not depend on the table's contents |
| Note.ContainsAllMeansEvery | car_api/src/routes/note.rs:204 | array containment `@>` holds exactly when every wanted tag occurs among the note's tags |
| Note.Select | car_api/src/routes/note.rs:163-164 | a row is selected exactly when it is in the table and belongs to the user (and carries the tags, when given); each selected row is kept as many times as the table holds it, and no other row is kept |
| Note.InsertSorted | car_api/src/routes/note.rs:165 | inserting into a list sorted by created_at keeps it sorted |
| Note.InsertPermutes | car_api/src/routes/note.rs:165 | inserting adds the row and loses none |
| Note.SortByCreatedAt | car_api/src/routes/note.rs:165 | the result is sorted by ascending created_at and is a permutation of the input |
| Note.Ordered | car_api/src/routes/note.rs:163-165 | sorted by created_at, and as a multiset exactly the selected rows of the table |
| Note.WindowOfSorted | car_api/src/routes/note.rs:166-167 | a LIMIT/OFFSET window of a sorted list is sorted and holds only its rows |
| Note.Window | car_api/src/routes/note.rs:166-167 | `LIMIT`/`OFFSET` keeps the run starting `offset` rows in: `limit` rows, or what is left, or none past the end |
| Note.PageSpec | car_api/src/routes/note.rs:161-174 | a page is the run of the ordered selection that starts `offset` rows in, of length `limit` or what is left; so at most `limit` selected rows of the table, oldest first |
| Note.PagesJoin | car_api/src/routes/note.rs:166-167 | over one ordering of the table, a page of `a` at `offset` followed by a page of `b` at `offset + a` is the page of `a + b` at `offset` |
| Note.SelectedRowIsListed | car_api/src/routes/note.rs:161-168 | every selected row is listed on some page |
| Note.BoundsError | car_api/src/routes/note.rs:166-167 | the query fails exactly when the offset or the limit is negative |
| Note.ListNotes | car_api/src/routes/note.rs:154-183 | 200 exactly when the query succeeds, and then the projected page; otherwise 500 with the database's error |
| Note.ListDefaults | car_api/src/routes/note.rs:158-159 | an absent limit is 20 and an absent offset is 0, in both list handlers |
| Note.ProjectedPage | car_api/src/routes/note.rs:161-174 | a projected page lists the user's selected rows from the offset on, as many as the limit allows, oldest first, each a row of that user |
| Note.PageCarriesTags | car_api/src/routes/note.rs:204 | every row on a page filtered by tags has non-NULL tags that include every wanted tag |
| Note.GetUserNotes | car_api/src/routes/note.rs:154-183 | 200 exactly when the query succeeds with non-negative bounds; then the k-th note is the projection of the (offset + k)-th of the user's rows in creation order, as many as the limit allows, so at most `limit` notes, oldest first, each a row of that user; otherwise 500 |
| Note.GetUserNotesByTags | car_api/src/routes/note.rs:193-224 | as `get_user_notes`, over the user's rows whose tags include every wanted tag: each returned note has non-NULL tags containing all of them; otherwise 500 |

## Findings

| source | as written | input that shows it | evidently intended | confidence | as-written member | corrected member |
|---|---|---|---|---|---|---|
| car_api/tests/get_account_details.rs:16 | the test posts its login to `/login`, and line 28 sends its logout to `/logout`; `run` registers neither path | the test's first request, `POST /login` on a fresh server, is answered by the fallback with 404, where the test asserts 401 | the paths `run` registers, `/api/login` and `/api/logout` (car_api/src/startup.rs:47-48) | not executed | Startup.TestPathsAsWritten | Startup.LoginDetailsLogout |

## Left out

- Failures of `rand_bytes`, `pbkdf2_hmac` and `encrypt_aead` (each can return an OpenSSL error in the source); the model treats them as total.
- Secrecy, tamper detection and GCM's authentication guarantees: the cipher is abstract, and only its round-trip law is used.
- Encrypt.DecryptData: only the unset-secret branch is stated on its own; with the secret set it is `decrypt`, whose success case is covered by the round-trip lemma only for blobs `encrypt` produced, not for tampered ones.
- The UTF-8 byte view of strings (`as_bytes`, `from_utf8_lossy`) is abstract; only the round trip on valid strings is assumed, so lossy replacement of invalid bytes is not modelled.
- Authenticate.GetPasswordHash: returns the hash as a string, not the `SecretVec<u8>` of its bytes.
- axum and axum_login internals: cookie signing, the in-memory session store, extractors and the exact bodies of the 401 and 405 responses (modelled as empty). Whether the store accepts a login is a parameter.
- The `unwrap` of a database error in `login_handler` (a panic) and the corresponding user-store query failures: lookups are modelled as always answering.
- 64-bit bounds of `limit` and `offset` (`i64`): the model uses unbounded integers. Postgres's rejection of negative LIMIT or OFFSET is modelled as a database error (500).
- The order of notes with equal `created_at` is left to the database; the model keeps table order for ties.
- Note.PagesJoin: holds for pages cut from one ordering of the table. Postgres need not order rows with equal `created_at` the same way in two separate queries, so two real page requests can overlap or skip such rows.
- The exact `{:?}` texts of query results and database errors: a success reply carries the rows-affected count, and an error carries the error's debug text as a parameter.
- `get_note_by_id` prints the found rows to stdout; the printing is not modelled (the reply does not depend on them).
- `create_account` and `get_account_details` (car_api/src/routes/account.rs): the stub answers 201 and writes nothing. The account-details handler is not part of this model; `Serve` hands it the resolved user. `health_check` is handed off the same way.
- Timestamps (`created_at`, `updated_at` of users) other than a note's `created_at`, which is an integer supplied by the caller.
- car_api/src/server.rs, car_api/src/main.rs, car_api/src/database.rs, car_api/src/routes/time_format.rs and car_api/src/routes/mod.rs: configuration, pool creation, TCP binding, tracing and shutdown plumbing, an unused serialisation shim and the shared-state holder.
- Concurrency: every request is served to completion before the next one.
- The `users` schema is not part of this model. Unique ids and emails (`UniqueKeys`) are an assumption, and so is that an INSERT of a taken email violates a constraint named `users_email_key`.
- Startup.App.Serve: account creation answers 201 only for a JSON body that deserializes into `CreateUser` (car_api/src/routes/account.rs:41-44). The `Json` extractor's rejection of any other body (422, before the handler runs) is not modelled. The integration test's nested body (car_api/tests/get_account_details.rs:37-55) would be rejected that way, so `LoginDetailsLogout` stands for a request with a conforming body.
- HEAD responses: a `get` route answers HEAD with its handler, but dropping the response body for HEAD is not modelled.
- Startup.App.constructor: the two secrets are recorded, but no modelled operation reads them; signing session cookies and the auth layer's HMAC are library internals.
