/// The `note` table and its handlers (car_api/src/routes/note.rs): three
/// statements that change the table in place, and three read-only queries.
module Note {
  import opened Common
  import opened Errors
  import opened Uuid

  const DEFAULT_LIMIT: int := 20
  const DEFAULT_OFFSET: int := 0

  const NOTE_CREATED := "note created with success "
  const NOTE_UPDATED := "note updated with success "
  const NOTE_OBTAINED := "note obtained"
  const ERROR_HAPPENED := "An error happened "

  /// A row of `note`; `tags` is a nullable text array, `createdAt` the
  /// insertion timestamp the database assigns.
  datatype NoteRow = NoteRow(noteId: Uuid, userId: Uuid, name: string, content: string,
                             tags: Option<seq<string>>, createdAt: int)

  /// `NoteInfo`: what the list queries return of a row (no `user_id`).
  datatype NoteInfo = NoteInfo(noteId: Uuid, name: string, content: string,
                               tags: Option<seq<string>>, createdAt: int)

  datatype CreateNote = CreateNote(userId: Uuid, name: string, content: string, tags: Option<seq<string>>)
  datatype UpdateNote = UpdateNote(noteId: Uuid, userId: Uuid, content: Option<string>, name: Option<string>)
  datatype SelectedNote = SelectedNote(noteId: Uuid, userId: Uuid)
  datatype SelectedUserNote = SelectedUserNote(userId: Uuid, limit: Option<int>, offset: Option<int>)
  datatype SelectedUserNoteByTags = SelectedUserNoteByTags(userId: Uuid, limit: Option<int>, offset: Option<int>,
                                                           tags: seq<string>)

  /// A reply body: a success message with the statement's rows-affected
  /// count (what `{:?}` of the query result shows), plain text, or a JSON
  /// list of notes.
  datatype Body = Executed(message: string, rowsAffected: nat) | Text(text: string) | Notes(notes: seq<NoteInfo>)

  /// Every handler's answer to a database error.
  function Failure(err: DbError): (r: Reply<Body>)
    ensures r.status == INTERNAL_SERVER_ERROR
    ensures r.body.Text? && |r.body.text| == |ERROR_HAPPENED| + |err.debug|
    ensures r.body.text[..|ERROR_HAPPENED|] == ERROR_HAPPENED
    ensures r.body.Text? && r.body.text[|ERROR_HAPPENED|..] == err.debug
  {
    Reply(INTERNAL_SERVER_ERROR, Text(ERROR_HAPPENED + err.debug))
  }

  function Info(row: NoteRow): NoteInfo
  {
    NoteInfo(row.noteId, row.name, row.content, row.tags, row.createdAt)
  }

  /// `WHERE note_id=$1 AND user_id=$2`.
  predicate Matches(row: NoteRow, noteId: Uuid, userId: Uuid)
  {
    row.noteId == noteId && row.userId == userId
  }

  function CountMatching(rows: seq<NoteRow>, noteId: Uuid, userId: Uuid): (n: nat)
    ensures n <= |rows|
  {
    if rows == [] then 0
    else (if Matches(rows[0], noteId, userId) then 1 else 0) + CountMatching(rows[1..], noteId, userId)
  }

  /// `COALESCE($1, current)`.
  function Coalesce(given: Option<string>, current: string): (v: string)
    ensures given.Some? ==> v == given.value
    ensures given.None? ==> v == current
  {
    match given
    case Some(x) => x
    case None => current
  }

  /// One row after `UPDATE note SET (name, content) = (COALESCE($1, note.name),
  /// COALESCE($2, note.content)) WHERE note_id=$3 AND user_id=$4`.
  function UpdateRow(row: NoteRow, u: UpdateNote): NoteRow
  {
    if Matches(row, u.noteId, u.userId)
    then row.(name := Coalesce(u.name, row.name), content := Coalesce(u.content, row.content))
    else row
  }

  /// The table after the UPDATE.
  function Updated(rows: seq<NoteRow>, u: UpdateNote): (r: seq<NoteRow>)
    ensures |r| == |rows|
    ensures forall k :: 0 <= k < |rows| ==> r[k] == UpdateRow(rows[k], u)
  {
    if rows == [] then [] else [UpdateRow(rows[0], u)] + Updated(rows[1..], u)
  }

  /// Row by row: a matching row takes the given name and content where they
  /// are present and keeps its own otherwise; every other row, and every
  /// other column, is unchanged.
  lemma {:induction false} UpdatedAt(rows: seq<NoteRow>, u: UpdateNote, k: nat)
    requires k < |rows|
    ensures Matches(rows[k], u.noteId, u.userId) ==>
      Updated(rows, u)[k] == rows[k].(name := Coalesce(u.name, rows[k].name),
                                      content := Coalesce(u.content, rows[k].content))
    ensures !Matches(rows[k], u.noteId, u.userId) ==> Updated(rows, u)[k] == rows[k]
  {
    if k > 0 {
      UpdatedAt(rows[1..], u, k - 1);
    }
  }

  /// An update that gives neither a name nor a content changes nothing.
  lemma {:induction false} UpdateWithNothingIsIdentity(rows: seq<NoteRow>, u: UpdateNote)
    requires u.name.None? && u.content.None?
    ensures Updated(rows, u) == rows
  {
    if rows != [] {
      UpdateWithNothingIsIdentity(rows[1..], u);
    }
  }

  /// The table after `DELETE FROM note WHERE note_id=$1 AND user_id=$2`,
  /// in its original order.
  function Remaining(rows: seq<NoteRow>, noteId: Uuid, userId: Uuid): (r: seq<NoteRow>)
    ensures forall x :: x in r <==> x in rows && !Matches(x, noteId, userId)
    ensures |r| + CountMatching(rows, noteId, userId) == |rows|
  {
    if rows == [] then []
    else if Matches(rows[0], noteId, userId) then Remaining(rows[1..], noteId, userId)
    else [rows[0]] + Remaining(rows[1..], noteId, userId)
  }

  /// Note ids are a primary key.
  ghost predicate UniqueIds(rows: seq<NoteRow>)
  {
    forall i, j :: 0 <= i < j < |rows| ==> rows[i].noteId != rows[j].noteId
  }

  lemma {:induction false} UpdatedKeepsIds(rows: seq<NoteRow>, u: UpdateNote)
    requires UniqueIds(rows)
    ensures UniqueIds(Updated(rows, u))
    ensures forall k :: 0 <= k < |rows| ==> Updated(rows, u)[k].noteId == rows[k].noteId
  {
    forall k | 0 <= k < |rows|
      ensures Updated(rows, u)[k].noteId == rows[k].noteId
    {
      UpdatedAt(rows, u, k);
    }
  }

  lemma {:induction false} RemainingKeepsIds(rows: seq<NoteRow>, noteId: Uuid, userId: Uuid)
    requires UniqueIds(rows)
    ensures UniqueIds(Remaining(rows, noteId, userId))
  {
    if rows != [] {
      RemainingKeepsIds(rows[1..], noteId, userId);
      if !Matches(rows[0], noteId, userId) {
        var rest := Remaining(rows[1..], noteId, userId);
        forall x | x in rest
          ensures x.noteId != rows[0].noteId
        {
          var j :| 0 <= j < |rows[1..]| && rows[1..][j] == x;
          assert rows[j + 1] == x;
        }
      }
    }
  }

  /// With no row carrying `noteId`, nothing matches.
  lemma {:induction false} NoMatchCountsZero(rows: seq<NoteRow>, noteId: Uuid, userId: Uuid)
    requires forall i :: 0 <= i < |rows| ==> rows[i].noteId != noteId
    ensures CountMatching(rows, noteId, userId) == 0
  {
    if rows != [] {
      NoMatchCountsZero(rows[1..], noteId, userId);
    }
  }

  /// Under unique note ids a statement keyed by `note_id` touches at most
  /// one row: update and delete affect 0 or 1 rows.
  lemma {:induction false} AtMostOneMatch(rows: seq<NoteRow>, noteId: Uuid, userId: Uuid)
    requires UniqueIds(rows)
    ensures CountMatching(rows, noteId, userId) <= 1
  {
    if rows != [] {
      var rest := rows[1..];
      assert forall i :: 0 <= i < |rest| ==> rest[i] == rows[i + 1];
      if Matches(rows[0], noteId, userId) {
        NoMatchCountsZero(rest, noteId, userId);
      } else {
        AtMostOneMatch(rest, noteId, userId);
      }
    }
  }

  /// The `note` table, changed in place by the three write handlers.
  class NoteTable {
    var rows: seq<NoteRow>

    ghost predicate Valid()
      reads this
    {
      UniqueIds(rows)
    }

    constructor ()
      ensures Valid() && rows == []
    {
      rows := [];
    }

    /// `create_note`: one INSERT of (name, user_id, content, tags); the
    /// database supplies `note_id` (`newId`) and `created_at` (`now`).
    /// `fault` is the error the statement fails with, if it does.
    method CreateNote(note: CreateNote, newId: Uuid, now: int, fault: Option<DbError>) returns (reply: Reply<Body>)
      requires Valid()
      requires forall i :: 0 <= i < |rows| ==> rows[i].noteId != newId
      modifies this
      ensures Valid()
      ensures fault.None? ==> rows == old(rows) + [NoteRow(newId, note.userId, note.name, note.content, note.tags, now)]
      ensures fault.None? ==> reply == Reply(CREATED, Executed(NOTE_CREATED, 1))
      ensures fault.Some? ==> rows == old(rows) && reply == Failure(fault.value)
    {
      match fault {
        case Some(err) =>
          reply := Failure(err);
        case None =>
          rows := rows + [NoteRow(newId, note.userId, note.name, note.content, note.tags, now)];
          reply := Reply(CREATED, Executed(NOTE_CREATED, 1));
      }
    }

    /// `update_note`.
    method UpdateNote(u: UpdateNote, fault: Option<DbError>) returns (reply: Reply<Body>)
      requires Valid()
      modifies this
      ensures Valid()
      ensures fault.None? ==> rows == Updated(old(rows), u)
      ensures fault.None? ==> reply == Reply(OK, Executed(NOTE_UPDATED, CountMatching(old(rows), u.noteId, u.userId)))
      ensures fault.None? ==> reply.body.rowsAffected <= 1
      ensures fault.Some? ==> rows == old(rows) && reply == Failure(fault.value)
    {
      match fault {
        case Some(err) =>
          reply := Failure(err);
        case None =>
          var affected := CountMatching(rows, u.noteId, u.userId);
          AtMostOneMatch(rows, u.noteId, u.userId);
          UpdatedKeepsIds(rows, u);
          rows := Updated(rows, u);
          reply := Reply(OK, Executed(NOTE_UPDATED, affected));
      }
    }

    /// `delete_note` (its success message reads "note created", as in the
    /// handler).
    method DeleteNote(sel: SelectedNote, fault: Option<DbError>) returns (reply: Reply<Body>)
      requires Valid()
      modifies this
      ensures Valid()
      ensures fault.None? ==> rows == Remaining(old(rows), sel.noteId, sel.userId)
      ensures fault.None? ==> reply == Reply(OK, Executed(NOTE_CREATED, CountMatching(old(rows), sel.noteId, sel.userId)))
      ensures fault.None? ==> reply.body.rowsAffected <= 1 && |rows| + 1 >= |old(rows)|
      ensures fault.Some? ==> rows == old(rows) && reply == Failure(fault.value)
    {
      match fault {
        case Some(err) =>
          reply := Failure(err);
        case None =>
          var affected := CountMatching(rows, sel.noteId, sel.userId);
          AtMostOneMatch(rows, sel.noteId, sel.userId);
          RemainingKeepsIds(rows, sel.noteId, sel.userId);
          rows := Remaining(rows, sel.noteId, sel.userId);
          reply := Reply(OK, Executed(NOTE_CREATED, affected));
      }
    }
  }

  /// `get_note_by_id`: runs its SELECT but answers only "note obtained";
  /// the rows are printed to stdout, not returned.
  function GetNoteById(rows: seq<NoteRow>, sel: SelectedNote, fault: Option<DbError>): (reply: Reply<Body>)
    ensures fault.None? ==> reply == Reply(OK, Text(NOTE_OBTAINED))
    ensures fault.Some? ==> reply == Failure(fault.value)
  {
    match fault
    case Some(err) => Failure(err)
    case None => Reply(OK, Text(NOTE_OBTAINED))
  }

  /// Hence the reply says nothing about the table's content.
  lemma NoteByIdRevealsNothing(rows1: seq<NoteRow>, rows2: seq<NoteRow>, sel: SelectedNote, fault: Option<DbError>)
    ensures GetNoteById(rows1, sel, fault) == GetNoteById(rows2, sel, fault)
  {
  }

  /// `CAST(tags as text[]) @> $2`: the note has tags and they include every
  /// wanted tag; NULL tags never match.
  predicate HasTags(tags: Option<seq<string>>, wanted: seq<string>)
  {
    tags.Some? && ContainsAll(tags.value, wanted)
  }

  /// Array containment `have @> wanted`, element by element.
  predicate ContainsAll(have: seq<string>, wanted: seq<string>)
  {
    wanted == [] || (wanted[0] in have && ContainsAll(have, wanted[1..]))
  }

  /// Containment means every wanted tag occurs (duplicates and order do
  /// not matter).
  lemma {:induction false} ContainsAllMeansEvery(have: seq<string>, wanted: seq<string>)
    ensures ContainsAll(have, wanted) <==> forall t :: t in wanted ==> t in have
  {
    if wanted != [] {
      ContainsAllMeansEvery(have, wanted[1..]);
      assert wanted == [wanted[0]] + wanted[1..];
    }
  }

  /// The WHERE clause of a list query: the user's notes, and with `tags`
  /// given, only those carrying all of them.
  predicate Selected(row: NoteRow, userId: Uuid, tags: Option<seq<string>>)
  {
    row.userId == userId && (tags.Some? ==> HasTags(row.tags, tags.value))
  }

  function Select(rows: seq<NoteRow>, userId: Uuid, tags: Option<seq<string>>): (r: seq<NoteRow>)
    ensures forall x :: x in r <==> x in rows && Selected(x, userId, tags)
    ensures forall x :: multiset(r)[x] == if Selected(x, userId, tags) then multiset(rows)[x] else 0
    ensures |r| <= |rows|
  {
    if rows == [] then []
    else
      var rest := Select(rows[1..], userId, tags);
      assert rows == [rows[0]] + rows[1..];
      if Selected(rows[0], userId, tags) then [rows[0]] + rest else rest
  }

  ghost predicate SortedByCreatedAt(s: seq<NoteRow>)
  {
    forall i, j :: 0 <= i < j < |s| ==> s[i].createdAt <= s[j].createdAt
  }

  /// The least timestamp among `x` and the head of `s`.
  function Low(x: NoteRow, s: seq<NoteRow>): int
  {
    if s != [] && s[0].createdAt < x.createdAt then s[0].createdAt else x.createdAt
  }

  /// Places `x` before the first row of `s` that is not older than it.
  function Insert(x: NoteRow, s: seq<NoteRow>): (r: seq<NoteRow>)
    ensures |r| == |s| + 1
  {
    if s == [] then [x]
    else if x.createdAt <= s[0].createdAt then [x] + s
    else [s[0]] + Insert(x, s[1..])
  }

  /// Inserting adds `x` and loses nothing.
  lemma {:induction false} InsertPermutes(x: NoteRow, s: seq<NoteRow>)
    ensures multiset(Insert(x, s)) == multiset(s) + multiset{x}
  {
    if s != [] && x.createdAt > s[0].createdAt {
      InsertPermutes(x, s[1..]);
      assert s == [s[0]] + s[1..];
    }
  }

  /// Inserting into a sorted sequence keeps it sorted, and no timestamp
  /// in the result is below the lesser of `x`'s and the old head's.
  lemma {:induction false} InsertSorted(x: NoteRow, s: seq<NoteRow>)
    requires SortedByCreatedAt(s)
    ensures SortedByCreatedAt(Insert(x, s))
    ensures forall i :: 0 <= i < |Insert(x, s)| ==> Insert(x, s)[i].createdAt >= Low(x, s)
  {
    if s != [] && x.createdAt > s[0].createdAt {
      var rest := Insert(x, s[1..]);
      InsertSorted(x, s[1..]);
      assert Low(x, s[1..]) >= s[0].createdAt by {
        if |s| > 1 {
          assert s[1..][0] == s[1];
        }
      }
      var r := [s[0]] + rest;
      assert Insert(x, s) == r;
      forall i, j | 0 <= i < j < |r|
        ensures r[i].createdAt <= r[j].createdAt
      {
        assert r[j] == rest[j - 1];
        if i > 0 {
          assert r[i] == rest[i - 1];
        }
      }
    }
  }

  /// `ORDER BY created_at ASC` (rows with equal timestamps keep their table
  /// order, one of the orders the database may return).
  function SortByCreatedAt(s: seq<NoteRow>): (r: seq<NoteRow>)
    ensures SortedByCreatedAt(r)
    ensures multiset(r) == multiset(s)
    ensures |r| == |s|
  {
    if s == [] then []
    else
      assert s == [s[0]] + s[1..];
      var rest := SortByCreatedAt(s[1..]);
      InsertSorted(s[0], rest);
      InsertPermutes(s[0], rest);
      Insert(s[0], rest)
  }

  /// How many rows `LIMIT limit OFFSET offset` keeps of `n`: none past the
  /// end, otherwise `limit` or what is left, whichever is fewer.
  function PageLength(n: nat, offset: nat, limit: nat): nat
  {
    if offset >= n then 0 else if limit < n - offset then limit else n - offset
  }

  /// `LIMIT limit OFFSET offset`: the run of `s` that starts at `offset`.
  function Window(s: seq<NoteRow>, offset: nat, limit: nat): (r: seq<NoteRow>)
    ensures |r| <= limit
    ensures |r| == PageLength(|s|, offset, limit)
    ensures forall k :: 0 <= k < |r| ==> r[k] == s[offset + k]
  {
    var from := if offset < |s| then offset else |s|;
    var to := if from + limit < |s| then from + limit else |s|;
    s[from..to]
  }

  /// The rows a WHERE clause selects, in `ORDER BY created_at ASC` order.
  function Ordered(rows: seq<NoteRow>, userId: Uuid, tags: Option<seq<string>>): (r: seq<NoteRow>)
    ensures SortedByCreatedAt(r)
    ensures |r| <= |rows|
    ensures forall x :: x in r <==> x in rows && Selected(x, userId, tags)
    ensures forall x :: multiset(r)[x] == if Selected(x, userId, tags) then multiset(rows)[x] else 0
  {
    var selected := Select(rows, userId, tags);
    var sorted := SortByCreatedAt(selected);
    assert forall x :: x in sorted <==> x in multiset(selected);
    sorted
  }

  /// The rows a list query returns, before projection to `NoteInfo`.
  function Page(rows: seq<NoteRow>, userId: Uuid, tags: Option<seq<string>>, offset: nat, limit: nat): seq<NoteRow>
  {
    Window(Ordered(rows, userId, tags), offset, limit)
  }

  /// A page is the run of the selected rows, in creation order, that
  /// starts `offset` rows in and holds `limit` of them or what is left: so
  /// at most `limit` selected rows of the table, oldest first.
  lemma PageSpec(rows: seq<NoteRow>, userId: Uuid, tags: Option<seq<string>>, offset: nat, limit: nat)
    ensures |Page(rows, userId, tags, offset, limit)| == PageLength(|Ordered(rows, userId, tags)|, offset, limit)
    ensures forall k :: 0 <= k < |Page(rows, userId, tags, offset, limit)| ==>
              Page(rows, userId, tags, offset, limit)[k] == Ordered(rows, userId, tags)[offset + k]
    ensures |Page(rows, userId, tags, offset, limit)| <= limit
    ensures SortedByCreatedAt(Page(rows, userId, tags, offset, limit))
    ensures forall x :: x in Page(rows, userId, tags, offset, limit) ==> x in rows && Selected(x, userId, tags)
  {
    WindowOfSorted(Ordered(rows, userId, tags), offset, limit);
  }

  /// A window of a sorted sequence is a sorted run of its rows.
  lemma WindowOfSorted(s: seq<NoteRow>, offset: nat, limit: nat)
    requires SortedByCreatedAt(s)
    ensures SortedByCreatedAt(Window(s, offset, limit))
    ensures forall x :: x in Window(s, offset, limit) ==> x in s
  {
    var from := if offset < |s| then offset else |s|;
    var w := Window(s, offset, limit);
    assert forall k :: 0 <= k < |w| ==> w[k] == s[from + k];
  }

  /// Consecutive windows join up: the next window starts where this one
  /// ends.
  lemma WindowsJoin(s: seq<NoteRow>, offset: nat, a: nat, b: nat)
    ensures Window(s, offset, a) + Window(s, offset + a, b) == Window(s, offset, a + b)
  {
    var from := if offset < |s| then offset else |s|;
    var mid := if from + a < |s| then from + a else |s|;
    assert Window(s, offset, a) == s[from..mid];
    assert Window(s, offset + a, b) == s[mid..if mid + b < |s| then mid + b else |s|];
  }

  /// Hence paging through a user's notes `a` then `b` at a time lists the
  /// same rows as one page of `a + b`.
  lemma PagesJoin(rows: seq<NoteRow>, userId: Uuid, tags: Option<seq<string>>, offset: nat, a: nat, b: nat)
    ensures Page(rows, userId, tags, offset, a) + Page(rows, userId, tags, offset + a, b)
         == Page(rows, userId, tags, offset, a + b)
  {
    WindowsJoin(Ordered(rows, userId, tags), offset, a, b);
  }

  function Projected(page: seq<NoteRow>): (r: seq<NoteInfo>)
    ensures |r| == |page|
    ensures forall i :: 0 <= i < |page| ==> r[i] == Info(page[i])
  {
    seq(|page|, i requires 0 <= i < |page| => Info(page[i]))
  }

  /// The error Postgres raises for a negative OFFSET or LIMIT (OFFSET is
  /// checked first).
  function BoundsError(offset: int, limit: int): (e: Option<DbError>)
    ensures e.None? <==> offset >= 0 && limit >= 0
  {
    if offset < 0 then Some(DbError(Database(None), "OFFSET must not be negative"))
    else if limit < 0 then Some(DbError(Database(None), "LIMIT must not be negative"))
    else None
  }

  /// The shared body of the two list handlers: defaults applied, then the
  /// query or its failure.
  function ListNotes(rows: seq<NoteRow>, userId: Uuid, tags: Option<seq<string>>,
                     limit: Option<int>, offset: Option<int>, fault: Option<DbError>): (reply: Reply<Body>)
    ensures reply.status == OK || reply.status == INTERNAL_SERVER_ERROR
    ensures reply.status == OK <==> fault.None? && BoundsError(offset.UnwrapOr(DEFAULT_OFFSET), limit.UnwrapOr(DEFAULT_LIMIT)).None?
    ensures reply.status == OK ==>
      reply.body.Notes? && reply.body.notes == Projected(Page(rows, userId, tags, offset.UnwrapOr(DEFAULT_OFFSET), limit.UnwrapOr(DEFAULT_LIMIT)))
    ensures reply.status != OK ==> reply == Failure(if fault.Some? then fault.value
                                                    else BoundsError(offset.UnwrapOr(DEFAULT_OFFSET), limit.UnwrapOr(DEFAULT_LIMIT)).value)
  {
    var limit := limit.UnwrapOr(DEFAULT_LIMIT);
    var offset := offset.UnwrapOr(DEFAULT_OFFSET);
    if fault.Some? then Failure(fault.value)
    else match BoundsError(offset, limit)
      case Some(err) => Failure(err)
      case None => Reply(OK, Notes(Projected(Page(rows, userId, tags, offset, limit))))
  }

  /// `get_user_notes`: on success, the user's notes in creation order from
  /// the offset on, as many as the limit allows (so at most `limit` of
  /// them, oldest first, each a row of the user); otherwise the 500 of the
  /// failed query.
  function GetUserNotes(rows: seq<NoteRow>, q: SelectedUserNote, fault: Option<DbError>): (reply: Reply<Body>)
    ensures reply.status == OK <==>
      fault.None? && BoundsError(q.offset.UnwrapOr(DEFAULT_OFFSET), q.limit.UnwrapOr(DEFAULT_LIMIT)).None?
    ensures reply.status == OK ==>
      q.offset.UnwrapOr(DEFAULT_OFFSET) >= 0 && q.limit.UnwrapOr(DEFAULT_LIMIT) >= 0 && reply.body.Notes? &&
      |reply.body.notes| ==
        PageLength(|Ordered(rows, q.userId, None)|, q.offset.UnwrapOr(DEFAULT_OFFSET), q.limit.UnwrapOr(DEFAULT_LIMIT)) &&
      (forall k :: 0 <= k < |reply.body.notes| ==>
        reply.body.notes[k] == Info(Ordered(rows, q.userId, None)[q.offset.UnwrapOr(DEFAULT_OFFSET) + k]))
    ensures reply.status == OK ==>
      |reply.body.notes| <= q.limit.UnwrapOr(DEFAULT_LIMIT) &&
      OldestFirst(reply.body.notes) && ListedFrom(reply.body.notes, rows, q.userId)
    ensures reply.status != OK ==> reply.status == INTERNAL_SERVER_ERROR
  {
    var reply := ListNotes(rows, q.userId, None, q.limit, q.offset, fault);
    if reply.status == OK then
      ProjectedPage(rows, q.userId, None, q.offset.UnwrapOr(DEFAULT_OFFSET), q.limit.UnwrapOr(DEFAULT_LIMIT));
      reply
    else reply
  }

  /// `get_user_notes_by_tags`: on success, at most `limit` of the user's
  /// notes, each with non-NULL tags that include every wanted tag, taken in
  /// creation order from the offset on; otherwise the 500 of the failed
  /// query.
  function GetUserNotesByTags(rows: seq<NoteRow>, q: SelectedUserNoteByTags, fault: Option<DbError>): (reply: Reply<Body>)
    ensures reply.status == OK <==>
      fault.None? && BoundsError(q.offset.UnwrapOr(DEFAULT_OFFSET), q.limit.UnwrapOr(DEFAULT_LIMIT)).None?
    ensures reply.status == OK ==>
      q.offset.UnwrapOr(DEFAULT_OFFSET) >= 0 && q.limit.UnwrapOr(DEFAULT_LIMIT) >= 0 && reply.body.Notes? &&
      |reply.body.notes| ==
        PageLength(|Ordered(rows, q.userId, Some(q.tags))|, q.offset.UnwrapOr(DEFAULT_OFFSET), q.limit.UnwrapOr(DEFAULT_LIMIT)) &&
      (forall k :: 0 <= k < |reply.body.notes| ==>
        reply.body.notes[k] == Info(Ordered(rows, q.userId, Some(q.tags))[q.offset.UnwrapOr(DEFAULT_OFFSET) + k]))
    ensures reply.status == OK ==>
      |reply.body.notes| <= q.limit.UnwrapOr(DEFAULT_LIMIT) &&
      OldestFirst(reply.body.notes) && ListedFrom(reply.body.notes, rows, q.userId) &&
      forall i :: 0 <= i < |reply.body.notes| ==>
        reply.body.notes[i].tags.Some? && forall t :: t in q.tags ==> t in reply.body.notes[i].tags.value
    ensures reply.status != OK ==> reply.status == INTERNAL_SERVER_ERROR
  {
    var reply := ListNotes(rows, q.userId, Some(q.tags), q.limit, q.offset, fault);
    if reply.status == OK then
      ProjectedPage(rows, q.userId, Some(q.tags), q.offset.UnwrapOr(DEFAULT_OFFSET), q.limit.UnwrapOr(DEFAULT_LIMIT));
      PageCarriesTags(rows, q.userId, q.tags, q.offset.UnwrapOr(DEFAULT_OFFSET), q.limit.UnwrapOr(DEFAULT_LIMIT));
      reply
    else reply
  }

  /// An absent limit is 20 and an absent offset is 0, in both queries.
  lemma ListDefaults(rows: seq<NoteRow>, userId: Uuid, wanted: seq<string>, fault: Option<DbError>)
    ensures GetUserNotes(rows, SelectedUserNote(userId, None, None), fault)
         == GetUserNotes(rows, SelectedUserNote(userId, Some(DEFAULT_LIMIT), Some(DEFAULT_OFFSET)), fault)
    ensures GetUserNotesByTags(rows, SelectedUserNoteByTags(userId, None, None, wanted), fault)
         == GetUserNotesByTags(rows, SelectedUserNoteByTags(userId, Some(DEFAULT_LIMIT), Some(DEFAULT_OFFSET), wanted), fault)
  {
  }

  /// Every listed note is one of the user's rows, projected.
  ghost predicate ListedFrom(notes: seq<NoteInfo>, rows: seq<NoteRow>, userId: Uuid)
  {
    forall i :: 0 <= i < |notes| ==> RowOf(notes[i], rows, userId)
  }

  ghost predicate RowOf(note: NoteInfo, rows: seq<NoteRow>, userId: Uuid)
  {
    exists k :: 0 <= k < |rows| && rows[k].userId == userId && Info(rows[k]) == note
  }

  ghost predicate OldestFirst(notes: seq<NoteInfo>)
  {
    forall i, j :: 0 <= i < j < |notes| ==> notes[i].createdAt <= notes[j].createdAt
  }

  /// A projected page lists the `offset`-th selected row on, as many as
  /// `limit` allows, oldest first, each one a row of the user.
  lemma {:induction false} ProjectedPage(rows: seq<NoteRow>, userId: Uuid, tags: Option<seq<string>>, offset: nat, limit: nat)
    ensures |Projected(Page(rows, userId, tags, offset, limit))| == PageLength(|Ordered(rows, userId, tags)|, offset, limit)
    ensures forall k :: 0 <= k < |Projected(Page(rows, userId, tags, offset, limit))| ==>
              Projected(Page(rows, userId, tags, offset, limit))[k] == Info(Ordered(rows, userId, tags)[offset + k])
    ensures |Projected(Page(rows, userId, tags, offset, limit))| <= limit
    ensures OldestFirst(Projected(Page(rows, userId, tags, offset, limit)))
    ensures ListedFrom(Projected(Page(rows, userId, tags, offset, limit)), rows, userId)
  {
    var page := Page(rows, userId, tags, offset, limit);
    PageSpec(rows, userId, tags, offset, limit);
    var notes := Projected(page);
    forall i | 0 <= i < |notes|
      ensures RowOf(notes[i], rows, userId)
    {
      assert page[i] in page;
      var k :| 0 <= k < |rows| && rows[k] == page[i];
      assert Selected(rows[k], userId, tags);
      assert Info(rows[k]) == notes[i];
    }
  }

  /// Every row on a page filtered by `wanted` has non-NULL tags that
  /// include every wanted tag.
  lemma {:induction false} PageCarriesTags(rows: seq<NoteRow>, userId: Uuid, wanted: seq<string>, offset: nat, limit: nat)
    ensures forall i :: 0 <= i < |Page(rows, userId, Some(wanted), offset, limit)| ==>
              Page(rows, userId, Some(wanted), offset, limit)[i].tags.Some? &&
              forall t :: t in wanted ==> t in Page(rows, userId, Some(wanted), offset, limit)[i].tags.value
  {
    var page := Page(rows, userId, Some(wanted), offset, limit);
    PageSpec(rows, userId, Some(wanted), offset, limit);
    forall i | 0 <= i < |page|
      ensures page[i].tags.Some? && forall t :: t in wanted ==> t in page[i].tags.value
    {
      assert page[i] in page;
      ContainsAllMeansEvery(page[i].tags.value, wanted);
    }
  }

  /// The pages partition the user's notes: a selected row is on the page
  /// whose window covers its place in creation order.
  lemma {:induction false} SelectedRowIsListed(rows: seq<NoteRow>, userId: Uuid, tags: Option<seq<string>>, x: NoteRow)
    requires x in rows && Selected(x, userId, tags)
    ensures exists offset: nat :: offset < |rows| && x in Page(rows, userId, tags, offset, 1)
  {
    var sorted := Ordered(rows, userId, tags);
    var k :| 0 <= k < |sorted| && sorted[k] == x;
    assert Window(sorted, k, 1) == [x];
    assert Page(rows, userId, tags, k, 1) == [x];
  }
}
