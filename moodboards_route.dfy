/**
 * `GET` and `POST /api/moodboards` (app/api/moodboards/route.ts): list the
 * boards of an address, or create one. The `access_token` parameter is only
 * logged, so it is not an input here.
 */
module MoodboardsRoute {
  import opened Wrappers
  import opened Js
  import opened Http
  import opened Rows
  import opened Supabase

  datatype Body = Failure(error: string) | Boards(moodboards: seq<Moodboard>) | Created(moodboard: Moodboard)

  /** The fields `POST` destructures from the JSON body; absent fields are `None`. */
  datatype NewBoard = NewBoard(name: Option<string>, description: Option<string>, userEmail: Option<string>)

  /** `GET`: 400 without an address, else the list, or 500 when the read fails. */
  method Get(db: Database, email: Option<string>, fails: bool) returns (resp: Response<Body>)
    ensures !Truthy(email) ==> resp == Response(400, [], Failure("Email parameter is required"))
    ensures Truthy(email) && fails ==> resp == Response(500, [], Failure("Failed to fetch moodboards"))
    ensures Truthy(email) && !fails ==> resp == Response(200, [], Boards(MoodboardsByEmail(db.moodboards, email.value)))
  {
    if !Truthy(email) {
      return Response(400, [], Failure("Email parameter is required"));
    }
    var boards := db.GetMoodboardsByEmail(email.value, fails);
    if boards.Thrown? {
      return Response(500, [], Failure("Failed to fetch moodboards"));
    }
    resp := Response(200, [], Boards(boards.value));
  }

  /** A listing holds only boards of the address asked for, newest first. */
  lemma ListingIsOwnBoards(rows: seq<Moodboard>, email: string)
    ensures var r := MoodboardsByEmail(rows, email);
      && (forall k :: 0 <= k < |r| ==> r[k].userEmail == email && r[k] in rows)
      && SortedDesc(r, BoardCreatedAt)
  {
    var r := MoodboardsByEmail(rows, email);
    forall k | 0 <= k < |r| ensures r[k] in rows {
      assert r[k] in multiset(r);
    }
  }

  /** `POST`: `body` is `None` when reading the JSON body throws; a falsy name
      or address is refused before anything is written; otherwise one row is
      inserted, stamped `now`, and returned with 201. */
  method Post(db: Database, body: Option<NewBoard>, now: nat, createFails: bool) returns (resp: Response<Body>)
    requires db.Valid()
    modifies db
    ensures db.Valid()
    ensures db.pins == old(db.pins)
    ensures body.None? ==> resp == Response(500, [], Failure("Failed to create moodboard"))
    ensures body.Some? && (!Truthy(body.value.name) || !Truthy(body.value.userEmail)) ==>
      resp == Response(400, [], Failure("Name and user_email are required"))
    ensures resp.status != 201 ==> db.moodboards == old(db.moodboards) && db.nextId == old(db.nextId)
    ensures body.Some? && Truthy(body.value.name) && Truthy(body.value.userEmail) ==>
      if createFails then resp == Response(500, [], Failure("Failed to create moodboard"))
      else
        && resp.status == 201
        && resp.body == Created(Moodboard(old(db.nextId), body.value.name.value, body.value.description,
                                          body.value.userEmail.value, now, now))
        && db.moodboards == old(db.moodboards) + [resp.body.moodboard]
  {
    if body.None? {
      return Response(500, [], Failure("Failed to create moodboard"));
    }
    var b := body.value;
    if !Truthy(b.name) || !Truthy(b.userEmail) {
      return Response(400, [], Failure("Name and user_email are required"));
    }
    var created := db.CreateMoodboard(b.name.value, b.description, b.userEmail.value, now, now, createFails);
    if created.Thrown? {
      return Response(500, [], Failure("Failed to create moodboard"));
    }
    resp := Response(201, [], Created(created.value));
  }
}
