/**
 * `GET /api/moodboard-pins-by-name?email=…&name=…`
 * (app/api/moodboard-pins-by-name/route.ts): one board of an address, found
 * or seeded by name, together with its pins. Every response carries the same
 * CORS headers.
 */
module MoodboardPinsByNameRoute {
  import opened Wrappers
  import opened Js
  import opened Http
  import opened Supabase
  import opened FindOrSeed

  const CorsHeaders: Headers := [
    ("Access-Control-Allow-Origin", "*"),
    ("Access-Control-Allow-Methods", "GET, OPTIONS"),
    ("Access-Control-Allow-Headers", "Content-Type, Authorization")]

  datatype Body =
    | NoBody                                                      // `new NextResponse(null, …)`
    | EmptyObject                                                 // `{}`
    | Failure(error: string, details: Option<string>)             // `{ error, details? }`
    | BoardWithPins(moodboard: Moodboard, pins: seq<MoodboardPin>)

  /** The response once the parameters passed their guards: `found` is what
      the get-or-seed step yielded, `pinsFail` whether reading the pins fails. */
  function Answer(found: Outcome<Option<Moodboard>>, pins: seq<MoodboardPin>, pinsFail: bool): (r: Response<Body>)
    ensures r.headers == CorsHeaders
    ensures r.status == 200 <==> found.Ok? && found.value.Some? && !pinsFail
    ensures r.status == 404 <==> found.Ok? && found.value.None?
    ensures r.status in {200, 404, 500}
    ensures r.status == 200 ==> r.body == BoardWithPins(found.value.value, PinsOfMoodboard(pins, found.value.value.id))
  {
    if found.Thrown? then Response(500, CorsHeaders, Failure("Failed to fetch moodboard pins", Some(found.message)))
    else if found.value.None? then Response(404, CorsHeaders, Failure("Moodboard not found", None))
    else if pinsFail then Response(500, CorsHeaders, Failure("Failed to fetch moodboard pins", Some(QueryError)))
    else Response(200, CorsHeaders, BoardWithPins(found.value.value, PinsOfMoodboard(pins, found.value.value.id)))
  }

  /** `GET`: the preflight answer, the two parameter guards (email first), then
      the get-or-seed step and the pins of the board found. */
  method Get(db: Database, requestMethod: string, email: Option<string>, name: Option<string>,
             now: nat, f: Faults, pinsFail: bool)
    returns (resp: Response<Body>)
    requires db.Valid()
    modifies db
    ensures db.Valid()
    ensures resp.headers == CorsHeaders
    ensures db.pins == old(db.pins)
    ensures requestMethod == "OPTIONS" ==> resp == Response(200, CorsHeaders, NoBody)
    ensures requestMethod != "OPTIONS" && !Truthy(email) ==>
      resp == Response(400, CorsHeaders, Failure("Email parameter is required", None))
    ensures requestMethod != "OPTIONS" && Truthy(email) && !Truthy(name) ==>
      resp == Response(400, CorsHeaders, Failure("Name parameter is required", None))
    ensures requestMethod == "OPTIONS" || !Truthy(email) || !Truthy(name) ==>
      db.moodboards == old(db.moodboards) && db.nextId == old(db.nextId)
    ensures requestMethod != "OPTIONS" && Truthy(email) && Truthy(name) ==>
      var l := Step(old(db.moodboards), old(db.nextId), name.value, email.value, now, f);
      && db.moodboards == l.rows && db.nextId == l.nextId
      && resp == Answer(l.found, db.pins, pinsFail)
  {
    if requestMethod == "OPTIONS" {
      return Response(200, CorsHeaders, NoBody);
    }
    if !Truthy(email) {
      return Response(400, CorsHeaders, Failure("Email parameter is required", None));
    }
    if !Truthy(name) {
      return Response(400, CorsHeaders, Failure("Name parameter is required", None));
    }
    var found := LookupOrSeed(db, name.value, email.value, now, f);
    if found.Thrown? {
      return Response(500, CorsHeaders, Failure("Failed to fetch moodboard pins", Some(found.message)));
    }
    if found.value.None? {
      return Response(404, CorsHeaders, Failure("Moodboard not found", None));
    }
    var board := found.value.value;
    var pins := db.GetMoodboardPins(board.id, pinsFail);
    if pins.Thrown? {
      return Response(500, CorsHeaders, Failure("Failed to fetch moodboard pins", Some(pins.message)));
    }
    resp := Response(200, CorsHeaders, BoardWithPins(board, pins.value));
  }

  /** The exported `OPTIONS` handler. */
  function Options(): (r: Response<Body>)
    ensures r.status == 200 && r.headers == CorsHeaders
  {
    Response(200, CorsHeaders, EmptyObject)
  }

  /** A board found by the step comes back with exactly its own pins. */
  lemma FoundBoardWithItsPins(found: Outcome<Option<Moodboard>>, pins: seq<MoodboardPin>)
    requires found.Ok? && found.value.Some?
    ensures var r := Answer(found, pins, false);
      && r.body.BoardWithPins?
      && r.body.moodboard == found.value.value
      && forall k :: 0 <= k < |r.body.pins| ==> r.body.pins[k].moodboardId == found.value.value.id
  {
  }

  /** A new address asking for `moodboard-k` with no failure anywhere gets
      200 and the seeded board. */
  lemma NewAddressGetsDefaultBoard(rows: seq<Moodboard>, nextId: nat, pins: seq<MoodboardPin>, email: string, now: nat, k: nat)
    requires 1 <= k <= 5
    requires forall i :: 0 <= i < |rows| ==> rows[i].userEmail != email
    ensures var l := Step(rows, nextId, DefaultName(k), email, now, Faults(false, false, {}, false));
      var r := Answer(l.found, pins, false);
      && r.status == 200
      && r.body.moodboard.name == DefaultName(k)
      && r.body.moodboard.userEmail == email
  {
    NewAddressFindsDefault(rows, nextId, email, now, Faults(false, false, {}, false), k);
  }

  /** Failures while seeding or looking again are swallowed: a 500 comes only
      from the first lookup or from reading the pins. */
  lemma ServerErrorSources(rows: seq<Moodboard>, nextId: nat, pins: seq<MoodboardPin>, name: string, email: string,
                           now: nat, f: Faults, pinsFail: bool)
    ensures var l := Step(rows, nextId, name, email, now, f);
      Answer(l.found, pins, pinsFail).status == 500 <==> f.lookup || (!f.lookup && l.found.value.Some? && pinsFail)
  {
  }
}
