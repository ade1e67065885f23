/**
 * `GET /api/moodboards/by-name?name=…&email=…` (app/api/moodboards/by-name/route.ts):
 * one board of an address, found or seeded by name. The `access_token`
 * parameter is only logged, so it is not an input here.
 */
module MoodboardsByNameRoute {
  import opened Wrappers
  import opened Js
  import opened Http
  import opened Supabase
  import opened FindOrSeed

  datatype Body = Failure(error: string) | Found(moodboard: Moodboard)

  /** The response once both parameters are present. */
  function Answer(found: Outcome<Option<Moodboard>>): (r: Response<Body>)
    ensures r.headers == []
    ensures r.status == 500 <==> found.Thrown?
    ensures r.status == 404 <==> found.Ok? && found.value.None?
    ensures r.status == 200 <==> found.Ok? && found.value.Some?
    ensures r.status == 200 ==> r.body == Found(found.value.value)
  {
    match found
    case Thrown(_) => Response(500, [], Failure("Failed to fetch moodboard"))
    case Ok(None) => Response(404, [], Failure("Moodboard not found"))
    case Ok(Some(board)) => Response(200, [], Found(board))
  }

  /** `GET`: one combined parameter guard, then the get-or-seed step. */
  method Get(db: Database, name: Option<string>, email: Option<string>, now: nat, f: Faults)
    returns (resp: Response<Body>)
    requires db.Valid()
    modifies db
    ensures db.Valid()
    ensures db.pins == old(db.pins)
    ensures !Truthy(name) || !Truthy(email) ==>
      && resp == Response(400, [], Failure("Name and email parameters are required"))
      && db.moodboards == old(db.moodboards) && db.nextId == old(db.nextId)
    ensures Truthy(name) && Truthy(email) ==>
      var l := Step(old(db.moodboards), old(db.nextId), name.value, email.value, now, f);
      && db.moodboards == l.rows && db.nextId == l.nextId
      && resp == Answer(l.found)
  {
    if !Truthy(name) || !Truthy(email) {
      return Response(400, [], Failure("Name and email parameters are required"));
    }
    var found := LookupOrSeed(db, name.value, email.value, now, f);
    if found.Thrown? {
      return Response(500, [], Failure("Failed to fetch moodboard"));
    }
    if found.value.None? {
      return Response(404, [], Failure("Moodboard not found"));
    }
    resp := Response(200, [], Found(found.value.value));
  }

  /** A 200 answer carries a board of the requested name and address that is
      in the table afterwards. */
  lemma FoundIsRequested(rows: seq<Moodboard>, nextId: nat, name: string, email: string, now: nat, f: Faults)
    ensures var l := Step(rows, nextId, name, email, now, f);
      Answer(l.found).status == 200 ==>
        && Answer(l.found).body.moodboard in l.rows
        && Answer(l.found).body.moodboard.name == name
        && Answer(l.found).body.moodboard.userEmail == email
  {
  }
}
