/**
 * The "get or seed" step shared by the two by-name moodboard routes
 * (app/api/moodboard-pins-by-name/route.ts and app/api/moodboards/by-name/route.ts):
 * look the board up; if there is none and the name is one of the five default
 * names, run `createDefaultMoodboards` and look again. Errors while seeding or
 * looking again are swallowed and leave the board missing; an error from the
 * first lookup propagates.
 */
module FindOrSeed {
  import opened Wrappers
  import opened Rows
  import opened Supabase

  /** Which database calls of the step fail. */
  datatype Faults = Faults(
    lookup: bool,            // the first getMoodboardByNameAndEmail
    seedList: bool,          // the existence check inside createDefaultMoodboards
    seedInserts: set<nat>,   // the default inserts (attempt numbers 1..5) that fail
    relookup: bool)          // the second getMoodboardByNameAndEmail

  /** What the step yields: the board (or the error), and the table afterwards. */
  datatype Lookup = Lookup(found: Outcome<Option<Moodboard>>, rows: seq<Moodboard>, nextId: nat)

  /** The step over a table `rows` whose id counter stands at `nextId`. */
  function Step(rows: seq<Moodboard>, nextId: nat, name: string, email: string, now: nat, f: Faults): (l: Lookup)
    ensures l.found.Thrown? <==> f.lookup
    ensures |rows| <= |l.rows| && l.rows[..|rows|] == rows
    ensures l.nextId == nextId + (|l.rows| - |rows|)
    ensures l.found.Ok? && l.found.value.Some? ==>
      && l.found.value.value in l.rows
      && l.found.value.value.name == name
      && l.found.value.value.userEmail == email
  {
    if f.lookup then Lookup(Thrown(QueryError), rows, nextId)
    else
      var first := MoodboardByNameAndEmail(rows, name, email);
      if first.Some? || !IsDefaultBoardName(name) || f.seedList then
        Lookup(Ok(first), rows, nextId)
      else
        var added := if MoodboardsByEmail(rows, email) == [] then SeededBoards(email, now, nextId, Survivors(5, f.seedInserts)) else [];
        var after := rows + added;
        assert after[..|rows|] == rows;
        Lookup(Ok(if f.relookup then None else MoodboardByNameAndEmail(after, name, email)), after, nextId + |added|)
  }

  /** The table grows only for a default name that the e-mail address does
      not have, and only when it owns no board at all. */
  lemma OnlyDefaultNamesSeed(rows: seq<Moodboard>, nextId: nat, name: string, email: string, now: nat, f: Faults)
    ensures Step(rows, nextId, name, email, now, f).rows != rows ==>
      && IsDefaultBoardName(name)
      && MoodboardByNameAndEmail(rows, name, email).None?
      && MoodboardsByEmail(rows, email) == []
      && !f.lookup && !f.seedList
  {
  }

  /** A board that already exists is returned as it is, and nothing is written. */
  lemma ExistingBoardReturned(rows: seq<Moodboard>, nextId: nat, name: string, email: string, now: nat, f: Faults)
    requires !f.lookup && MoodboardByNameAndEmail(rows, name, email).Some?
    ensures Step(rows, nextId, name, email, now, f) == Lookup(Ok(MoodboardByNameAndEmail(rows, name, email)), rows, nextId)
  {
  }

  /** An address that owns some board but not the requested one gets nothing
      created and no board back. */
  lemma OwnerWithoutThatBoard(rows: seq<Moodboard>, nextId: nat, name: string, email: string, now: nat, f: Faults)
    requires !f.lookup && MoodboardByNameAndEmail(rows, name, email).None?
    requires exists k :: 0 <= k < |rows| && rows[k].userEmail == email
    ensures Step(rows, nextId, name, email, now, f) == Lookup(Ok(None), rows, nextId)
  {
    OwnsNothing(rows, email);
    assert rows + [] == rows;
  }

  /** For an address that owns no board, asking for `moodboard-k` seeds the
      defaults and finds the k-th exactly when its insert did not fail (and the
      surrounding calls succeed). */
  lemma NewAddressFindsDefault(rows: seq<Moodboard>, nextId: nat, email: string, now: nat, f: Faults, k: nat)
    requires 1 <= k <= 5
    requires !f.lookup && !f.seedList && !f.relookup
    requires forall i :: 0 <= i < |rows| ==> rows[i].userEmail != email
    ensures var l := Step(rows, nextId, DefaultName(k), email, now, f);
      && l.rows == rows + SeededBoards(email, now, nextId, Survivors(5, f.seedInserts))
      && (l.found.value.Some? <==> k !in f.seedInserts)
      && (l.found.value.Some? ==>
            && l.found.value.value.name == DefaultName(k)
            && l.found.value.value.description == Some(DefaultDescription(k))
            && l.found.value.value.userEmail == email)
  {
    OwnsNothing(rows, email);
    DefaultBoardNames(DefaultName(k));
    assert MoodboardByNameAndEmail(rows, DefaultName(k), email).None?;
    SeededLookup(rows, email, now, nextId, f.seedInserts, k);
  }

  /** With no failures at all, a new address asking for a default name gets it. */
  lemma NewAddressNoFailures(rows: seq<Moodboard>, nextId: nat, email: string, now: nat, k: nat)
    requires 1 <= k <= 5
    requires forall i :: 0 <= i < |rows| ==> rows[i].userEmail != email
    ensures Step(rows, nextId, DefaultName(k), email, now, Faults(false, false, {}, false)).found.value.Some?
  {
    NewAddressFindsDefault(rows, nextId, email, now, Faults(false, false, {}, false), k);
  }

  /** The step on the database object: the table and counter become what
      `Step` says, and the pins table is untouched. */
  method LookupOrSeed(db: Database, name: string, email: string, now: nat, f: Faults)
    returns (r: Outcome<Option<Moodboard>>)
    requires db.Valid()
    modifies db
    ensures db.Valid()
    ensures db.pins == old(db.pins)
    ensures var l := Step(old(db.moodboards), old(db.nextId), name, email, now, f);
      r == l.found && db.moodboards == l.rows && db.nextId == l.nextId
  {
    ghost var rows, id0 := db.moodboards, db.nextId;
    ghost var l := Step(rows, id0, name, email, now, f);
    var first := db.GetMoodboardByNameAndEmail(name, email, f.lookup);
    if first.Thrown? {
      return Thrown(first.message);
    }
    var board := first.value;
    if board.None? && IsDefaultBoardName(name) {
      var seeded := db.CreateDefaultMoodboards(email, now, f.seedList, f.seedInserts);
      if seeded.Ok? {
        ghost var added := if MoodboardsByEmail(rows, email) == [] then SeededBoards(email, now, id0, Survivors(5, f.seedInserts)) else [];
        assert MoodboardsByEmail(rows, email) != [] ==> rows + added == rows;
        assert db.moodboards == rows + added && db.nextId == id0 + |added|;
        assert l.rows == rows + added;
        var again := db.GetMoodboardByNameAndEmail(name, email, f.relookup);
        if again.Ok? {
          board := again.value;
        }
      }
    }
    r := Ok(board);
  }
}
