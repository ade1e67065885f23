/**
 * The moodboard store (lib/supabase.ts): the `moodboards` and
 * `moodboard_pins` tables held in memory, the queries the helpers issue, and
 * `createDefaultMoodboards`, which seeds five boards for a new e-mail address.
 *
 * Every database call may fail; whether it does is an input (`fails`), and a
 * failed call throws and leaves the tables as they were. Timestamps are given
 * naturals; row ids are drawn from a counter the database owns.
 */
module Supabase {
  import opened Wrappers
  import opened Rows

  /** A row of `moodboards`. */
  datatype Moodboard = Moodboard(
    id: nat,
    name: string,
    description: Option<string>,
    userEmail: string,
    createdAt: nat,
    updatedAt: nat)

  /** A row of `moodboard_pins`; `pinData` is the provider's pin, kept as opaque JSON text. */
  datatype MoodboardPin = MoodboardPin(
    id: nat,
    moodboardId: nat,
    pinId: string,
    pinData: string,
    positionX: Option<int>,
    positionY: Option<int>,
    createdAt: nat)

  /** What a failed database call throws. */
  const QueryError := "database error"

  function BoardCreatedAt(m: Moodboard): int { m.createdAt }
  function PinCreatedAt(p: MoodboardPin): int { p.createdAt }
  function PinId(p: MoodboardPin): nat { p.id }

  function OwnedBy(email: string): Moodboard -> bool {
    (m: Moodboard) => m.userEmail == email
  }

  function NamedFor(name: string, email: string): Moodboard -> bool {
    (m: Moodboard) => m.name == name && m.userEmail == email
  }

  function OnBoard(moodboardId: nat): MoodboardPin -> bool {
    (p: MoodboardPin) => p.moodboardId == moodboardId
  }

  function OtherThan(id: nat): MoodboardPin -> bool {
    (p: MoodboardPin) => p.id != id
  }

  // ---------------------------------------------------------------------------
  // Queries

  /** `getMoodboardsByEmail`: the boards owned by `email`, newest first. */
  function MoodboardsByEmail(rows: seq<Moodboard>, email: string): (r: seq<Moodboard>)
    ensures SortedDesc(r, BoardCreatedAt)
    ensures forall m :: multiset(r)[m] == if m.userEmail == email then multiset(rows)[m] else 0
    ensures forall k :: 0 <= k < |r| ==> r[k].userEmail == email
  {
    FilterCounts(rows, OwnedBy(email));
    var r := SortDesc(Filter(rows, OwnedBy(email)), BoardCreatedAt);
    assert forall k :: 0 <= k < |r| ==> r[k] in multiset(Filter(rows, OwnedBy(email)));
    r
  }

  /** Whether `email` owns any board at all. */
  lemma OwnsNothing(rows: seq<Moodboard>, email: string)
    ensures (MoodboardsByEmail(rows, email) == []) <==> (forall k :: 0 <= k < |rows| ==> rows[k].userEmail != email)
  {
    var r := MoodboardsByEmail(rows, email);
    if r == [] {
      forall k | 0 <= k < |rows| ensures rows[k].userEmail != email {
        assert multiset(rows)[rows[k]] > 0;
        assert multiset(r)[rows[k]] == 0;
      }
    } else {
      assert r[0] in multiset(r);
      assert r[0] in multiset(rows);
    }
  }

  /** `getMoodboardByNameAndEmail`: `.single()` answers PGRST116 unless exactly
      one row matches, and the helper turns that answer into null. */
  function MoodboardByNameAndEmail(rows: seq<Moodboard>, name: string, email: string): (r: Option<Moodboard>)
    ensures r.Some? <==> |Filter(rows, NamedFor(name, email))| == 1
    ensures r.Some? ==> r.value in rows && r.value.name == name && r.value.userEmail == email
    ensures r.Some? ==> Filter(rows, NamedFor(name, email)) == [r.value]
    ensures (forall k :: 0 <= k < |rows| ==> rows[k].name != name || rows[k].userEmail != email) ==> r.None?
  {
    var matches := Filter(rows, NamedFor(name, email));
    FilterCounts(rows, NamedFor(name, email));
    assert (forall k :: 0 <= k < |rows| ==> rows[k].name != name || rows[k].userEmail != email) ==> matches == [] by {
      if forall k :: 0 <= k < |rows| ==> rows[k].name != name || rows[k].userEmail != email {
        FilterNone(rows, NamedFor(name, email));
      }
    }
    if |matches| == 1 then
      assert matches[0] in multiset(matches);
      Some(matches[0])
    else
      None
  }

  /** `getMoodboardPins`: the pins of one board, newest first. */
  function PinsOfMoodboard(pins: seq<MoodboardPin>, moodboardId: nat): (r: seq<MoodboardPin>)
    ensures SortedDesc(r, PinCreatedAt)
    ensures forall p :: multiset(r)[p] == if p.moodboardId == moodboardId then multiset(pins)[p] else 0
    ensures forall k :: 0 <= k < |r| ==> r[k].moodboardId == moodboardId
  {
    FilterCounts(pins, OnBoard(moodboardId));
    var r := SortDesc(Filter(pins, OnBoard(moodboardId)), PinCreatedAt);
    assert forall k :: 0 <= k < |r| ==> r[k] in multiset(Filter(pins, OnBoard(moodboardId)));
    r
  }

  // ---------------------------------------------------------------------------
  // The default boards

  function Digit(i: nat): char
    requires i <= 9
  {
    ('0' as int + i) as char
  }

  /** `moodboard-${i}` */
  function DefaultName(i: nat): string
    requires 1 <= i <= 5
  {
    "moodboard-" + [Digit(i)]
  }

  /** `Default moodboard ${i}` */
  function DefaultDescription(i: nat): string
    requires 1 <= i <= 5
  {
    "Default moodboard " + [Digit(i)]
  }

  /** The names the routes test with `/^moodboard-[1-5]$/`. */
  predicate IsDefaultBoardName(name: string) {
    |name| == 11 && name[..10] == "moodboard-" && '1' <= name[10] <= '5'
  }

  /** The pattern accepts exactly the five names `createDefaultMoodboards`
      seeds, so `moodboard-6` or `moodboard-10` never seed. */
  lemma DefaultBoardNames(name: string)
    ensures IsDefaultBoardName(name) <==> exists k :: 1 <= k <= 5 && name == DefaultName(k)
  {
    if IsDefaultBoardName(name) {
      var k := name[10] as int - '0' as int;
      assert name == DefaultName(k);
    }
  }

  lemma DefaultNameInjective(a: nat, b: nat)
    requires 1 <= a <= 5 && 1 <= b <= 5
    ensures DefaultName(a) == DefaultName(b) ==> a == b
  {
    if DefaultName(a) == DefaultName(b) {
      assert DefaultName(a)[10] == DefaultName(b)[10];
    }
  }

  /** The row `createDefaultMoodboards` inserts on attempt `i`. */
  function DefaultBoard(i: nat, email: string, id: nat, now: nat): Moodboard
    requires 1 <= i <= 5
  {
    Moodboard(id, DefaultName(i), Some(DefaultDescription(i)), email, now, now)
  }

  /** The attempts among 1..n whose insert does not fail, in ascending order. */
  function Survivors(n: nat, failing: set<nat>): (r: seq<nat>)
    requires n <= 5
    ensures |r| <= n
    ensures forall k :: 0 <= k < |r| ==> 1 <= r[k] <= n && r[k] !in failing
    ensures forall i, j :: 0 <= i < j < |r| ==> r[i] < r[j]
  {
    if n == 0 then [] else Survivors(n - 1, failing) + (if n in failing then [] else [n])
  }

  /** Every attempt whose insert does not fail survives. */
  lemma {:induction false} SurvivorsComplete(n: nat, failing: set<nat>)
    requires n <= 5
    ensures forall i :: 1 <= i <= n && i !in failing ==> i in Survivors(n, failing)
  {
    if n > 0 {
      SurvivorsComplete(n - 1, failing);
    }
  }

  /** With no failing insert, all five attempts survive. */
  lemma AllSurvive(failing: set<nat>)
    requires forall i :: 1 <= i <= 5 ==> i !in failing
    ensures Survivors(5, failing) == [1, 2, 3, 4, 5]
  {
    assert 1 !in failing && 2 !in failing && 3 !in failing && 4 !in failing && 5 !in failing;
    assert Survivors(0, failing) == [];
    assert Survivors(1, failing) == Survivors(0, failing) + [1];
    assert Survivors(2, failing) == Survivors(1, failing) + [2];
    assert Survivors(3, failing) == Survivors(2, failing) + [3];
    assert Survivors(4, failing) == Survivors(3, failing) + [4];
    assert Survivors(5, failing) == Survivors(4, failing) + [5];
  }

  /** The rows inserted for the surviving attempts `ks`, ids counting up from `firstId`. */
  function SeededBoards(email: string, now: nat, firstId: nat, ks: seq<nat>): (r: seq<Moodboard>)
    requires forall k :: 0 <= k < |ks| ==> 1 <= ks[k] <= 5
  {
    seq(|ks|, j requires 0 <= j < |ks| => DefaultBoard(ks[j], email, firstId + j, now))
  }

  lemma SeededSnoc(email: string, now: nat, firstId: nat, ks: seq<nat>, i: nat)
    requires forall k :: 0 <= k < |ks| ==> 1 <= ks[k] <= 5
    requires 1 <= i <= 5
    ensures SeededBoards(email, now, firstId, ks + [i])
         == SeededBoards(email, now, firstId, ks) + [DefaultBoard(i, email, firstId + |ks|, now)]
  {
  }

  /** A seeded board named `moodboard-k` exists exactly when attempt k survived,
      and then it is the only board of that name for the e-mail address. */
  lemma SeededLookup(rows: seq<Moodboard>, email: string, now: nat, firstId: nat, failing: set<nat>, k: nat)
    requires 1 <= k <= 5
    requires forall i :: 0 <= i < |rows| ==> rows[i].userEmail != email
    ensures var found := MoodboardByNameAndEmail(rows + SeededBoards(email, now, firstId, Survivors(5, failing)), DefaultName(k), email);
      && (found.Some? <==> k !in failing)
      && (found.Some? ==> found.value.description == Some(DefaultDescription(k)) && found.value.createdAt == now)
  {
    var ks := Survivors(5, failing);
    SurvivorsComplete(5, failing);
    assert k in ks <==> k !in failing;
    SeededLookupAmong(rows, email, now, firstId, ks, k);
  }

  lemma SeededLookupAmong(rows: seq<Moodboard>, email: string, now: nat, firstId: nat, ks: seq<nat>, k: nat)
    requires 1 <= k <= 5
    requires forall i :: 0 <= i < |ks| ==> 1 <= ks[i] <= 5
    requires forall a, b :: 0 <= a < b < |ks| ==> ks[a] < ks[b]
    requires forall i :: 0 <= i < |rows| ==> rows[i].userEmail != email
    ensures var found := MoodboardByNameAndEmail(rows + SeededBoards(email, now, firstId, ks), DefaultName(k), email);
      && (found.Some? <==> k in ks)
      && (found.Some? ==> found.value.description == Some(DefaultDescription(k)) && found.value.createdAt == now)
  {
    var seeded := SeededBoards(email, now, firstId, ks);
    var p := NamedFor(DefaultName(k), email);
    FilterConcat(rows, seeded, p);
    FilterNone(rows, p);
    assert Filter(rows + seeded, p) == Filter(seeded, p);
    var found := MoodboardByNameAndEmail(rows + seeded, DefaultName(k), email);
    if k !in ks {
      SeededFilterAbsent(email, now, firstId, ks, k);
      assert found.None?;
    } else {
      var j :| 0 <= j < |ks| && ks[j] == k;
      SeededFilterPresent(email, now, firstId, ks, j);
      assert found.Some?;
      assert found.value == DefaultBoard(k, email, firstId + j, now);
    }
  }

  lemma SeededFilterAbsent(email: string, now: nat, firstId: nat, ks: seq<nat>, k: nat)
    requires forall i :: 0 <= i < |ks| ==> 1 <= ks[i] <= 5
    requires 1 <= k <= 5 && k !in ks
    ensures Filter(SeededBoards(email, now, firstId, ks), NamedFor(DefaultName(k), email)) == []
  {
    var seeded := SeededBoards(email, now, firstId, ks);
    forall j | 0 <= j < |seeded| ensures seeded[j].name != DefaultName(k) {
      DefaultNameInjective(ks[j], k);
    }
    FilterNone(seeded, NamedFor(DefaultName(k), email));
  }

  lemma SeededFilterPresent(email: string, now: nat, firstId: nat, ks: seq<nat>, j: nat)
    requires forall i :: 0 <= i < |ks| ==> 1 <= ks[i] <= 5
    requires forall a, b :: 0 <= a < b < |ks| ==> ks[a] < ks[b]
    requires j < |ks|
    ensures Filter(SeededBoards(email, now, firstId, ks), NamedFor(DefaultName(ks[j]), email))
         == [DefaultBoard(ks[j], email, firstId + j, now)]
  {
    var seeded := SeededBoards(email, now, firstId, ks);
    forall i | 0 <= i < |seeded| && i != j ensures seeded[i].name != DefaultName(ks[j]) {
      DefaultNameInjective(ks[i], ks[j]);
    }
    FilterSingle(seeded, NamedFor(DefaultName(ks[j]), email), j);
  }

  // ---------------------------------------------------------------------------
  // The tables

  class Database {
    var moodboards: seq<Moodboard>
    var pins: seq<MoodboardPin>
    var nextId: nat

    /** Ids are drawn from `nextId` and never reused. */
    ghost predicate Valid()
      reads this
    {
      && (forall k :: 0 <= k < |moodboards| ==> moodboards[k].id < nextId)
      && (forall k :: 0 <= k < |pins| ==> pins[k].id < nextId)
      && (forall i, j :: 0 <= i < j < |moodboards| ==> moodboards[i].id != moodboards[j].id)
      && (forall i, j :: 0 <= i < j < |pins| ==> pins[i].id != pins[j].id)
    }

    constructor ()
      ensures Valid()
      ensures moodboards == [] && pins == []
    {
      moodboards, pins, nextId := [], [], 0;
    }

    /** `getMoodboardsByEmail(email)` */
    method GetMoodboardsByEmail(email: string, fails: bool) returns (r: Outcome<seq<Moodboard>>)
      ensures fails ==> r == Thrown(QueryError)
      ensures !fails ==> r == Ok(MoodboardsByEmail(moodboards, email))
    {
      if fails {
        return Thrown(QueryError);
      }
      r := Ok(MoodboardsByEmail(moodboards, email));
    }

    /** `getMoodboardByNameAndEmail(name, email)`: null rather than an error
        when no single row matches. */
    method GetMoodboardByNameAndEmail(name: string, email: string, fails: bool) returns (r: Outcome<Option<Moodboard>>)
      ensures fails ==> r == Thrown(QueryError)
      ensures !fails ==> r == Ok(MoodboardByNameAndEmail(moodboards, name, email))
    {
      if fails {
        return Thrown(QueryError);
      }
      r := Ok(MoodboardByNameAndEmail(moodboards, name, email));
    }

    /** `getMoodboardPins(moodboardId)` */
    method GetMoodboardPins(moodboardId: nat, fails: bool) returns (r: Outcome<seq<MoodboardPin>>)
      ensures fails ==> r == Thrown(QueryError)
      ensures !fails ==> r == Ok(PinsOfMoodboard(pins, moodboardId))
    {
      if fails {
        return Thrown(QueryError);
      }
      r := Ok(PinsOfMoodboard(pins, moodboardId));
    }

    /** `createMoodboard(moodboard)`: inserts one row and returns it. */
    method CreateMoodboard(name: string, description: Option<string>, userEmail: string,
                           createdAt: nat, updatedAt: nat, fails: bool)
      returns (r: Outcome<Moodboard>)
      requires Valid()
      modifies this
      ensures Valid()
      ensures pins == old(pins)
      ensures fails ==> r == Thrown(QueryError) && moodboards == old(moodboards) && nextId == old(nextId)
      ensures !fails ==> && r == Ok(Moodboard(old(nextId), name, description, userEmail, createdAt, updatedAt))
                         && moodboards == old(moodboards) + [r.value]
                         && nextId == old(nextId) + 1
    {
      if fails {
        return Thrown(QueryError);
      }
      var row := Moodboard(nextId, name, description, userEmail, createdAt, updatedAt);
      moodboards := moodboards + [row];
      nextId := nextId + 1;
      r := Ok(row);
    }

    /** `addPinToMoodboard(pin)`: inserts one row and returns it. */
    method AddPinToMoodboard(moodboardId: nat, pinId: string, pinData: string,
                             positionX: Option<int>, positionY: Option<int>, createdAt: nat, fails: bool)
      returns (r: Outcome<MoodboardPin>)
      requires Valid()
      modifies this
      ensures Valid()
      ensures moodboards == old(moodboards)
      ensures fails ==> r == Thrown(QueryError) && pins == old(pins) && nextId == old(nextId)
      ensures !fails ==> && r == Ok(MoodboardPin(old(nextId), moodboardId, pinId, pinData, positionX, positionY, createdAt))
                         && pins == old(pins) + [r.value]
                         && nextId == old(nextId) + 1
    {
      if fails {
        return Thrown(QueryError);
      }
      var row := MoodboardPin(nextId, moodboardId, pinId, pinData, positionX, positionY, createdAt);
      pins := pins + [row];
      nextId := nextId + 1;
      r := Ok(row);
    }

    /** `removePinFromMoodboard(id)`: deletes the rows with that id, keeps the
        others in order. */
    method RemovePinFromMoodboard(id: nat, fails: bool) returns (r: Outcome<bool>)
      requires Valid()
      modifies this
      ensures Valid()
      ensures moodboards == old(moodboards) && nextId == old(nextId)
      ensures fails ==> r == Thrown(QueryError) && pins == old(pins)
      ensures !fails ==> r == Ok(true) && pins == Filter(old(pins), OtherThan(id))
      ensures forall p :: p in pins ==> p.id != id || fails
      ensures forall p :: p in old(pins) && p.id != id ==> p in pins
    {
      if fails {
        return Thrown(QueryError);
      }
      ghost var before := pins;
      FilterCounts(before, OtherThan(id));
      assert DistinctKeys(before, PinId);
      FilterKeepsKeysDistinct(before, OtherThan(id), PinId);
      pins := Filter(pins, OtherThan(id));
      forall p | p in before && p.id != id ensures p in pins {
        assert multiset(before)[p] > 0;
      }
      r := Ok(true);
    }

    /** `updatePinPosition(id, x, y)`: sets the position of the row with that
        id; with no such row `.single()` fails and nothing changes. */
    method UpdatePinPosition(id: nat, x: int, y: int, fails: bool) returns (r: Outcome<MoodboardPin>)
      requires Valid()
      modifies this
      ensures Valid()
      ensures moodboards == old(moodboards) && nextId == old(nextId)
      ensures |pins| == |old(pins)|
      ensures (fails || forall k :: 0 <= k < |old(pins)| ==> old(pins)[k].id != id) ==> r.Thrown? && pins == old(pins)
      ensures !fails && (exists k :: 0 <= k < |old(pins)| && old(pins)[k].id == id) ==> r.Ok?
      ensures r.Ok? ==> r.value.id == id && r.value in pins
      ensures r.Ok? ==> exists k :: (
        && 0 <= k < |old(pins)| && old(pins)[k].id == id
        && r.value == old(pins)[k].(positionX := Some(x), positionY := Some(y)) && pins[k] == r.value)
      ensures forall k :: 0 <= k < |pins| && old(pins)[k].id != id ==> pins[k] == old(pins)[k]
      ensures forall k :: 0 <= k < |pins| && old(pins)[k].id == id ==>
        pins[k] == if fails then old(pins)[k] else old(pins)[k].(positionX := Some(x), positionY := Some(y))
    {
      if fails {
        return Thrown(QueryError);
      }
      var k := 0;
      while k < |pins|
        invariant 0 <= k <= |pins|
        invariant forall i :: 0 <= i < k ==> pins[i].id != id
      {
        if pins[k].id == id {
          var row := pins[k].(positionX := Some(x), positionY := Some(y));
          pins := pins[k := row];
          assert pins[k] == row;
          return Ok(row);
        }
        k := k + 1;
      }
      r := Thrown(QueryError);
    }

    /** `createDefaultMoodboards(email)`: when the address owns no board, tries
        the five default inserts in order and returns the ones that succeeded;
        otherwise returns the boards it already has. */
    method CreateDefaultMoodboards(email: string, now: nat, listFails: bool, failingInserts: set<nat>)
      returns (r: Outcome<seq<Moodboard>>)
      requires Valid()
      modifies this
      ensures Valid()
      ensures pins == old(pins)
      ensures listFails ==> r.Thrown? && moodboards == old(moodboards) && nextId == old(nextId)
      ensures !listFails && MoodboardsByEmail(old(moodboards), email) != [] ==>
        && r == Ok(MoodboardsByEmail(old(moodboards), email))
        && moodboards == old(moodboards) && nextId == old(nextId)
      ensures !listFails && MoodboardsByEmail(old(moodboards), email) == [] ==>
        && r == Ok(SeededBoards(email, now, old(nextId), Survivors(5, failingInserts)))
        && moodboards == old(moodboards) + r.value
        && nextId == old(nextId) + |r.value|
    {
      var existing := GetMoodboardsByEmail(email, listFails);
      if existing.Thrown? {
        return Thrown(existing.message);
      }
      if |existing.value| > 0 {
        return existing;
      }
      var made := InsertDefaults(email, now, failingInserts);
      r := Ok(made);
    }

    /** The insert loop of `createDefaultMoodboards`: attempts `moodboard-1` to
        `moodboard-5` in order; the attempts in `failingInserts` throw and are
        skipped. */
    method InsertDefaults(email: string, now: nat, failingInserts: set<nat>) returns (made: seq<Moodboard>)
      requires Valid()
      modifies this
      ensures Valid()
      ensures pins == old(pins)
      ensures made == SeededBoards(email, now, old(nextId), Survivors(5, failingInserts))
      ensures moodboards == old(moodboards) + made
      ensures nextId == old(nextId) + |made|
    {
      made := [];
      var i := 1;
      while i <= 5
        invariant 1 <= i <= 6
        invariant Valid()
        invariant pins == old(pins)
        invariant moodboards == old(moodboards) + made
        invariant nextId == old(nextId) + |made|
        invariant made == SeededBoards(email, now, old(nextId), Survivors(i - 1, failingInserts))
      {
        ghost var ks := Survivors(i - 1, failingInserts);
        ghost var before := moodboards;
        var created := CreateMoodboard(DefaultName(i), Some(DefaultDescription(i)), email, now, now, i in failingInserts);
        if created.Ok? {
          assert created.value == DefaultBoard(i, email, old(nextId) + |made|, now);
          SeededSnoc(email, now, old(nextId), ks, i);
          made := made + [created.value];
          assert moodboards == before + [created.value];
          assert Survivors(i, failingInserts) == ks + [i];
        } else {
          assert Survivors(i, failingInserts) == ks;
        }
        i := i + 1;
      }
    }
  }
}
