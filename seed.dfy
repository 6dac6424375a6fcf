/**
 * The database seed script (prisma/seed.ts): creates each default event type
 * that is not there yet, then creates the settings row with requests open unless
 * a row with id 1 exists.
 */
module Seed {
  import opened Wrappers
  import opened Types
  import opened Db
  import AdminSettingsRoute

  /** The default event types, in the order the script creates them. */
  const EventTypeNames: seq<string> := [
    "Wedding", "Corporate Event", "Birthday Party", "School Dance", "Prom",
    "Graduation Party", "Anniversary", "Holiday Party", "Other"
  ]

  predicate HasName(rows: seq<EventType>, name: string) {
    exists i :: 0 <= i < |rows| && rows[i].name == name
  }

  /** `eventType.findFirst({ where: { name } })`: the first row with that name. */
  function FindByName(rows: seq<EventType>, name: string): (r: Option<EventType>)
    ensures r.None? <==> !HasName(rows, name)
    ensures r.Some? ==> r.value in rows && r.value.name == name
  {
    if rows == [] then None
    else if rows[0].name == name then Some(rows[0])
    else
      var r := FindByName(rows[1..], name);
      assert HasName(rows[1..], name) ==> HasName(rows, name) by {
        if HasName(rows[1..], name) {
          var i :| 0 <= i < |rows[1..]| && rows[1..][i].name == name;
          assert rows[i + 1].name == name;
        }
      }
      assert HasName(rows, name) ==> HasName(rows[1..], name) by {
        if HasName(rows, name) {
          var i :| 0 <= i < |rows| && rows[i].name == name;
          assert rows[1..][i - 1].name == name;
        }
      }
      r
  }

  /** One turn of the loop: create the type unless a row with that name exists. */
  function SeedOne(t: Table<EventType>, name: string): (r: Table<EventType>)
    ensures HasName(r.rows, name)
    ensures IdsFresh(t, EventTypeId) ==> IdsFresh(r, EventTypeId)
  {
    if FindByName(t.rows, name).Some? then t
    else
      var r := Table(t.rows + [EventType(t.nextId, name)], t.nextId + 1);
      assert r.rows[|t.rows|].name == name;
      r
  }

  /** The whole loop over `names`. */
  function SeedEventTypes(t: Table<EventType>, names: seq<string>): Table<EventType>
    decreases |names|
  {
    if names == [] then t else SeedEventTypes(SeedOne(t, names[0]), names[1..])
  }

  /**
   * `appSettings.upsert({ where: { id: 1 }, update: {}, create: { acceptingSongRequests: true } })`:
   * a row with id 1 is left alone; otherwise a new open row is created with the next id.
   */
  function UpsertDefaultSettings(t: Table<AppSettings>): (r: Table<AppSettings>)
    ensures (exists i :: 0 <= i < |t.rows| && t.rows[i].id == 1) ==> r == t
    ensures (forall i :: 0 <= i < |t.rows| ==> t.rows[i].id != 1) ==>
              r == CreateSettings(t, true).0
    ensures IdsFresh(t, SettingsId) ==> IdsFresh(r, SettingsId)
  {
    if exists i :: 0 <= i < |t.rows| && t.rows[i].id == 1 then t else CreateSettings(t, true).0
  }

  // ------------------------------------------------------------ properties

  /** Seeding only appends: old rows stay where they were and ids keep growing. */
  lemma {:induction false} SeedKeepsExisting(t: Table<EventType>, names: seq<string>)
    ensures t.rows <= SeedEventTypes(t, names).rows
    ensures t.nextId <= SeedEventTypes(t, names).nextId
    decreases |names|
  {
    if names != [] {
      SeedKeepsExisting(SeedOne(t, names[0]), names[1..]);
    }
  }

  /** Every listed name is present after seeding. */
  lemma {:induction false} SeedCoversNames(t: Table<EventType>, names: seq<string>)
    ensures forall n :: n in names ==> HasName(SeedEventTypes(t, names).rows, n)
    decreases |names|
  {
    if names != [] {
      var t1 := SeedOne(t, names[0]);
      var r := SeedEventTypes(t, names);
      SeedCoversNames(t1, names[1..]);
      SeedKeepsExisting(t1, names[1..]);
      assert HasName(t1.rows, names[0]) by {
        if !HasName(t.rows, names[0]) {
          assert t1.rows[|t.rows|].name == names[0];
        }
      }
      var k :| 0 <= k < |t1.rows| && t1.rows[k].name == names[0];
      assert r.rows[k] == t1.rows[k];
      forall n | n in names ensures HasName(r.rows, n) {
        if n != names[0] { assert n in names[1..]; }
      }
    }
  }

  /** Rows the seed appends carry listed names, each one missing from every row before it. */
  lemma {:induction false} SeedAddsOnlyMissing(t: Table<EventType>, names: seq<string>)
    ensures var r := SeedEventTypes(t, names).rows;
      forall i :: |t.rows| <= i < |r| ==> r[i].name in names && !HasName(r[..i], r[i].name)
    decreases |names|
  {
    if names != [] {
      var t1 := SeedOne(t, names[0]);
      var r := SeedEventTypes(t, names).rows;
      SeedAddsOnlyMissing(t1, names[1..]);
      SeedKeepsExisting(t1, names[1..]);
      forall i | |t.rows| <= i < |r| ensures r[i].name in names && !HasName(r[..i], r[i].name) {
        if i >= |t1.rows| {
          assert r[i].name in names[1..];
        } else {
          assert t1.rows != t.rows;
          assert r[..i] == t.rows;
        }
      }
    }
  }

  /** Seeding appends rows with fresh ids, so the table stays well formed. */
  lemma {:induction false} SeedKeepsIdsFresh(t: Table<EventType>, names: seq<string>)
    requires IdsFresh(t, EventTypeId)
    ensures IdsFresh(SeedEventTypes(t, names), EventTypeId)
    decreases |names|
  {
    if names != [] {
      var t1 := SeedOne(t, names[0]);
      assert IdsFresh(t1, EventTypeId);
      SeedKeepsIdsFresh(t1, names[1..]);
    }
  }

  /** A table that already names every listed type is left exactly as it is. */
  lemma {:induction false} SeedOnCoveredIsIdentity(t: Table<EventType>, names: seq<string>)
    requires forall n :: n in names ==> HasName(t.rows, n)
    ensures SeedEventTypes(t, names) == t
    decreases |names|
  {
    if names != [] {
      assert names[0] in names;
      SeedOnCoveredIsIdentity(t, names[1..]);
    }
  }

  /** Running the seed twice leaves the event types as one run left them. */
  lemma SeedIdempotent(t: Table<EventType>, names: seq<string>)
    ensures SeedEventTypes(SeedEventTypes(t, names), names) == SeedEventTypes(t, names)
  {
    SeedCoversNames(t, names);
    SeedOnCoveredIsIdentity(SeedEventTypes(t, names), names);
  }

  /** The rows the seed creates for `names` when none of them exists yet: consecutive ids from `start`, in list order. */
  function FreshRows(start: nat, names: seq<string>): (r: seq<EventType>)
    ensures |r| == |names|
    ensures forall i :: 0 <= i < |names| ==> r[i] == EventType(start + i, names[i])
  {
    seq(|names|, i requires 0 <= i < |names| => EventType(start + i, names[i]))
  }

  predicate Distinct(names: seq<string>) {
    forall i, j :: 0 <= i < j < |names| ==> names[i] != names[j]
  }

  lemma HasNameAppend(rows: seq<EventType>, e: EventType, n: string)
    ensures HasName(rows + [e], n) <==> HasName(rows, n) || e.name == n
  {
    if HasName(rows + [e], n) {
      var i :| 0 <= i < |rows + [e]| && (rows + [e])[i].name == n;
      if i < |rows| { assert rows[i].name == n; }
    }
    if HasName(rows, n) {
      var i :| 0 <= i < |rows| && rows[i].name == n;
      assert (rows + [e])[i].name == n;
    }
    if e.name == n {
      assert (rows + [e])[|rows|].name == n;
    }
  }

  lemma FreshRowsCons(start: nat, names: seq<string>)
    requires names != []
    ensures FreshRows(start, names) == [EventType(start, names[0])] + FreshRows(start + 1, names[1..])
  {
  }

  lemma DistinctTail(names: seq<string>)
    requires names != [] && Distinct(names)
    ensures Distinct(names[1..])
  {
    forall i, j | 0 <= i < j < |names[1..]| ensures names[1..][i] != names[1..][j] {
      assert names[1..][i] == names[i + 1] && names[1..][j] == names[j + 1];
    }
  }

  /** After the first name is added, the other names are still missing. */
  lemma RestStillMissing(rows: seq<EventType>, e: EventType, names: seq<string>)
    requires names != [] && Distinct(names) && e.name == names[0]
    requires forall n :: n in names ==> !HasName(rows, n)
    ensures forall n :: n in names[1..] ==> !HasName(rows + [e], n)
  {
    forall n | n in names[1..] ensures !HasName(rows + [e], n) {
      var k :| 0 <= k < |names[1..]| && names[1..][k] == n;
      assert names[0] != names[k + 1];
      assert n in names;
      HasNameAppend(rows, e, n);
    }
  }

  lemma AppendAssoc<T>(a: seq<T>, b: seq<T>, c: seq<T>)
    ensures (a + b) + c == a + (b + c)
  {
  }

  /**
   * One step of the seed over distinct missing names: the first is appended with
   * the next id, and the others stay distinct and missing.
   */
  lemma SeedMissingStep(t: Table<EventType>, names: seq<string>)
    requires names != [] && Distinct(names)
    requires forall n :: n in names ==> !HasName(t.rows, n)
    ensures SeedOne(t, names[0]) == Table(t.rows + [EventType(t.nextId, names[0])], t.nextId + 1)
    ensures Distinct(names[1..])
    ensures forall n :: n in names[1..] ==> !HasName(t.rows + [EventType(t.nextId, names[0])], n)
  {
    assert names[0] in names;
    RestStillMissing(t.rows, EventType(t.nextId, names[0]), names);
    DistinctTail(names);
  }

  /** Seeding distinct names that are all missing appends one row per name, in list order, with consecutive ids. */
  lemma {:induction false} SeedMissingNames(t: Table<EventType>, names: seq<string>)
    requires Distinct(names)
    requires forall n :: n in names ==> !HasName(t.rows, n)
    ensures SeedEventTypes(t, names).rows == t.rows + FreshRows(t.nextId, names)
    ensures SeedEventTypes(t, names).nextId == t.nextId + |names|
    decreases |names|
  {
    if names != [] {
      var t1 := Table(t.rows + [EventType(t.nextId, names[0])], t.nextId + 1);
      SeedMissingStep(t, names);
      SeedMissingNames(t1, names[1..]);
      FreshRowsCons(t.nextId, names);
      AppendAssoc(t.rows, [EventType(t.nextId, names[0])], FreshRows(t.nextId + 1, names[1..]));
    }
  }

  /** No default event type is listed twice. */
  lemma DefaultNamesDistinct()
    ensures Distinct(EventTypeNames)
  {
  }

  /** On an empty table with ids starting at 1, the nine default types get ids 1 to 9 in list order. */
  lemma SeedOnEmptyTable()
    ensures SeedEventTypes(Table([], 1), EventTypeNames).rows == FreshRows(1, EventTypeNames)
  {
    DefaultNamesDistinct();
    SeedMissingNames(Table([], 1), EventTypeNames);
    assert [] + FreshRows(1, EventTypeNames) == FreshRows(1, EventTypeNames);
  }

  /**
   * The seed opens requests on an empty store, while both GET routes create a
   * missing row closed: the two defaults disagree.
   */
  lemma SeedAndGetDefaultsDisagree(n: nat)
    ensures UpsertDefaultSettings(Table([], n)).rows[0].acceptingSongRequests
    ensures !AdminSettingsRoute.GetOrCreate(Table([], n)).1.acceptingSongRequests
  {
  }

  // ------------------------------------------------------------ the script

  /** The script's loop over the default event types, applied to `names`. */
  method CreateMissingEventTypes(db: Database, names: seq<string>)
    requires db.Valid()
    modifies db`eventTypes
    ensures db.Valid()
    ensures db.eventTypes == SeedEventTypes(old(db.eventTypes), names)
  {
    for i := 0 to |names|
      invariant db.Valid()
      invariant SeedEventTypes(db.eventTypes, names[i..]) == SeedEventTypes(old(db.eventTypes), names)
    {
      var name := names[i];
      assert names[i..][1..] == names[i + 1..];
      var existing := FindByName(db.eventTypes.rows, name);
      ghost var before := db.eventTypes;
      if existing.None? {
        db.eventTypes := Table(db.eventTypes.rows + [EventType(db.eventTypes.nextId, name)], db.eventTypes.nextId + 1);
      }
      assert db.eventTypes == SeedOne(before, name);
    }
  }

  /**
   * The script's `main()`: seeds the event types in order, then the settings row.
   * The script runs it with `EventTypeNames`; `SeedOnEmptyTable` states what that
   * list yields on an empty table.
   */
  method RunSeed(db: Database, names: seq<string>)
    requires db.Valid()
    modifies db`eventTypes, db`appSettings
    ensures db.Valid()
    ensures db.eventTypes == SeedEventTypes(old(db.eventTypes), names)
    ensures db.appSettings == UpsertDefaultSettings(old(db.appSettings))
  {
    CreateMissingEventTypes(db, names);
    db.appSettings := UpsertDefaultSettings(db.appSettings);
  }
}
