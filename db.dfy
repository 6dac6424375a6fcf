/**
 * The relational store behind the route handlers, reduced to what they use: one
 * table per model, each a sequence of rows in insertion order plus the next
 * auto-increment id. `findFirst` without an order reads the first row.
 */
module Db {
  import opened Wrappers
  import opened Types

  datatype Table<T> = Table(rows: seq<T>, nextId: nat)

  /** Every row's id was issued by the table (below `nextId`), and no two rows share one. */
  ghost predicate IdsFresh<T>(t: Table<T>, idOf: T -> nat) {
    && (forall i :: 0 <= i < |t.rows| ==> idOf(t.rows[i]) < t.nextId)
    && (forall i, j :: 0 <= i < j < |t.rows| ==> idOf(t.rows[i]) != idOf(t.rows[j]))
  }

  function SongRequestId(r: SongRequest): nat { r.id }
  function SettingsId(s: AppSettings): nat { s.id }
  function EventTypeId(e: EventType): nat { e.id }
  function IntakeFormId(f: IntakeForm): nat { f.id }

  /** `findFirst()` with no filter and no order: the first row, if any. */
  function FindFirst<T>(t: Table<T>): (r: Option<T>)
    ensures r.None? <==> t.rows == []
    ensures r.Some? ==> r.value == t.rows[0]
  {
    if t.rows == [] then None else Some(t.rows[0])
  }

  /** `appSettings.create({ data: { acceptingSongRequests } })`: appends a row with the next id. */
  function CreateSettings(t: Table<AppSettings>, accepting: bool): (r: (Table<AppSettings>, AppSettings))
    ensures r.1 == AppSettings(t.nextId, accepting)
    ensures r.0 == Table(t.rows + [r.1], t.nextId + 1)
    ensures IdsFresh(t, SettingsId) ==> IdsFresh(r.0, SettingsId)
  {
    var row := AppSettings(t.nextId, accepting);
    (Table(t.rows + [row], t.nextId + 1), row)
  }

  /**
   * `appSettings.update({ where: { id }, data: { acceptingSongRequests } })`:
   * sets the flag on the row with that id; ids and row order are unchanged.
   */
  function UpdateSettings(t: Table<AppSettings>, id: nat, accepting: bool): (r: Table<AppSettings>)
    ensures r.nextId == t.nextId && |r.rows| == |t.rows|
    ensures forall i :: 0 <= i < |t.rows| ==> r.rows[i].id == t.rows[i].id
    ensures forall i :: 0 <= i < |t.rows| ==>
      r.rows[i].acceptingSongRequests == if t.rows[i].id == id then accepting else t.rows[i].acceptingSongRequests
    ensures IdsFresh(t, SettingsId) ==> IdsFresh(r, SettingsId)
  {
    Table(seq(|t.rows|, i requires 0 <= i < |t.rows| =>
            if t.rows[i].id == id then t.rows[i].(acceptingSongRequests := accepting) else t.rows[i]),
          t.nextId)
  }

  class Database {
    var songRequests: Table<SongRequest>
    var appSettings: Table<AppSettings>
    var eventTypes: Table<EventType>
    var intakeForms: Table<IntakeForm>

    ghost predicate Valid()
      reads this
    {
      && IdsFresh(songRequests, SongRequestId)
      && IdsFresh(appSettings, SettingsId)
      && IdsFresh(eventTypes, EventTypeId)
      && IdsFresh(intakeForms, IntakeFormId)
    }

    /** A fresh, empty database; auto-increment ids start at 1. */
    constructor ()
      ensures Valid()
      ensures songRequests == Table([], 1) && appSettings == Table([], 1)
      ensures eventTypes == Table([], 1) && intakeForms == Table([], 1)
    {
      songRequests := Table([], 1);
      appSettings := Table([], 1);
      eventTypes := Table([], 1);
      intakeForms := Table([], 1);
    }
  }
}
