/**
 * The admin settings route (src/app/api/admin/settings/route.ts): GET returns the
 * settings row, creating it with requests closed when absent; PUT stores the
 * `acceptingSongRequests` it is sent, keeping the stored value when the body
 * leaves it out.
 */
module AdminSettingsRoute {
  import opened Wrappers
  import opened Js
  import opened Types
  import opened Db

  // ------------------------------------------------------------ specification

  /**
   * GET: the first settings row, or a new one with `acceptingSongRequests = false`
   * when there is none. The song-request setting route's GET runs the same code.
   */
  function GetOrCreate(t: Table<AppSettings>): (r: (Table<AppSettings>, AppSettings))
    ensures FindFirst(r.0) == Some(r.1)
    ensures t.rows != [] ==> r == (t, t.rows[0])
    ensures t.rows == [] ==> r.1 == AppSettings(t.nextId, false) && r.0 == Table([r.1], t.nextId + 1)
  {
    match FindFirst(t)
    case Some(row) => (t, row)
    case None => CreateSettings(t, false)
  }

  /** The result of a PUT: the table and row as stored, or a value the store refuses. */
  datatype PutOutcome = Stored(table: Table<AppSettings>, row: AppSettings) | Refused

  /**
   * PUT with `v` = `body.acceptingSongRequests`: `v ?? stored value` on an
   * existing row, `v ?? false` for a new one. A value that is neither a boolean
   * nor null/undefined is refused by the store.
   */
  function PutSettings(t: Table<AppSettings>, v: JsValue): (r: PutOutcome)
    ensures r.Refused? <==> !(IsNullish(v) || v.Bool?)
    ensures r.Stored? ==> FindFirst(r.table) == Some(r.row)
    ensures r.Stored? && v.Bool? ==> r.row.acceptingSongRequests == v.b
    ensures r.Stored? && IsNullish(v) && t.rows != [] ==> r.row == t.rows[0]
    ensures r.Stored? && IsNullish(v) && t.rows == [] ==> !r.row.acceptingSongRequests
    ensures r.Stored? && t.rows == [] ==> r.table == Table([r.row], t.nextId + 1) && r.row.id == t.nextId
    ensures r.Stored? && t.rows != [] ==> r.table.nextId == t.nextId && |r.table.rows| == |t.rows|
                                          && r.row == t.rows[0].(acceptingSongRequests := r.row.acceptingSongRequests)
    ensures r.Stored? && t.rows != [] ==> forall i :: 0 <= i < |t.rows| ==>
      r.table.rows[i] == if t.rows[i].id == t.rows[0].id then r.row else t.rows[i]
    ensures r.Stored? && t.rows != [] && IdsFresh(t, SettingsId) ==> r.table.rows[1..] == t.rows[1..]
  {
    if !(IsNullish(v) || v.Bool?) then Refused
    else match FindFirst(t)
      case Some(first) =>
        var accepting := if IsNullish(v) then first.acceptingSongRequests else v.b;
        var t' := UpdateSettings(t, first.id, accepting);
        Stored(t', t'.rows[0])
      case None =>
        var accepting := if IsNullish(v) then false else v.b;
        var (t', row) := CreateSettings(t, accepting);
        Stored(t', row)
  }

  // ------------------------------------------------------------ properties

  /** A GET after a stored PUT reports the row the PUT returned and creates nothing. */
  lemma GetAfterPut(t: Table<AppSettings>, v: JsValue)
    requires PutSettings(t, v).Stored?
    ensures GetOrCreate(PutSettings(t, v).table) == (PutSettings(t, v).table, PutSettings(t, v).row)
  {
  }

  /** A second GET changes nothing and reports what the first reported. */
  lemma GetIdempotent(t: Table<AppSettings>)
    ensures GetOrCreate(GetOrCreate(t).0) == GetOrCreate(t)
  {
  }

  /** A PUT whose body leaves the flag out (undefined or null) leaves an existing table exactly as it was. */
  lemma {:induction false} PutWithoutValueKeepsTable(t: Table<AppSettings>, v: JsValue)
    requires IdsFresh(t, SettingsId) && t.rows != [] && IsNullish(v)
    ensures PutSettings(t, v) == Stored(t, t.rows[0])
  {
    var t' := UpdateSettings(t, t.rows[0].id, t.rows[0].acceptingSongRequests);
    assert t'.rows == t.rows by {
      forall i | 0 <= i < |t.rows| ensures t'.rows[i] == t.rows[i] {
        if i > 0 { assert SettingsId(t.rows[0]) != SettingsId(t.rows[i]); }
      }
    }
  }

  // ------------------------------------------------------------ handlers

  /** GET: the settings row (created closed when absent), or 500 when the store fails. */
  method HandleGet(db: Database, storeFails: bool) returns (reply: Response<AppSettings>)
    requires db.Valid()
    modifies db`appSettings
    ensures db.Valid()
    ensures storeFails ==> reply == Failure(500, "Failed to fetch app settings")
                           && db.appSettings == old(db.appSettings)
    ensures !storeFails ==> reply.Reply? && reply.status == 200
                            && (db.appSettings, reply.body) == GetOrCreate(old(db.appSettings))
  {
    if storeFails {
      return Failure(500, "Failed to fetch app settings");
    }
    var settings := FindFirst(db.appSettings);
    if settings.None? {
      var (t, row) := CreateSettings(db.appSettings, false);
      db.appSettings := t;
      settings := Some(row);
    }
    reply := Reply(200, settings.value);
  }

  /**
   * PUT with the parsed body: the row as stored, or 500 when the body cannot be
   * read, the store fails or it refuses the value.
   */
  method HandlePut(db: Database, body: JsObject, storeFails: bool) returns (reply: Response<AppSettings>)
    requires db.Valid()
    modifies db`appSettings
    ensures db.Valid()
    ensures var outcome := PutSettings(old(db.appSettings), Get(body, "acceptingSongRequests"));
      if storeFails || outcome.Refused? then
        reply == Failure(500, "Failed to update app settings") && db.appSettings == old(db.appSettings)
      else
        reply == Reply(200, outcome.row) && db.appSettings == outcome.table
  {
    var v := Get(body, "acceptingSongRequests");
    if storeFails || !(IsNullish(v) || v.Bool?) {
      return Failure(500, "Failed to update app settings");
    }
    var settings := FindFirst(db.appSettings);
    var row: AppSettings;
    if settings.Some? {
      var accepting := if IsNullish(v) then settings.value.acceptingSongRequests else v.b;
      db.appSettings := UpdateSettings(db.appSettings, settings.value.id, accepting);
      row := db.appSettings.rows[0];
    } else {
      var accepting := if IsNullish(v) then false else v.b;
      var (t, created) := CreateSettings(db.appSettings, accepting);
      db.appSettings := t;
      row := created;
    }
    reply := Reply(200, row);
  }
}
