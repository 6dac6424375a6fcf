/**
 * The song-request setting route (src/app/api/song-requests/setting/route.ts):
 * GET reports whether requests are accepted (creating the row closed when absent),
 * PUT flips the flag (creating the row open when absent).
 */
module RequestSettingRoute {
  import opened Wrappers
  import opened Types
  import opened Db
  import opened AdminSettingsRoute

  /**
   * PUT: a missing settings row is created with requests open; otherwise the
   * first row's flag is negated. The second component is the reported flag.
   */
  function Toggle(t: Table<AppSettings>): (r: (Table<AppSettings>, bool))
    ensures FindFirst(r.0).Some? && FindFirst(r.0).value.acceptingSongRequests == r.1
    ensures t.rows == [] ==> r.1 && r.0 == Table([AppSettings(t.nextId, true)], t.nextId + 1)
    ensures t.rows != [] ==> r.1 == !t.rows[0].acceptingSongRequests
                             && r.0.nextId == t.nextId && |r.0.rows| == |t.rows|
                             && r.0.rows[0].id == t.rows[0].id
    ensures t.rows != [] ==> forall i :: 0 <= i < |t.rows| ==>
      r.0.rows[i] == if t.rows[i].id == t.rows[0].id then t.rows[i].(acceptingSongRequests := r.1) else t.rows[i]
    ensures IdsFresh(t, SettingsId) && t.rows != [] ==>
      r.0.rows[0] == t.rows[0].(acceptingSongRequests := r.1) && r.0.rows[1..] == t.rows[1..]
    ensures IdsFresh(t, SettingsId) ==> IdsFresh(r.0, SettingsId)
  {
    match FindFirst(t)
    case None => var (t', row) := CreateSettings(t, true); (t', true)
    case Some(first) => (UpdateSettings(t, first.id, !first.acceptingSongRequests), !first.acceptingSongRequests)
  }

  /** Two PUTs on an existing row give back the original table. */
  lemma {:induction false} ToggleTwiceRestores(t: Table<AppSettings>)
    requires IdsFresh(t, SettingsId) && t.rows != []
    ensures Toggle(Toggle(t).0).0 == t
  {
    var t1 := Toggle(t).0;
    var t2 := Toggle(t1).0;
    assert t2.rows == t.rows by {
      forall i | 0 <= i < |t.rows| ensures t2.rows[i] == t.rows[i] {
        if i > 0 { assert SettingsId(t.rows[0]) != SettingsId(t.rows[i]); }
      }
    }
  }

  /**
   * A PUT on an empty table lands where a GET followed by a PUT lands: the
   * row ends up open with the same id either way.
   */
  lemma {:induction false} ToggleAfterGet(t: Table<AppSettings>)
    ensures Toggle(GetOrCreate(t).0) == Toggle(t)
  {
    if t.rows == [] {
      var t1 := GetOrCreate(t).0;
      assert t1.rows == [AppSettings(t.nextId, false)];
      assert Toggle(t1).0.rows == [AppSettings(t.nextId, true)];
    }
  }

  /** Each PUT on an existing row reports the opposite of what a GET reported before it. */
  lemma ToggleNegatesReported(t: Table<AppSettings>)
    requires t.rows != []
    ensures Toggle(t).1 == !GetOrCreate(t).1.acceptingSongRequests
  {
  }

  /** GET: `{ acceptingRequests }` from the settings row, created closed when absent. */
  method HandleGet(db: Database, storeFails: bool) returns (reply: Response<bool>)
    requires db.Valid()
    modifies db`appSettings
    ensures db.Valid()
    ensures storeFails ==> reply == Failure(500, "Failed to fetch song request setting")
                           && db.appSettings == old(db.appSettings)
    ensures !storeFails ==> var (t, row) := GetOrCreate(old(db.appSettings));
      db.appSettings == t && reply == Reply(200, row.acceptingSongRequests)
  {
    if storeFails {
      return Failure(500, "Failed to fetch song request setting");
    }
    var settings := FindFirst(db.appSettings);
    if settings.None? {
      var (t, row) := CreateSettings(db.appSettings, false);
      db.appSettings := t;
      settings := Some(row);
    }
    reply := Reply(200, settings.value.acceptingSongRequests);
  }

  /** PUT: flips the flag and reports its new value. */
  method HandlePut(db: Database, storeFails: bool) returns (reply: Response<bool>)
    requires db.Valid()
    modifies db`appSettings
    ensures db.Valid()
    ensures storeFails ==> reply == Failure(500, "Failed to toggle song request setting")
                           && db.appSettings == old(db.appSettings)
    ensures !storeFails ==> var (t, accepting) := Toggle(old(db.appSettings));
      db.appSettings == t && reply == Reply(200, accepting)
  {
    if storeFails {
      return Failure(500, "Failed to toggle song request setting");
    }
    var settings := FindFirst(db.appSettings);
    var accepting: bool;
    if settings.None? {
      var (t, row) := CreateSettings(db.appSettings, true);
      db.appSettings := t;
      accepting := row.acceptingSongRequests;
    } else {
      accepting := !settings.value.acceptingSongRequests;
      db.appSettings := UpdateSettings(db.appSettings, settings.value.id, accepting);
    }
    reply := Reply(200, accepting);
  }
}
