/**
 * The client intake route (src/app/api/intake/route.ts): POST checks the required
 * fields in order, builds the stored record with its defaults and creates it;
 * GET lists forms newest first, one page at a time.
 */
module IntakeRoute {
  import opened Wrappers
  import opened Js
  import opened Lists
  import opened Types
  import opened Db

  /** The fields POST requires, in the order it checks them. */
  const RequiredFields: seq<string> := [
    "clientName", "email", "phoneNumber", "eventDate", "eventType",
    "venueLocation", "guestCount", "eventDuration", "eventStartTime",
    "eventEndTime", "musicGenres", "musicEra", "volumePreference"
  ]

  /** Fields copied into the record as sent (the date and count are parsed on the way; see README). */
  const CopiedFields: seq<string> := [
    "clientName", "email", "phoneNumber", "eventDate", "eventType",
    "venueLocation", "guestCount", "eventDuration", "eventStartTime",
    "eventEndTime", "musicEra", "volumePreference"
  ]

  /** Fields that fall back to the empty string. */
  const EmptyStringFields: seq<string> := ["mustPlaySongs", "doNotPlaySongs"]

  /** Fields that fall back to null. */
  const NullFields: seq<string> := [
    "mustPlaySpotifyUrl", "mustPlayAppleMusicUrl", "mustPlayOtherUrl",
    "doNotPlaySpotifyUrl", "doNotPlayAppleMusicUrl", "doNotPlayOtherUrl",
    "specialAnnouncements", "firstDanceSong", "lastDanceSong", "ceremonySongs",
    "equipmentRequests", "setupRequirements", "specialRequests"
  ]

  /** Every field of the stored record. */
  const StoredFields: seq<string> := CopiedFields + ["musicGenres"] + EmptyStringFields + NullFields

  /** The value the record holds for a stored field `k`. */
  function FieldValue(body: JsObject, k: string): JsValue {
    if k in NullFields then Or(Get(body, k), Null)
    else if k in EmptyStringFields then Or(Get(body, k), Str(""))
    else if k == "musicGenres" then Or(Get(body, k), Arr([]))
    else Get(body, k)
  }

  /** The four groups of stored fields do not overlap. */
  lemma GroupsApart(k: string)
    ensures k in CopiedFields ==> k !in NullFields && k !in EmptyStringFields && k != "musicGenres"
    ensures k in EmptyStringFields ==> k !in NullFields
    ensures k == "musicGenres" ==> k !in NullFields && k !in EmptyStringFields
  {
    if k in CopiedFields { CopiedApart(k); }
    if k in EmptyStringFields { SongListApart(k); }
    GenresApart();
  }

  lemma CopiedApart(k: string)
    requires k in CopiedFields
    ensures k !in NullFields && k !in EmptyStringFields && k != "musicGenres"
  {
  }

  lemma SongListApart(k: string)
    requires k in EmptyStringFields
    ensures k !in NullFields && k != "musicGenres"
  {
  }

  lemma GenresApart()
    ensures "musicGenres" !in NullFields && "musicGenres" !in EmptyStringFields
  {
  }

  /**
   * `intakeData`: the record POST stores, holding exactly the 28 listed fields.
   * The lemmas below say what each group of fields holds.
   */
  function BuildRecord(body: JsObject): (r: JsObject)
    ensures forall k :: k in r <==> k in StoredFields
    ensures forall k :: k in r ==> r[k] == FieldValue(body, k)
  {
    map k | k in StoredFields :: FieldValue(body, k)
  }

  /** The twelve plain fields are stored as sent. */
  lemma CopiedFieldsAsSent(body: JsObject, k: string)
    requires k in CopiedFields
    ensures k in BuildRecord(body) && BuildRecord(body)[k] == Get(body, k)
  {
    CopiedApart(k);
  }

  /** `musicGenres` falls back to an empty array; the song lists fall back to ''. */
  lemma GenresAndSongListsDefault(body: JsObject, k: string)
    requires k in EmptyStringFields
    ensures "musicGenres" in BuildRecord(body) && BuildRecord(body)["musicGenres"] == Or(Get(body, "musicGenres"), Arr([]))
    ensures k in BuildRecord(body) && BuildRecord(body)[k] == Or(Get(body, k), Str(""))
  {
    GenresDefault(body);
    SongListDefault(body, k);
  }

  lemma GenresDefault(body: JsObject)
    ensures "musicGenres" in BuildRecord(body) && BuildRecord(body)["musicGenres"] == Or(Get(body, "musicGenres"), Arr([]))
  {
    GenresApart();
    assert "musicGenres" in StoredFields;
  }

  lemma SongListDefault(body: JsObject, k: string)
    requires k in EmptyStringFields
    ensures k in BuildRecord(body) && BuildRecord(body)[k] == Or(Get(body, k), Str(""))
  {
    SongListApart(k);
    assert k in StoredFields;
  }

  /** Anything outside the 28 fields is dropped, the dietary and accessibility notes included. */
  lemma NotesDropped(body: JsObject)
    ensures "dietaryRestrictions" !in BuildRecord(body) && "accessibilityNeeds" !in BuildRecord(body)
  {
    UnlistedDropped(body, "dietaryRestrictions");
    UnlistedDropped(body, "accessibilityNeeds");
  }

  /** A key in none of the four groups is not part of the record. */
  lemma UnlistedDropped(body: JsObject, k: string)
    requires k !in CopiedFields && k != "musicGenres" && k !in EmptyStringFields && k !in NullFields
    ensures k !in BuildRecord(body)
  {
    assert k !in StoredFields;
  }

  /** An optional field is stored either as sent (and truthy) or as null: never as '', 0 or false. */
  lemma NullFieldsNeverFalsy(body: JsObject, k: string)
    requires k in NullFields
    ensures k in BuildRecord(body)
    ensures BuildRecord(body)[k] == Null || (Truthy(BuildRecord(body)[k]) && BuildRecord(body)[k] == Get(body, k))
  {
  }

  /** A body that passed the required-field check keeps its music genres as sent. */
  lemma ValidBodyKeepsGenres(body: JsObject)
    requires FirstFalsy(body, RequiredFields).None?
    ensures "musicGenres" in BuildRecord(body) && BuildRecord(body)["musicGenres"] == Get(body, "musicGenres")
  {
    assert RequiredFields[10] == "musicGenres";
    GenresApart();
  }

  /** The required-field loop: the first field, in order, whose value is falsy. */
  method FindMissingField(body: JsObject, fields: seq<string>) returns (missing: Option<string>)
    ensures missing == FirstFalsy(body, fields)
  {
    for i := 0 to |fields|
      invariant FirstFalsy(body, fields) == FirstFalsy(body, fields[i..])
    {
      assert fields[i..][1..] == fields[i + 1..];
      if !Truthy(Get(body, fields[i])) {
        return Some(fields[i]);
      }
    }
    return None;
  }

  /**
   * POST with the parsed body (`None` when it is not JSON) and the creation time.
   * The reply carries the new id.
   */
  method HandlePost(db: Database, body: Option<JsObject>, now: int, storeFails: bool) returns (reply: Response<nat>)
    requires db.Valid()
    modifies db`intakeForms
    ensures db.Valid()
    ensures body.None? ==> reply == Failure(500, "Internal server error")
    ensures body.Some? && FirstFalsy(body.value, RequiredFields).Some? ==>
      reply == Failure(400, "Missing required field: " + FirstFalsy(body.value, RequiredFields).value)
    ensures body.Some? && FirstFalsy(body.value, RequiredFields).None? && storeFails ==>
      reply == Failure(500, "Internal server error")
    ensures !reply.Reply? ==> db.intakeForms == old(db.intakeForms)
    ensures reply.Reply? <==> body.Some? && FirstFalsy(body.value, RequiredFields).None? && !storeFails
    ensures reply.Reply? ==> var id := old(db.intakeForms.nextId);
      reply == Reply(201, id)
      && db.intakeForms == Table(old(db.intakeForms.rows) + [IntakeForm(id, now, BuildRecord(body.value))], id + 1)
  {
    if body.None? {
      return Failure(500, "Internal server error");
    }
    var missing := FindMissingField(body.value, RequiredFields);
    if missing.Some? {
      return Failure(400, "Missing required field: " + missing.value);
    }
    if storeFails {
      return Failure(500, "Internal server error");
    }
    var id := db.intakeForms.nextId;
    db.intakeForms := Table(db.intakeForms.rows + [IntakeForm(id, now, BuildRecord(body.value))], id + 1);
    reply := Reply(201, id);
  }

  function SubmittedAt(f: IntakeForm): int {
    f.submittedAt
  }

  /** GET's query: newest first, skip `offset`, take at most `limit`. */
  function ListPage(forms: seq<IntakeForm>, limit: nat, offset: nat): (r: seq<IntakeForm>)
    ensures |r| <= limit
    ensures offset + limit <= |forms| ==> |r| == limit
    ensures |r| == if offset >= |forms| then 0 else if offset + limit <= |forms| then limit else |forms| - offset
    ensures forall i :: 0 <= i < |r| ==> offset + i < |forms| && r[i] == SortDesc(forms, SubmittedAt)[offset + i]
    ensures SortedDesc(r, SubmittedAt)
    ensures forall x :: x in r ==> x in forms
  {
    var sorted := SortDesc(forms, SubmittedAt);
    PageOfSorted(sorted, forms, offset, limit, SubmittedAt);
    Take(Drop(sorted, offset), limit)
  }

  /**
   * Every order the store may return for the query is the one `ListPage` uses,
   * when no two forms share a `submittedAt`.
   */
  lemma AnyQueryOrderGivesListPage(forms: seq<IntakeForm>, order: seq<IntakeForm>, limit: nat, offset: nat)
    requires KeysDistinct(forms, SubmittedAt)
    requires SortedDesc(order, SubmittedAt) && multiset(order) == multiset(forms)
    ensures Take(Drop(order, offset), limit) == ListPage(forms, limit, offset)
  {
    SortDescIsTheOrder(forms, order, SubmittedAt);
  }

  /**
   * Two separate queries, the second skipping what the first took, together
   * give the one larger page, when no two forms share a `submittedAt`.
   */
  lemma {:induction false} PagesConcatenate(forms: seq<IntakeForm>, first: seq<IntakeForm>, second: seq<IntakeForm>, a: nat, b: nat)
    requires KeysDistinct(forms, SubmittedAt)
    requires SortedDesc(first, SubmittedAt) && multiset(first) == multiset(forms)
    requires SortedDesc(second, SubmittedAt) && multiset(second) == multiset(forms)
    ensures Take(Drop(first, 0), a) + Take(Drop(second, a), b) == ListPage(forms, a + b, 0)
  {
    AnyQueryOrderGivesListPage(forms, first, a, 0);
    AnyQueryOrderGivesListPage(forms, second, b, a);
    var s := SortDesc(forms, SubmittedAt);
    var lhs := ListPage(forms, a, 0) + ListPage(forms, b, a);
    var rhs := ListPage(forms, a + b, 0);
    assert |lhs| == |rhs|;
    forall i | 0 <= i < |lhs| ensures lhs[i] == rhs[i] {
      if i < |ListPage(forms, a, 0)| {
        assert lhs[i] == s[i];
      } else {
        assert lhs[i] == s[a + (i - |ListPage(forms, a, 0)|)];
      }
    }
  }

  /** GET with the parsed `limit` and `offset` (defaults 50 and 0). */
  method HandleGet(db: Database, limit: Option<nat>, offset: Option<nat>, storeFails: bool)
    returns (reply: Response<seq<IntakeForm>>)
    ensures storeFails ==> reply == Failure(500, "Internal server error")
    ensures !storeFails ==> reply == Reply(200, ListPage(db.intakeForms.rows, limit.GetOr(50), offset.GetOr(0)))
  {
    if storeFails {
      return Failure(500, "Internal server error");
    }
    reply := Reply(200, ListPage(db.intakeForms.rows, limit.GetOr(50), offset.GetOr(0)));
  }
}
