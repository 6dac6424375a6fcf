/**
 * The client intake page (src/app/intake/page.tsx): a form whose text fields,
 * genre selection and loading flag are the fields of `IntakeFormPage`, a
 * validator that stops at the first problem, and the payload it posts to the
 * intake route.
 */
module IntakePage {
  import opened Wrappers
  import opened Js
  import opened Lists
  import IntakeRoute

  /** The fields `validateForm` requires, in the order it checks them. */
  const ClientRequired: seq<string> := [
    "clientName", "email", "phoneNumber", "eventDate", "eventType",
    "venueLocation", "guestCount", "eventDuration", "eventStartTime",
    "eventEndTime", "musicEra", "volumePreference"
  ]

  /** The text fields of the form's initial state, every one of them empty. */
  const TextFields: seq<string> := [
    "clientName", "email", "phoneNumber", "eventDate", "eventType",
    "venueLocation", "guestCount", "eventDuration", "eventStartTime",
    "eventEndTime", "musicEra", "volumePreference",
    "mustPlaySongs", "mustPlaySpotifyUrl", "mustPlayAppleMusicUrl", "mustPlayOtherUrl",
    "doNotPlaySongs", "doNotPlaySpotifyUrl", "doNotPlayAppleMusicUrl", "doNotPlayOtherUrl",
    "specialAnnouncements", "firstDanceSong", "lastDanceSong", "ceremonySongs",
    "equipmentRequests", "setupRequirements", "specialRequests",
    "dietaryRestrictions", "accessibilityNeeds"
  ]

  // ------------------------------------------------------------ genres

  /** `handleGenreToggle`'s new list: a selected genre is removed everywhere, another is appended. */
  function ToggleGenre(selected: seq<string>, genre: string): (r: seq<string>)
    ensures genre in r <==> genre !in selected
    ensures forall g :: g != genre ==> (g in r <==> g in selected)
    ensures genre !in selected ==> r == selected + [genre]
    ensures genre in selected ==> |r| < |selected|
    ensures genre in selected ==> IsSubsequence(r, selected)
    ensures genre in selected ==> forall g :: multiset(r)[g] == if g == genre then 0 else multiset(selected)[g]
  {
    if genre in selected then
      var r := Filter(selected, g => g != genre);
      FilterShrinks(selected, g => g != genre, genre);
      FilterKeepsCountsAndOrder(selected, g => g != genre);
      r
    else selected + [genre]
  }

  /** Filtering out a value that occurs makes the sequence shorter. */
  lemma {:induction false} FilterShrinks(xs: seq<string>, p: string -> bool, x: string)
    requires x in xs && !p(x)
    ensures |Filter(xs, p)| < |xs|
  {
    if xs[0] != x || p(xs[0]) {
      FilterShrinks(xs[1..], p, x);
    } else {
      assert |Filter(xs[1..], p)| <= |xs[1..]|;
    }
  }

  /** Toggling a genre that is not selected, twice, gives the original list back. */
  lemma {:induction false} ToggleUnselectedTwice(selected: seq<string>, genre: string)
    requires genre !in selected
    ensures ToggleGenre(ToggleGenre(selected, genre), genre) == selected
  {
    var p := (g: string) => g != genre;
    FilterConcat(selected, [genre], p);
    FilterAll(selected, p);
    FilterNone([genre], p);
  }

  // ------------------------------------------------------------ labels

  /** `field.replace(/([A-Z])/g, ' $1')`: a space before each capital letter. */
  function Spaced(s: string): (r: string)
    ensures |r| == |s| + CapitalCount(s)
  {
    if s == [] then []
    else (if IsUpper(s[0]) then [' ', s[0]] else [s[0]]) + Spaced(s[1..])
  }

  function CapitalCount(s: string): nat {
    if s == [] then 0 else (if IsUpper(s[0]) then 1 else 0) + CapitalCount(s[1..])
  }

  /** The label in "Please fill in ...": spaced, then lower-cased. */
  function Humanize(field: string): (r: string)
    ensures |r| == |field| + CapitalCount(field)
    ensures forall i :: 0 <= i < |r| ==> !IsUpper(r[i])
  {
    ToLower(Spaced(field))
  }

  function NotSpace(c: char): bool {
    c != ' '
  }

  /** Taking the inserted spaces out again gives back a field name that had none. */
  lemma {:induction false} SpacedUnspaces(s: string)
    requires forall i :: 0 <= i < |s| ==> s[i] != ' '
    ensures Filter(Spaced(s), NotSpace) == s
  {
    if s != [] {
      var head := if IsUpper(s[0]) then [' ', s[0]] else [s[0]];
      FilterConcat(head, Spaced(s[1..]), NotSpace);
      SpacedUnspaces(s[1..]);
      if IsUpper(s[0]) {
        assert Filter(head, NotSpace) == Filter([s[0]], NotSpace);
      }
      assert [s[0]] + s[1..] == s;
    }
  }

  predicate NoCapitals(s: string) {
    forall i :: 0 <= i < |s| ==> !IsUpper(s[i])
  }

  /** A name without capitals is left as it is. */
  lemma {:induction false} SpacedNoCapitals(s: string)
    requires NoCapitals(s)
    ensures Spaced(s) == s
  {
    if s != [] {
      SpacedNoCapitals(s[1..]);
    }
  }

  /** Spacing works character by character, so it distributes over concatenation. */
  lemma {:induction false} SpacedConcat(a: string, b: string)
    ensures Spaced(a + b) == Spaced(a) + Spaced(b)
  {
    if a == [] {
      assert a + b == b;
    } else {
      assert (a + b)[1..] == a[1..] + b;
      SpacedConcat(a[1..], b);
    }
  }

  /**
   * A two-word camel-case name such as "phoneNumber" becomes its two words,
   * lower-cased and separated by one space ("phone number").
   */
  lemma CamelCaseLabel(first: string, capital: char, rest: string)
    requires NoCapitals(first) && NoCapitals(rest) && IsUpper(capital)
    ensures Humanize(first + [capital] + rest) == first + [' ', LowerChar(capital)] + rest
  {
    SpacedConcat(first + [capital], rest);
    SpacedConcat(first, [capital]);
    SpacedNoCapitals(first);
    SpacedNoCapitals(rest);
    assert Spaced([capital]) == [' ', capital];
    var t := Spaced(first + [capital] + rest);
    assert t == first + [' ', capital] + rest;
  }

  /** The message for a missing phone number reads "phone number". */
  lemma PhoneNumberLabel()
    ensures Humanize("phoneNumber") == "phone number"
  {
    CamelCaseLabel("phone", 'N', "umber");
    assert "phone" + ['N'] + "umber" == "phoneNumber";
    assert "phone" + [' ', 'n'] + "umber" == "phone number";
  }

  // ------------------------------------------------------------ validation

  /** The form's text fields as the JavaScript object holds them. */
  function AsObject(text: map<string, string>): (r: JsObject)
    ensures forall k :: Truthy(Get(r, k)) <==> k in text && text[k] != ""
  {
    map k | k in text :: Str(text[k])
  }

  function Text(text: map<string, string>, k: string): string {
    if k in text then text[k] else ""
  }

  /** The outcome of `validateForm`, with the check that stopped it. */
  datatype Validation = MissingField(field: string) | NoGenre | BadEmail | FormOk

  /**
   * `validateForm`: the first empty required field, in order; then an empty
   * genre selection; then an email without '@'.
   */
  function CheckForm(text: map<string, string>, selected: seq<string>): (r: Validation)
    ensures r.MissingField? <==> exists i :: 0 <= i < |ClientRequired| && Text(text, ClientRequired[i]) == ""
    ensures r.MissingField? ==> r.field in ClientRequired && Text(text, r.field) == ""
    ensures r.MissingField? ==>
              exists i :: 0 <= i < |ClientRequired| && ClientRequired[i] == r.field
                          && forall j :: 0 <= j < i ==> Text(text, ClientRequired[j]) != ""
    ensures r == FormOk <==>
      (forall i :: 0 <= i < |ClientRequired| ==> Text(text, ClientRequired[i]) != "")
      && selected != [] && Includes(Text(text, "email"), "@")
  {
    match FirstFalsy(AsObject(text), ClientRequired)
    case Some(field) => MissingField(field)
    case None =>
      if |selected| == 0 then NoGenre
      else if !Includes(Text(text, "email"), "@") then BadEmail
      else FormOk
  }

  /** An empty client name is the first thing the page reports. */
  lemma NoClientNameFirst(text: map<string, string>, selected: seq<string>)
    requires Text(text, "clientName") == ""
    ensures CheckForm(text, selected) == MissingField("clientName")
  {
    FirstFalsyIsFirst(AsObject(text), ClientRequired, 0);
  }

  // ------------------------------------------------------------ payload

  /** The keys the payload sets over the spread form data. */
  const OverriddenKeys: set<string> := {
    "eventDate", "guestCount", "musicGenres", "mustPlaySongs", "doNotPlaySongs", "ceremonySongs"
  }

  predicate SongList(k: string) {
    k == "mustPlaySongs" || k == "doNotPlaySongs" || k == "ceremonySongs"
  }

  /**
   * The payload's value for key `k`: the parsed date and guest count (as they
   * serialise), the selected genres, '[]' for an empty song list, and the
   * form's text otherwise.
   */
  function PayloadValue(text: map<string, string>, selected: seq<string>, eventDate: JsValue, guestCount: JsValue, k: string): JsValue {
    if k == "eventDate" then eventDate
    else if k == "guestCount" then guestCount
    else if k == "musicGenres" then StrArray(selected)
    else if SongList(k) then Str(if Text(text, k) == "" then "[]" else Text(text, k))
    else Str(Text(text, k))
  }

  /** `intakeData` in `handleSubmit`: `{ ...formData }` with the six keys above set over it. */
  function Payload(text: map<string, string>, selected: seq<string>, eventDate: JsValue, guestCount: JsValue): (r: JsObject)
    ensures forall k :: k in r <==> k in text || k in OverriddenKeys
    ensures forall k :: k in r ==> r[k] == PayloadValue(text, selected, eventDate, guestCount, k)
  {
    map k | k in text.Keys + OverriddenKeys :: PayloadValue(text, selected, eventDate, guestCount, k)
  }

  /** The song lists go out as '[]' when left empty, and the genres as the selection. */
  lemma PayloadDefaults(text: map<string, string>, selected: seq<string>, eventDate: JsValue, guestCount: JsValue)
    ensures var r := Payload(text, selected, eventDate, guestCount);
      && "musicGenres" in r && r["musicGenres"] == StrArray(selected)
      && "mustPlaySongs" in r && r["mustPlaySongs"] == Or(Str(Text(text, "mustPlaySongs")), Str("[]"))
      && "doNotPlaySongs" in r && r["doNotPlaySongs"] == Or(Str(Text(text, "doNotPlaySongs")), Str("[]"))
      && "ceremonySongs" in r && r["ceremonySongs"] == Or(Str(Text(text, "ceremonySongs")), Str("[]"))
  {
  }

  /** Every other field the form holds is sent as typed. */
  lemma PayloadKeepsText(text: map<string, string>, selected: seq<string>, eventDate: JsValue, guestCount: JsValue, k: string)
    requires k in text && k !in OverriddenKeys
    ensures Get(Payload(text, selected, eventDate, guestCount), k) == Str(text[k])
  {
  }

  /** Each field the route requires is one the page requires, or the genres. */
  lemma RouteFieldsCovered(k: string)
    requires k in IntakeRoute.RequiredFields
    ensures k in ClientRequired || k == "musicGenres"
  {
  }

  /**
   * In the payload of an accepted form every field the route requires is
   * truthy, except possibly the parsed date and guest count.
   */
  lemma RouteFieldTruthy(text: map<string, string>, selected: seq<string>, eventDate: JsValue, guestCount: JsValue, k: string)
    requires CheckForm(text, selected) == FormOk
    requires k in IntakeRoute.RequiredFields && k != "eventDate" && k != "guestCount"
    ensures Truthy(Get(Payload(text, selected, eventDate, guestCount), k))
  {
    RouteFieldsCovered(k);
    if k != "musicGenres" {
      AcceptedFieldFilled(text, selected, k);
      ClientFieldNotOverridden(k);
      PayloadKeepsText(text, selected, eventDate, guestCount, k);
    } else {
      PayloadDefaults(text, selected, eventDate, guestCount);
    }
  }

  lemma AcceptedFieldFilled(text: map<string, string>, selected: seq<string>, k: string)
    requires CheckForm(text, selected) == FormOk && k in ClientRequired
    ensures Text(text, k) != ""
  {
    var j :| 0 <= j < |ClientRequired| && ClientRequired[j] == k;
    assert Text(text, ClientRequired[j]) != "";
  }

  lemma ClientFieldNotOverridden(k: string)
    requires k in ClientRequired && k != "eventDate" && k != "guestCount"
    ensures k !in OverriddenKeys
  {
  }

  /**
   * A form the page accepts, whose date and guest count serialise to truthy
   * values, passes the route's required-field check.
   */
  lemma AcceptedFormPassesRoute(text: map<string, string>, selected: seq<string>, eventDate: JsValue, guestCount: JsValue)
    requires CheckForm(text, selected) == FormOk
    requires Truthy(eventDate) && Truthy(guestCount)
    ensures FirstFalsy(Payload(text, selected, eventDate, guestCount), IntakeRoute.RequiredFields).None?
  {
    forall i | 0 <= i < |IntakeRoute.RequiredFields|
      ensures Truthy(Get(Payload(text, selected, eventDate, guestCount), IntakeRoute.RequiredFields[i]))
    {
      var k := IntakeRoute.RequiredFields[i];
      if k != "eventDate" && k != "guestCount" {
        RouteFieldTruthy(text, selected, eventDate, guestCount, k);
      }
    }
  }

  /**
   * A guest count of "0" or one that is not a number passes the page's check
   * (it is not empty) but parses to 0 or NaN (sent as null), which the route
   * rejects as missing.
   */
  lemma ZeroGuestsRejectedByRoute(text: map<string, string>, selected: seq<string>, eventDate: JsValue, guestCount: JsValue)
    requires CheckForm(text, selected) == FormOk
    requires Truthy(eventDate)
    requires guestCount == Num(0) || guestCount == NaN || guestCount == Null
    ensures FirstFalsy(Payload(text, selected, eventDate, guestCount), IntakeRoute.RequiredFields) == Some("guestCount")
  {
    var r := Payload(text, selected, eventDate, guestCount);
    LeadingFieldsTruthy(text, selected, eventDate, guestCount);
    UnparsedGuestCountFalsy(text, selected, eventDate, guestCount);
    GuestCountFirstFalsy(r);
  }

  /** The six fields the route checks before the guest count are truthy in an accepted form's payload. */
  lemma LeadingFieldsTruthy(text: map<string, string>, selected: seq<string>, eventDate: JsValue, guestCount: JsValue)
    requires CheckForm(text, selected) == FormOk
    requires Truthy(eventDate)
    ensures var r := Payload(text, selected, eventDate, guestCount);
      && Truthy(Get(r, "clientName")) && Truthy(Get(r, "email")) && Truthy(Get(r, "phoneNumber"))
      && Truthy(Get(r, "eventDate")) && Truthy(Get(r, "eventType")) && Truthy(Get(r, "venueLocation"))
  {
    RouteFieldTruthy(text, selected, eventDate, guestCount, "clientName");
    RouteFieldTruthy(text, selected, eventDate, guestCount, "email");
    RouteFieldTruthy(text, selected, eventDate, guestCount, "phoneNumber");
    RouteFieldTruthy(text, selected, eventDate, guestCount, "eventType");
    RouteFieldTruthy(text, selected, eventDate, guestCount, "venueLocation");
  }

  /** The route's check stops at "guestCount" when the six fields before it are truthy and it is not. */
  lemma GuestCountFirstFalsy(o: JsObject)
    requires Truthy(Get(o, "clientName")) && Truthy(Get(o, "email")) && Truthy(Get(o, "phoneNumber"))
    requires Truthy(Get(o, "eventDate")) && Truthy(Get(o, "eventType")) && Truthy(Get(o, "venueLocation"))
    requires !Truthy(Get(o, "guestCount"))
    ensures FirstFalsy(o, IntakeRoute.RequiredFields) == Some("guestCount")
  {
    FirstFalsyIsFirst(o, IntakeRoute.RequiredFields, 6);
  }

  /** A guest count that parsed to 0 or NaN is falsy in the payload. */
  lemma UnparsedGuestCountFalsy(text: map<string, string>, selected: seq<string>, eventDate: JsValue, guestCount: JsValue)
    requires guestCount == Num(0) || guestCount == NaN || guestCount == Null
    ensures !Truthy(Get(Payload(text, selected, eventDate, guestCount), "guestCount"))
  {
  }

  /** The first falsy key is the one at `i` when every key before it is truthy. */
  lemma {:induction false} FirstFalsyIsFirst(o: JsObject, keys: seq<string>, i: nat)
    requires i < |keys| && !Truthy(Get(o, keys[i]))
    requires forall j :: 0 <= j < i ==> Truthy(Get(o, keys[j]))
    ensures FirstFalsy(o, keys) == Some(keys[i])
    decreases i
  {
    if i > 0 {
      FirstFalsyIsFirst(o, keys[1..], i - 1);
    }
  }

  // ------------------------------------------------------------ the page

  /** The initial form state: every one of `fields` set to the empty string. */
  function EmptyFields(fields: seq<string>): (m: map<string, string>)
    ensures forall k :: k in m <==> k in fields
    ensures forall k :: k in m ==> m[k] == ""
  {
    map k | k in fields :: ""
  }

  /** What the POST to the intake route gave: ok, or not (including a throw). */
  datatype PostResult = PostOk | PostFailed

  class IntakeFormPage {
    var formData: map<string, string>
    var formGenres: seq<string>      // formData.musicGenres
    var selectedGenres: seq<string>
    var loading: bool

    constructor ()
      ensures forall k :: k in formData <==> k in TextFields
      ensures forall k :: k in formData ==> formData[k] == ""
      ensures formGenres == [] && selectedGenres == [] && !loading
      ensures CheckForm(formData, selectedGenres) == MissingField("clientName")
    {
      var initial := EmptyFields(TextFields);
      formData := initial;
      formGenres := [];
      selectedGenres := [];
      loading := false;
      assert "clientName" in TextFields;
      NoClientNameFirst(initial, []);
    }

    /** `handleInputChange`: sets one field and leaves every other one alone. */
    method HandleInputChange(field: string, value: string)
      modifies this`formData
      ensures formData == old(formData)[field := value]
    {
      formData := formData[field := value];
    }

    /** `handleGenreToggle`: the new list becomes both the selection and the form's genres. */
    method HandleGenreToggle(genre: string)
      modifies this`selectedGenres, this`formGenres
      ensures selectedGenres == ToggleGenre(old(selectedGenres), genre)
      ensures formGenres == selectedGenres
    {
      var newGenres := if genre in selectedGenres then Filter(selectedGenres, g => g != genre) else selectedGenres + [genre];
      selectedGenres := newGenres;
      formGenres := newGenres;
    }

    /** The loop in `validateForm`: the first of `fields` whose value is empty. */
    method FirstEmpty(text: map<string, string>, fields: seq<string>) returns (r: Option<string>)
      ensures r == FirstFalsy(AsObject(text), fields)
    {
      for i := 0 to |fields|
        invariant FirstFalsy(AsObject(text), fields) == FirstFalsy(AsObject(text), fields[i..])
      {
        assert fields[i..][1..] == fields[i + 1..];
        if Text(text, fields[i]) == "" {
          return Some(fields[i]);
        }
      }
      return None;
    }

    /** `validateForm`, the loop over the required fields followed by the genre and email checks. */
    method ValidateForm() returns (v: Validation)
      ensures v == CheckForm(formData, selectedGenres)
    {
      var missing := FirstEmpty(formData, ClientRequired);
      if missing.Some? {
        return MissingField(missing.value);
      }
      if |selectedGenres| == 0 {
        return NoGenre;
      }
      if !Includes(Text(formData, "email"), "@") {
        return BadEmail;
      }
      return FormOk;
    }

    /**
     * `handleSubmit` with the parsed date and guest count and what the POST gave:
     * nothing is sent unless the form validates; `loading` ends false.
     */
    method HandleSubmit(eventDate: JsValue, guestCount: JsValue, post: PostResult)
      returns (sent: Option<JsObject>, navigated: bool)
      modifies this`loading
      ensures sent.None? <==> CheckForm(formData, selectedGenres) != FormOk
      ensures sent.Some? ==> sent.value == Payload(formData, selectedGenres, eventDate, guestCount) && !loading
      ensures sent.None? ==> loading == old(loading)
      ensures navigated <==> sent.Some? && post == PostOk
    {
      var valid := ValidateForm();
      if valid != FormOk {
        return None, false;
      }
      loading := true;
      sent := Some(Payload(formData, selectedGenres, eventDate, guestCount));
      navigated := post == PostOk;
      loading := false;
    }
  }
}
