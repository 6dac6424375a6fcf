/**
 * The admin dashboard (src/app/admin/page.tsx): local lists that change only
 * when the server answered ok, the settings switch, and the counts, slices and
 * labels the page derives from its lists.
 */
module AdminPage {
  import opened Wrappers
  import opened Lists
  import opened Types
  import opened Db
  import opened Js
  import opened AdminSettingsRoute

  // ------------------------------------------------------------ list updates

  /** `x => x.id !== id` */
  function OtherId<T>(idOf: T -> nat, id: int): T -> bool {
    x => idOf(x) != id
  }

  /** `prev.filter(x => x.id !== id)` */
  function WithoutId<T(!new)>(xs: seq<T>, idOf: T -> nat, id: int): (r: seq<T>)
    ensures forall x :: x in r <==> x in xs && idOf(x) != id
    ensures (forall x :: x in xs ==> idOf(x) != id) ==> r == xs
    ensures |r| + |Filter(xs, x => idOf(x) == id)| == |xs|
  {
    var r := Filter(xs, OtherId(idOf, id));
    assert (forall x :: x in xs ==> idOf(x) != id) ==> r == xs by {
      if forall x :: x in xs ==> idOf(x) != id {
        FilterAll(xs, OtherId(idOf, id));
      }
    }
    FilterComplementSizes(xs, OtherId(idOf, id), x => idOf(x) == id);
    r
  }

  /** Removing from a joined list removes from each part, keeping their order. */
  lemma WithoutIdConcat<T(!new)>(xs: seq<T>, ys: seq<T>, idOf: T -> nat, id: int)
    ensures WithoutId(xs + ys, idOf, id) == WithoutId(xs, idOf, id) + WithoutId(ys, idOf, id)
  {
    FilterConcat(xs, ys, OtherId(idOf, id));
  }

  /** `prev.map(sr => sr.id === id ? { ...sr, isArchived: true } : sr)` */
  function ArchiveId(xs: seq<SongRequest>, id: int): (r: seq<SongRequest>)
    ensures |r| == |xs|
    ensures forall i :: 0 <= i < |xs| ==> r[i].(isArchived := xs[i].isArchived) == xs[i]
    ensures forall i :: 0 <= i < |xs| ==> r[i].isArchived == (xs[i].isArchived || xs[i].id == id)
  {
    seq(|xs|, i requires 0 <= i < |xs| => if xs[i].id == id then xs[i].(isArchived := true) else xs[i])
  }

  function SongId(r: SongRequest): nat {
    r.id
  }

  /** Archiving an id takes exactly its requests out of the active view. */
  lemma {:induction false} ArchiveIdLeavesActiveView(xs: seq<SongRequest>, id: int)
    ensures Filter(ArchiveId(xs, id), IsActive) == WithoutId(Filter(xs, IsActive), SongId, id)
  {
    if xs != [] {
      var a := ArchiveId(xs, id);
      var p := OtherId(SongId, id);
      assert a[1..] == ArchiveId(xs[1..], id);
      ArchiveIdLeavesActiveView(xs[1..], id);
      var head := if IsActive(xs[0]) then [xs[0]] else [];
      assert Filter(xs, IsActive) == head + Filter(xs[1..], IsActive);
      FilterConcat(head, Filter(xs[1..], IsActive), p);
      var kept := if IsActive(xs[0]) && xs[0].id != id then [xs[0]] else [];
      assert Filter(head, p) == kept by {
        if head != [] {
          assert head[1..] == [];
        }
      }
      assert Filter(a, IsActive) == kept + Filter(a[1..], IsActive) by {
        assert IsActive(a[0]) <==> IsActive(xs[0]) && xs[0].id != id;
        assert IsActive(a[0]) ==> a[0] == xs[0];
      }
    }
  }

  // ------------------------------------------------------------ derived values

  function ActiveCount(xs: seq<SongRequest>): nat {
    |Filter(xs, IsActive)|
  }

  function ArchivedCount(xs: seq<SongRequest>): nat {
    |Filter(xs, IsArchived)|
  }

  /** The "Active" and "Archived" counts always add up to "Total Requests". */
  lemma CountsAddUp(xs: seq<SongRequest>)
    ensures ActiveCount(xs) + ArchivedCount(xs) == |xs|
  {
    FilterComplementSizes(xs, IsActive, IsArchived);
  }

  /** The song list: the first ten unarchived requests, in list order. */
  function SongListShown(xs: seq<SongRequest>): (r: seq<SongRequest>)
    ensures |r| <= 10 && r <= Filter(xs, IsActive)
    ensures forall x :: x in r ==> x in xs && !x.isArchived
    ensures ActiveCount(xs) >= 10 ==> |r| == 10
    ensures |r| == if ActiveCount(xs) < 10 then ActiveCount(xs) else 10
  {
    var active := Filter(xs, IsActive);
    var r := Take(active, 10);
    assert forall x :: x in r ==> x in active by {
      forall x | x in r ensures x in active {
        var i :| 0 <= i < |r| && r[i] == x;
        assert active[i] == x;
      }
    }
    r
  }

  /** `eventTypes.find(et => et.id === eventTypeId)`: the first match. */
  function FindEventType(types: seq<EventType>, id: int): (r: Option<EventType>)
    ensures r.None? <==> forall i :: 0 <= i < |types| ==> types[i].id != id
    ensures r.Some? ==> exists i :: 0 <= i < |types| && types[i] == r.value && r.value.id == id
                                    && forall j :: 0 <= j < i ==> types[j].id != id
  {
    if types == [] then None
    else if types[0].id == id then Some(types[0])
    else
      var r := FindEventType(types[1..], id);
      if r.Some? then
        ghost var i :| 0 <= i < |types[1..]| && types[1..][i] == r.value && r.value.id == id
                       && forall j :: 0 <= j < i ==> types[1..][j].id != id;
        assert types[i + 1] == r.value && forall j :: 0 <= j < i + 1 ==> types[j].id != id by {
          forall j | 0 <= j < i + 1 ensures types[j].id != id {
            if j > 0 { assert types[j] == types[1..][j - 1]; }
          }
        }
        r
      else
        assert forall i :: 0 <= i < |types| ==> types[i].id != id by {
          forall i | 0 <= i < |types| ensures types[i].id != id {
            if i > 0 { assert types[i] == types[1..][i - 1]; }
          }
        }
        r
  }

  /** `getEventTypeName`: the first matching type's name, 'Unknown' when there is none or it is empty. */
  function EventTypeName(types: seq<EventType>, id: int): (r: string)
    ensures r != ""
    ensures (forall i :: 0 <= i < |types| ==> types[i].id != id) ==> r == "Unknown"
    ensures forall i :: (0 <= i < |types| && types[i].id == id && types[i].name != ""
                         && forall j :: 0 <= j < i ==> types[j].id != id) ==> r == types[i].name
    ensures forall i :: (0 <= i < |types| && types[i].id == id && types[i].name == ""
                         && forall j :: 0 <= j < i ==> types[j].id != id) ==> r == "Unknown"
  {
    match FindEventType(types, id)
    case None => "Unknown"
    case Some(et) =>
      ghost var k :| 0 <= k < |types| && types[k] == et && et.id == id && forall j :: 0 <= j < k ==> types[j].id != id;
      assert forall i :: 0 <= i < |types| && types[i].id == id && (forall j :: 0 <= j < i ==> types[j].id != id) ==> i == k;
      if et.name != "" then et.name else "Unknown"
  }

  /** A description as the submission card shows it: at most 100 characters, then "...". */
  function TruncateDescription(d: string): (r: string)
    ensures |d| <= 100 ==> r == d
    ensures |d| > 100 ==> |r| == 103 && r[..100] == d[..100] && r[100..] == "..."
  {
    if |d| > 100 then d[..100] + "..." else d
  }

  // ------------------------------------------------------------ the page

  class AdminDashboard {
    var submissions: seq<ContactSubmission>
    var intakeForms: seq<IntakeForm>
    var settings: AppSettings
    var eventTypes: seq<EventType>
    var songRequests: seq<SongRequest>

    constructor ()
      ensures submissions == [] && intakeForms == [] && eventTypes == [] && songRequests == []
      ensures settings == AppSettings(1, false)
    {
      submissions := [];
      intakeForms := [];
      settings := AppSettings(1, false);
      eventTypes := [];
      songRequests := [];
    }

    /** `updateSettings`: the local settings become the stored row only when the PUT answered ok. */
    method UpdateSettings(outcome: Option<Response<AppSettings>>)
      modifies this`settings
      ensures outcome.Some? && outcome.value.Reply? && outcome.value.Ok() ==> settings == outcome.value.body
      ensures !(outcome.Some? && outcome.value.Reply? && outcome.value.Ok()) ==> settings == old(settings)
    {
      if outcome.Some? && outcome.value.Reply? && outcome.value.Ok() {
        settings := outcome.value.body;
      }
    }

    /** `deleteSubmission` once the DELETE has answered (`ok`) or failed. */
    method DeleteSubmission(id: int, ok: bool)
      modifies this`submissions
      ensures submissions == if ok then WithoutId(old(submissions), SubmissionId, id) else old(submissions)
    {
      if ok {
        submissions := WithoutId(submissions, SubmissionId, id);
      }
    }

    /** `deleteIntakeForm` */
    method DeleteIntakeForm(id: int, ok: bool)
      modifies this`intakeForms
      ensures intakeForms == if ok then WithoutId(old(intakeForms), IntakeFormId, id) else old(intakeForms)
    {
      if ok {
        intakeForms := WithoutId(intakeForms, IntakeFormId, id);
      }
    }

    /** `archiveSongRequest` */
    method ArchiveSongRequest(id: int, ok: bool)
      modifies this`songRequests
      ensures songRequests == if ok then ArchiveId(old(songRequests), id) else old(songRequests)
    {
      if ok {
        songRequests := ArchiveId(songRequests, id);
      }
    }

    /** `deleteSongRequest` */
    method DeleteSongRequest(id: int, ok: bool)
      modifies this`songRequests
      ensures songRequests == if ok then WithoutId(old(songRequests), SongId, id) else old(songRequests)
    {
      if ok {
        songRequests := WithoutId(songRequests, SongId, id);
      }
    }
  }

  function SubmissionId(s: ContactSubmission): nat {
    s.id
  }

  /**
   * Switching the setting through the admin route and taking the ok reply
   * leaves the dashboard showing the row a following GET reports, holding the
   * switched value.
   */
  lemma SwitchShowsStoredRow(t: Table<AppSettings>, checked: bool)
    ensures var put := PutSettings(t, Bool(checked));
      put.Stored? && GetOrCreate(put.table).1 == put.row && put.row.acceptingSongRequests == checked
  {
    GetAfterPut(t, Bool(checked));
  }
}
