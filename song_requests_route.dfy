/**
 * The song-request collection route (src/app/api/song-requests/route.ts):
 * GET lists the active requests newest first, POST stores a request built from a
 * search hit, DELETE archives every active request. None of the three reads the
 * acceptance flag.
 */
module SongRequestsRoute {
  import opened Lists
  import opened Types
  import opened Db

  // ------------------------------------------------------------ specification

  /** The GET query: rows with `isArchived` false, ordered by `requestDate` descending. */
  function ActiveNewestFirst(rows: seq<SongRequest>): (r: seq<SongRequest>)
    ensures SortedDesc(r, RequestDate)
    ensures multiset(r) == multiset(Filter(rows, IsActive))
    ensures forall x :: x in r <==> x in rows && !x.isArchived
  {
    var active := Filter(rows, IsActive);
    var r := SortDesc(active, RequestDate);
    assert forall x :: x in r <==> x in rows && !x.isArchived by {
      forall x ensures x in r <==> x in rows && !x.isArchived {
        assert x in r <==> x in multiset(r);
        assert x in active <==> x in multiset(active);
      }
    }
    r
  }

  /**
   * The row POST creates. The schema is not part of this model: the id, the
   * `requestDate` (the time of the insert) and `isArchived = false` are what the
   * store is assumed to assign.
   */
  function NewRequest(id: nat, hit: HitResult, now: int): (row: SongRequest)
    ensures row.id == id && row.requestDate == now && !row.isArchived
    ensures row.title == hit.title && row.artistNames == hit.artistNames
    ensures row.url == hit.url && row.imageUrl == hit.thumbnailUrl
  {
    SongRequest(id, hit.title, hit.artistNames, hit.url, hit.thumbnailUrl, now, false)
  }

  /** The DELETE update: `isArchived` becomes true on every row where it was false. */
  function ArchiveAll(rows: seq<SongRequest>): (r: seq<SongRequest>)
    ensures |r| == |rows|
    ensures forall i :: 0 <= i < |rows| ==> r[i].isArchived && r[i].(isArchived := rows[i].isArchived) == rows[i]
    ensures forall i :: 0 <= i < |rows| ==> rows[i].isArchived ==> r[i] == rows[i]
  {
    seq(|rows|, i requires 0 <= i < |rows| => if !rows[i].isArchived then rows[i].(isArchived := true) else rows[i])
  }

  // ------------------------------------------------------------ properties

  /** After archiving everything, the listing is empty. */
  lemma ListEmptyAfterArchiveAll(rows: seq<SongRequest>)
    ensures ActiveNewestFirst(ArchiveAll(rows)) == []
  {
    var archived := ArchiveAll(rows);
    FilterNone(archived, IsActive);
    assert multiset(ActiveNewestFirst(archived)) == multiset{};
  }

  /** A second archive-all changes nothing. */
  lemma ArchiveAllIdempotent(rows: seq<SongRequest>)
    ensures ArchiveAll(ArchiveAll(rows)) == ArchiveAll(rows)
  {
  }

  /**
   * A request created at a time later than every active request's time heads
   * the listing (the guest sees their own request first).
   */
  lemma {:induction false} NewestRequestListedFirst(rows: seq<SongRequest>, id: nat, hit: HitResult, now: int)
    requires forall x :: x in rows && !x.isArchived ==> x.requestDate < now
    ensures var r := ActiveNewestFirst(rows + [NewRequest(id, hit, now)]);
      |r| > 0 && r[0] == NewRequest(id, hit, now)
  {
    var row := NewRequest(id, hit, now);
    var all := rows + [row];
    var r := ActiveNewestFirst(all);
    assert row in all;
    assert row in r;
    var k :| 0 <= k < |r| && r[k] == row;
    assert RequestDate(r[0]) >= now by {
      if k > 0 { assert RequestDate(r[0]) >= RequestDate(r[k]); }
    }
    assert r[0] in all && !r[0].isArchived;
    assert r[0] !in rows;
  }

  // ------------------------------------------------------------ handlers

  /** GET: the active requests newest first, or 500 when the store fails. */
  method HandleGet(db: Database, storeFails: bool) returns (reply: Response<seq<SongRequest>>)
    ensures storeFails ==> reply == Failure(500, "Failed to fetch song requests")
    ensures !storeFails ==> reply == Reply(200, ActiveNewestFirst(db.songRequests.rows))
  {
    if storeFails {
      return Failure(500, "Failed to fetch song requests");
    }
    reply := Reply(200, ActiveNewestFirst(db.songRequests.rows));
  }

  /**
   * POST: stores the hit as a new request and answers `{ id }`. The acceptance
   * flag is neither a parameter nor in the frame: a request is stored whatever
   * `acceptingSongRequests` holds.
   */
  method HandlePost(db: Database, hit: HitResult, now: int, storeFails: bool) returns (reply: Response<nat>)
    requires db.Valid()
    modifies db`songRequests
    ensures db.Valid()
    ensures storeFails ==> reply == Failure(500, "Failed to create song request")
                           && db.songRequests == old(db.songRequests)
    ensures !storeFails ==> reply == Reply(200, old(db.songRequests.nextId))
                            && db.songRequests.rows == old(db.songRequests.rows) + [NewRequest(old(db.songRequests.nextId), hit, now)]
                            && db.songRequests.nextId == old(db.songRequests.nextId) + 1
  {
    if storeFails {
      return Failure(500, "Failed to create song request");
    }
    var id := db.songRequests.nextId;
    db.songRequests := Table(db.songRequests.rows + [NewRequest(id, hit, now)], id + 1);
    reply := Reply(200, id);
  }

  /** DELETE: archives every active request (no row is removed), or 500 when the store fails. */
  method HandleDelete(db: Database, storeFails: bool) returns (reply: Response<bool>)
    requires db.Valid()
    modifies db`songRequests
    ensures db.Valid()
    ensures storeFails ==> reply == Failure(500, "Failed to archive song requests")
                           && db.songRequests == old(db.songRequests)
    ensures !storeFails ==> reply == Reply(200, true)
                            && db.songRequests == Table(ArchiveAll(old(db.songRequests.rows)), old(db.songRequests.nextId))
  {
    if storeFails {
      return Failure(500, "Failed to archive song requests");
    }
    db.songRequests := Table(ArchiveAll(db.songRequests.rows), db.songRequests.nextId);
    reply := Reply(200, true);
  }
}
