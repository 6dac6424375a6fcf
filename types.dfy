/**
 * The records the site passes around (src/types/index.ts and the Prisma rows the
 * handlers read and write), and the shape of a JSON reply from a route handler.
 */
module Types {
  import opened Js

  /** One search result from the lyrics/metadata service (`HitResult`). */
  datatype PrimaryArtist = PrimaryArtist(name: string, id: int)

  datatype HitResult = HitResult(
    title: string,
    artistNames: string,          // artist_names
    url: string,
    thumbnailUrl: string,         // song_art_image_thumbnail_url
    id: int,
    fullTitle: string,            // full_title
    primaryArtist: PrimaryArtist) // primary_artist

  /** An element of `response.hits`. */
  datatype Hit = Hit(result: HitResult)

  /** A stored song request (`SongRequest`). `requestDate` is a timestamp in milliseconds. */
  datatype SongRequest = SongRequest(
    id: nat,
    title: string,
    artistNames: string,
    url: string,
    imageUrl: string,
    requestDate: int,
    isArchived: bool)

  /** The singleton settings row (`AppSettings`). */
  datatype AppSettings = AppSettings(id: nat, acceptingSongRequests: bool)

  /** An event type row (`EventType`). */
  datatype EventType = EventType(id: nat, name: string)

  /** A stored client intake form: its id, its `submittedAt` timestamp and the stored columns by name. */
  datatype IntakeForm = IntakeForm(id: nat, submittedAt: int, columns: JsObject)

  /** A stored contact-form submission, as the admin dashboard lists it. */
  datatype ContactSubmission = ContactSubmission(
    id: nat,
    firstName: string,
    lastName: string,
    email: string,
    phoneNumber: string,
    eventTypeId: int,
    venueLocation: string,
    eventDescription: string)

  /**
   * What a route handler answers: a JSON body with an HTTP status, or an
   * `{ error }` body with an error status.
   */
  datatype Response<T> = Reply(status: int, body: T) | Failure(status: int, error: string) {
    /** `response.ok` as the browser sees it */
    predicate Ok() {
      200 <= status <= 299
    }
  }

  predicate IsActive(r: SongRequest) {
    !r.isArchived
  }

  predicate IsArchived(r: SongRequest) {
    r.isArchived
  }

  function RequestDate(r: SongRequest): int {
    r.requestDate
  }
}
