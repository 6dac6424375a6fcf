# CD Entertainment site core, modelled in Dafny

This project models the behaviour of the CD Entertainment website, a Next.js
marketing and booking site for a DJ business. It covers:

- **Server routes:**
  - the song-request collection (list active requests newest first, create, archive all);
  - the two settings routes (admin read/write, and the guest-facing toggle of `acceptingSongRequests`);
  - the song search proxy with its chain of guards;
  - the client intake route (required-field check, stored record, paged listing).
- **The seed script:** it creates the default event types and the settings row.
- **Client pages:**
  - the guest request page, as a state machine over its `useState` fields;
  - the admin dashboard's list updates and derived values;
  - the request-moderation dashboard;
  - the intake form, with its validator, label humaniser and payload;
  - the contact form's schema;
  - the homepage scroll tracking.
- **Small libraries:** page metadata (`seo.ts`), the access-denied message mapping, the admin/public layout switch and the application store.

Each source file has one Dafny module. Code that updates state in place is a
`class` with `modifies` frames, such as a page's state variables or the
database. Pure logic is written as functions with lemmas.

Some modules are shared:

- `Wrappers` holds `Option`.
- `Js` holds JavaScript values, truthiness, `||`, `??`, `trim`, `startsWith`, `includes`, `toLowerCase` and `join`.
- `Lists` holds `filter`, `slice`, and a descending sort that stands in for `orderBy: desc`.
- `Types` holds the records of `src/types/index.ts` and a `Response` (a JSON reply or an error reply).
- `Db` models the Prisma store. Each table is its rows in insertion order plus the next auto-increment id.

The routes take the store as a `Database` object, and a `storeFails` flag stands
for any exception the store or body parsing throws. Every browser `fetch` is
replaced by a parameter holding what came back. `None` means the fetch or its
JSON parsing threw.

Assumptions about the unseen schema:

- Ids come from `nextId`.
- `requestDate` and `submittedAt` are the time passed in.
- `isArchived` starts false.
- `findFirst()` without an order reads the first row.

## Model

| member | source | states |
|---|---|---|
| SongRequestsRoute.ActiveNewestFirst | src/app/api/song-requests/route.ts:6-13 | the listing is sorted by `requestDate` descending, is a permutation of the unarchived rows, and holds exactly the rows with `isArchived` false |
| SongRequestsRoute.NewRequest | src/app/api/song-requests/route.ts:27-36 | the created row carries the hit's title, artist names, url and thumbnail (as `imageUrl`), a fresh id, the insert time and `isArchived` false |
| SongRequestsRoute.ArchiveAll | src/app/api/song-requests/route.ts:50-57 | archive-all keeps every row, in order, sets `isArchived` on each and changes no other field; rows already archived are untouched |
| SongRequestsRoute.ListEmptyAfterArchiveAll | src/app/api/song-requests/route.ts:6-57 | after archive-all the listing is empty |
| SongRequestsRoute.ArchiveAllIdempotent | src/app/api/song-requests/route.ts:50-57 | a second archive-all changes nothing |
| SongRequestsRoute.NewestRequestListedFirst | src/app/api/song-requests/route.ts:6-36 | a request created later than every active one heads the listing |
| SongRequestsRoute.HandleGet | src/app/api/song-requests/route.ts:4-22 | the reply is the listing with status 200, or 500 'Failed to fetch song requests' |
| SongRequestsRoute.HandlePost | src/app/api/song-requests/route.ts:24-46 | on success exactly one row is appended and the reply is its id, whatever the acceptance flag holds (the flag is outside the frame); on failure 500 and the table is unchanged |
| SongRequestsRoute.HandleDelete | src/app/api/song-requests/route.ts:48-66 | on success the table becomes `ArchiveAll` of the old rows with the same next id; on failure 500 and nothing changes |
| Db.FindFirst | src/app/api/admin/settings/route.ts:6 | `findFirst()` is absent exactly when the table is empty, otherwise the first row |
| Db.CreateSettings | src/app/api/admin/settings/route.ts:10-14 | a create appends one row with the next id and the given flag, and keeps ids unique |
| Db.UpdateSettings | src/app/api/admin/settings/route.ts:37-42 | an update by id keeps length, order and ids, sets the flag only on the row with that id, and keeps ids unique |
| AdminSettingsRoute.GetOrCreate | src/app/api/admin/settings/route.ts:4-18 | GET returns the existing first row and creates nothing, or creates and returns one row with `acceptingSongRequests` false |
| AdminSettingsRoute.PutSettings | src/app/api/admin/settings/route.ts:29-52 | PUT stores a boolean it is sent; a missing value (`??`) keeps the stored flag or gives false on create; other values are refused; the returned row is the first row of the new table; an update keeps the length, the next id, the first row's id and every row not sharing it, and a create appends one row with the next id |
| AdminSettingsRoute.GetAfterPut | src/app/api/admin/settings/route.ts:6-52 | a GET after a stored PUT reports the row the PUT returned and creates nothing |
| AdminSettingsRoute.GetIdempotent | src/app/api/admin/settings/route.ts:4-18 | a second GET changes nothing and reports the same row |
| AdminSettingsRoute.PutWithoutValueKeepsTable | src/app/api/admin/settings/route.ts:37-42 | a PUT without the flag leaves an existing table exactly as it was |
| AdminSettingsRoute.HandleGet | src/app/api/admin/settings/route.ts:4-25 | the store and reply are `GetOrCreate` of the old table, or 500 'Failed to fetch app settings' with nothing changed |
| AdminSettingsRoute.HandlePut | src/app/api/admin/settings/route.ts:27-60 | the store and reply follow `PutSettings`, or 500 'Failed to update app settings' with nothing changed |
| RequestSettingRoute.Toggle | src/app/api/song-requests/setting/route.ts:29-46 | PUT on an empty table creates an open row; otherwise it negates the flag of the first row (and of any row sharing its id), leaving every other row, the length and the next id; the reported value is the stored one |
| RequestSettingRoute.ToggleTwiceRestores | src/app/api/song-requests/setting/route.ts:37-44 | two PUTs on an existing row restore the original table |
| RequestSettingRoute.ToggleAfterGet | src/app/api/song-requests/setting/route.ts:6-44 | PUT alone and GET-then-PUT leave the same table and report the same value |
| RequestSettingRoute.ToggleNegatesReported | src/app/api/song-requests/setting/route.ts:17-46 | each PUT on an existing row reports the opposite of what GET reported before it |
| RequestSettingRoute.HandleGet | src/app/api/song-requests/setting/route.ts:4-25 | replies `acceptingRequests` from `GetOrCreate`, or 500 'Failed to fetch song request setting' |
| RequestSettingRoute.HandlePut | src/app/api/song-requests/setting/route.ts:27-54 | the store and reply follow `Toggle`, or 500 'Failed to toggle song request setting' with nothing changed |
| Seed.FindByName | prisma/seed.ts:23-25 | `findFirst({ where: { name } })` is absent exactly when no row has the name, else a row with it |
| Seed.SeedOne | prisma/seed.ts:23-34 | after one loop turn the name is present and ids stay unique |
| Seed.SeedEventTypes | prisma/seed.ts:21-35 | no contract of its own: the loop over the names, one `SeedOne` turn each; `SeedKeepsExisting`, `SeedCoversNames`, `SeedAddsOnlyMissing` and `SeedIdempotent` state its properties |
| Seed.UpsertDefaultSettings | prisma/seed.ts:38-44 | an existing row with id 1 is left alone (empty update); otherwise an open row is created |
| Seed.SeedKeepsExisting | prisma/seed.ts:21-35 | the loop only appends: existing rows stay where they were |
| Seed.SeedCoversNames | prisma/seed.ts:21-35 | after the loop every listed name is present |
| Seed.SeedAddsOnlyMissing | prisma/seed.ts:21-35 | each appended row carries a listed name that no earlier row has, so no name gains a second row |
| Seed.SeedKeepsIdsFresh | prisma/seed.ts:28-30 | created rows get fresh ids |
| Seed.SeedOnCoveredIsIdentity | prisma/seed.ts:23-34 | a table that already names every type is left exactly as it is |
| Seed.SeedIdempotent | prisma/seed.ts:21-35 | running the loop twice leaves what one run left |
| Seed.SeedMissingNames | prisma/seed.ts:21-35 | distinct missing names are appended in list order with consecutive ids |
| Seed.DefaultNamesDistinct | prisma/seed.ts:9-19 | no default event type is listed twice |
| Seed.SeedOnEmptyTable | prisma/seed.ts:9-35 | on an empty table the nine types get ids 1 to 9 in list order |
| Seed.SeedAndGetDefaultsDisagree | prisma/seed.ts:42 | on an empty settings table the seed creates the row open, while the GET routes' `GetOrCreate` creates it closed |
| Seed.CreateMissingEventTypes | prisma/seed.ts:21-35 | the loop leaves the table the specification function gives, and the store well formed |
| Seed.RunSeed | prisma/seed.ts:5-48 | the script seeds the listed event types in order, then upserts the settings row, keeping every table well formed |
| SearchRoute.Search | src/app/api/search/route.ts:3-56 | each outcome holds exactly when its guard is the first to fire: 400 for a missing or empty query, 500 without a token, 500 for a throw, non-ok status or unparsable body, 502 for a body without `response.hits` as an array, else the body unchanged with 200 |
| SearchRoute.UpstreamUnusedWhenGuardFails | src/app/api/search/route.ts:8-21 | without a query or token the service is never consulted |
| SearchRoute.ReplyCarriesHits | src/app/api/search/route.ts:40-48 | every 200 reply carries an array of hits |
| RequestPage.HitResults | src/app/request/page.tsx:72 | the results are the hits' `result` records, in order |
| RequestPage.ResultsAfterSearch | src/app/request/page.tsx:60-79 | a throw or non-ok status keeps the results; `response.hits` gives their records; a body without them gives none |
| RequestPage.RecentAfterLoad | src/app/request/page.tsx:49-109 | the recent list becomes the fetched list; a throw leaves it |
| RequestPage.ImageSrc | src/app/request/page.tsx:205-258 | an empty image URL falls back to `/placeholder-album.svg`, otherwise it is kept |
| RequestPage.RouteReplyShowsItsHits | src/app/request/page.tsx:68-72 | a route reply that passed every guard shows exactly its hits |
| RequestPage.RouteFailureKeepsResults | src/app/request/page.tsx:64-79 | any failure of the search route leaves the results |
| RequestPage.RequestPage.constructor | src/app/request/page.tsx:31-36 | initial state: empty query, results and recent list, nothing in flight, requests taken as closed (the closed view shows) |
| RequestPage.RequestPage.SetSearchQuery | src/app/request/page.tsx:171 | the query holds exactly what was typed, and nothing else changes |
| RequestPage.RequestPage.RecentShown | src/app/request/page.tsx:251 | the shown list is a prefix of the recent requests, of length exactly the smaller of ten and their number |
| RequestPage.RequestPage.LoadSetting | src/app/request/page.tsx:40-45 | the flag becomes the fetched `acceptingRequests`; a throw leaves it |
| RequestPage.RequestPage.LoadRecent | src/app/request/page.tsx:47-53 | the recent list follows `RecentAfterLoad` |
| RequestPage.RequestPage.StartSearch | src/app/request/page.tsx:56-58 | a query blank after trimming starts nothing and changes nothing; otherwise `isSearching` becomes true |
| RequestPage.RequestPage.FinishSearch | src/app/request/page.tsx:59-82 | results follow `ResultsAfterSearch`, and `isSearching` ends false |
| RequestPage.RequestPage.SearchSongs | src/app/request/page.tsx:55-83 | a blank query changes nothing; otherwise results follow the outcome and `isSearching` ends false |
| RequestPage.RequestPage.StartSubmit | src/app/request/page.tsx:86-91 | nothing is sent while requests are closed |
| RequestPage.RequestPage.FinishSubmit | src/app/request/page.tsx:92-117 | an ok POST clears the query and results and replaces the recent list; a failure leaves them; `isSubmitting` ends false |
| RequestPage.RequestPage.SubmitRequest | src/app/request/page.tsx:85-118 | a send happens exactly when requests are open; then query and results are cleared and the recent list replaced by the refresh exactly on an ok POST, and all three are kept otherwise |
| AdminPage.WithoutId | src/app/admin/page.tsx:194-251 | a delete keeps exactly the entries whose id differs; with no match the list is unchanged; kept plus removed is the length |
| AdminPage.WithoutIdConcat | src/app/admin/page.tsx:194-251 | removing from a joined list removes from each part, keeping order |
| AdminPage.ArchiveId | src/app/admin/page.tsx:232-234 | archiving keeps length, order and every other field, and sets `isArchived` exactly on entries with that id |
| AdminPage.ArchiveIdLeavesActiveView | src/app/admin/page.tsx:232-735 | archiving an id removes exactly its entries from the unarchived view |
| AdminPage.CountsAddUp | src/app/admin/page.tsx:696-708 | active plus archived counts equal the total |
| AdminPage.SongListShown | src/app/admin/page.tsx:735 | the song list is a prefix of the unarchived requests, of length exactly the smaller of ten and their number |
| AdminPage.FindEventType | src/app/admin/page.tsx:262 | `find` gives the first type with that id, absent when none matches |
| AdminPage.EventTypeName | src/app/admin/page.tsx:261-264 | the first matching type's name, 'Unknown' when none matches or when the first match's name is empty; never empty |
| AdminPage.TruncateDescription | src/app/admin/page.tsx:495-497 | a description over 100 characters becomes its first 100 plus '...'; shorter ones are unchanged |
| AdminPage.AdminDashboard.constructor | src/app/admin/page.tsx:104-108 | initial lists are empty and settings are `{ id: 1, acceptingSongRequests: false }` |
| AdminPage.AdminDashboard.UpdateSettings | src/app/admin/page.tsx:165-185 | local settings become the server's row only on an ok reply |
| AdminPage.AdminDashboard.DeleteSubmission | src/app/admin/page.tsx:187-194 | the submission list loses that id only on an ok reply |
| AdminPage.AdminDashboard.DeleteIntakeForm | src/app/admin/page.tsx:204-211 | the intake list loses that id only on an ok reply |
| AdminPage.AdminDashboard.ArchiveSongRequest | src/app/admin/page.tsx:221-234 | song requests are archived by id only on an ok reply |
| AdminPage.AdminDashboard.DeleteSongRequest | src/app/admin/page.tsx:244-251 | song requests lose that id only on an ok reply |
| AdminPage.SwitchShowsStoredRow | src/app/admin/page.tsx:814-816 | flipping the switch stores the chosen value, and a following GET reports the same row |
| RequestDashboard.FilterRequests | src/app/request-dashboard/page.tsx:64-71 | the filtered list is a subsequence of the requests holding each one whose artist, title or requester contains the term, ignoring case, as often as listed, and no other |
| RequestDashboard.Matches | src/app/request-dashboard/page.tsx:64-71 | no contract of its own: the lower-cased artist, title or requester includes the lower-cased term; `EmptyTermKeepsAll` states its empty-term case |
| RequestDashboard.EmptyTermKeepsAll | src/app/request-dashboard/page.tsx:65-69 | an empty term keeps every request, in order |
| RequestDashboard.SetStatus | src/app/request-dashboard/page.tsx:73-83 | the status of entries with that id is set, whatever it was; nothing else changes |
| RequestDashboard.PendingView | src/app/request-dashboard/page.tsx:92 | the pending view is a subsequence of the filtered requests holding each pending one as often as there, and no other |
| RequestDashboard.ApprovedView | src/app/request-dashboard/page.tsx:93 | the approved view is a subsequence of the filtered requests holding each approved one as often as there, and no other |
| RequestDashboard.ViewsDisjoint | src/app/request-dashboard/page.tsx:92-93 | the views are disjoint and show no archived request |
| RequestDashboard.ArchivedIdLeavesViews | src/app/request-dashboard/page.tsx:80-93 | after archiving an id neither view shows it, whatever the term |
| RequestDashboard.RequestersBounded | src/app/request-dashboard/page.tsx:208 | the distinct-requester count is at most the request count, and positive when there are requests |
| RequestDashboard.Requesters | src/app/request-dashboard/page.tsx:208 | no contract of its own: the set of requester names; `RequestersBounded` bounds its size |
| RequestDashboard.RequestDashboardPage.constructor | src/app/request-dashboard/page.tsx:22-26 | starts empty, loading, with the accepting flag true |
| RequestDashboard.RequestDashboardPage.Load | src/app/request-dashboard/page.tsx:57-61 | the mock list is installed and loading ends |
| RequestDashboard.RequestDashboardPage.SetSearchTerm | src/app/request-dashboard/page.tsx:24-71 | the term changes and the filtered list follows |
| RequestDashboard.RequestDashboardPage.HandleApprove | src/app/request-dashboard/page.tsx:73-78 | approve sets status approved on that id |
| RequestDashboard.RequestDashboardPage.HandleArchive | src/app/request-dashboard/page.tsx:80-85 | archive sets status archived on that id |
| RequestDashboard.RequestDashboardPage.ToggleAcceptingRequests | src/app/request-dashboard/page.tsx:87-90 | the flag is negated, and the toast reads from the value before the switch |
| IntakeRoute.GroupsApart | src/app/api/intake/route.ts:26-67 | the record's copied, empty-string, null and genre fields do not overlap |
| IntakeRoute.BuildRecord | src/app/api/intake/route.ts:26-67 | the stored record has exactly the 28 listed fields, each with its own fallback |
| IntakeRoute.FieldValue | src/app/api/intake/route.ts:26-67 | no contract of its own: a stored field's value with its `||` fallback (null, '' or []) or as sent; the lemmas below state each group |
| IntakeRoute.CopiedFieldsAsSent | src/app/api/intake/route.ts:27-41 | the plain fields are stored as sent |
| IntakeRoute.GenresAndSongListsDefault | src/app/api/intake/route.ts:39-50 | `musicGenres` falls back to an empty array and the song lists to '' when falsy |
| IntakeRoute.NotesDropped | src/app/api/intake/route.ts:26-67 | `dietaryRestrictions` and `accessibilityNeeds` are never stored |
| IntakeRoute.NullFieldsNeverFalsy | src/app/api/intake/route.ts:45-66 | optional fields are stored as sent when truthy, else null |
| IntakeRoute.ValidBodyKeepsGenres | src/app/api/intake/route.ts:13-39 | a body that passed the required check keeps its genres as sent |
| IntakeRoute.FindMissingField | src/app/api/intake/route.ts:16-23 | the loop finds the first required field, in order, whose value is falsy |
| IntakeRoute.HandlePost | src/app/api/intake/route.ts:5-89 | 400 names the first missing field; otherwise the record is stored and 201 carries its id; an unreadable body or store failure gives 500 with nothing stored |
| IntakeRoute.ListPage | src/app/api/intake/route.ts:97-101 | a page is sorted by `submittedAt` descending and is the slice `[offset, offset+limit)` of the sorted forms, of length exactly `min(limit, max(0, count - offset))` |
| Lists.SortedOrderUnique | src/app/api/intake/route.ts:98 | with distinct keys, two descending orders of the same elements are equal |
| IntakeRoute.AnyQueryOrderGivesListPage | src/app/api/intake/route.ts:97-101 | when no two forms share a `submittedAt`, every order the store may return for the query gives the page `ListPage` gives |
| IntakeRoute.PagesConcatenate | src/app/api/intake/route.ts:97-101 | when no two forms share a `submittedAt`, two separate queries, the second skipping what the first took, together give the one larger page |
| IntakeRoute.HandleGet | src/app/api/intake/route.ts:91-112 | replies with the page for `limit` (default 50) and `offset` (default 0), or 500 |
| IntakePage.ToggleGenre | src/app/intake/page.tsx:102-105 | toggling removes every occurrence of a selected genre, keeping the other genres in their order and with their counts, or appends an unselected one at the end |
| IntakePage.ToggleUnselectedTwice | src/app/intake/page.tsx:102-112 | toggling an unselected genre twice gives back the original list |
| IntakePage.Spaced | src/app/intake/page.tsx:123 | the replace inserts exactly one character per capital letter |
| IntakePage.SpacedUnspaces | src/app/intake/page.tsx:123 | dropping the inserted spaces gives back the field name |
| IntakePage.Humanize | src/app/intake/page.tsx:123 | the label has no capital letters and one extra character per capital |
| IntakePage.CamelCaseLabel | src/app/intake/page.tsx:123 | a two-word camel-case field name is shown as its two lower-case words separated by one space |
| IntakePage.PhoneNumberLabel | src/app/intake/page.tsx:123 | 'phoneNumber' is shown as 'phone number' |
| IntakePage.AsObject | src/app/intake/page.tsx:122 | a form field is truthy exactly when it holds a non-empty string |
| IntakePage.CheckForm | src/app/intake/page.tsx:114-139 | fails on an empty required field, naming one whose predecessors in the list are all filled, before any genre or email check; then on no genre, then on an email without '@'; otherwise succeeds |
| IntakePage.Payload | src/app/intake/page.tsx:149-157 | the payload holds the form's keys and the six overridden ones, each with its value |
| IntakePage.PayloadDefaults | src/app/intake/page.tsx:153-156 | empty song lists go out as '[]', the genres as the selection |
| IntakePage.PayloadKeepsText | src/app/intake/page.tsx:150 | every other field goes out as typed |
| IntakePage.RouteFieldsCovered | src/app/intake/page.tsx:115-119 | every field the route requires is required by the page, or is the genre list |
| IntakePage.AcceptedFieldFilled | src/app/intake/page.tsx:121-126 | an accepted form has every required field non-empty |
| IntakePage.ClientFieldNotOverridden | src/app/intake/page.tsx:150-156 | the payload does not override any required text field |
| IntakePage.RouteFieldTruthy | src/app/intake/page.tsx:149-157 | in an accepted form's payload every field the route requires, other than date and count, is truthy |
| IntakePage.AcceptedFormPassesRoute | src/app/intake/page.tsx:144-157 | a form the page accepts, with a truthy date and count, passes the route's required check |
| IntakePage.ZeroGuestsRejectedByRoute | src/app/intake/page.tsx:152 | a guest count that passes the page but parses to 0 or NaN (sent as null) is the field the route reports as missing |
| IntakePage.FirstFalsyIsFirst | src/app/intake/page.tsx:121-126 | the first falsy key is found when every earlier key is truthy |
| IntakePage.IntakeFormPage.constructor | src/app/intake/page.tsx:54-93 | all text fields start empty, no genres, not loading; the first check fails on `clientName` |
| IntakePage.IntakeFormPage.HandleInputChange | src/app/intake/page.tsx:95-100 | only the named field changes |
| IntakePage.IntakeFormPage.HandleGenreToggle | src/app/intake/page.tsx:102-112 | the selection follows `ToggleGenre` and `formData.musicGenres` equals it |
| IntakePage.IntakeFormPage.FirstEmpty | src/app/intake/page.tsx:121-126 | the loop stops at the first field, in order, whose value is empty |
| IntakePage.NoClientNameFirst | src/app/intake/page.tsx:114-126 | an empty client name is what the page reports, whatever else the form holds |
| IntakePage.IntakeFormPage.ValidateForm | src/app/intake/page.tsx:114-139 | the loop and checks give `CheckForm` |
| IntakePage.IntakeFormPage.HandleSubmit | src/app/intake/page.tsx:141-180 | nothing is sent unless the form validates; otherwise the payload is sent, navigation happens on an ok answer, and `loading` ends false |
| ContactSection.Issues | src/components/homepage/contact-section.tsx:18-27 | the schema reports exactly the fields whose rule fails, and nothing exactly when every rule holds |
| ContactSection.RuleHolds | src/components/homepage/contact-section.tsx:18-27 | no contract of its own: each field's schema rule (`min` lengths, the email check); `Issues`, `PhoneRuleCountsCharacters` and `EmptyFormRejected` state its properties |
| ContactSection.PhoneRuleCountsCharacters | src/components/homepage/contact-section.tsx:22 | any ten characters pass the phone rule, digits or not |
| ContactSection.EmptyFormRejected | src/components/homepage/contact-section.tsx:19-26 | an untouched form fails every length rule |
| ContactSection.OptionsAreOneToSix | src/components/homepage/contact-section.tsx:73-80 | the select offers exactly ids 1 to 6, in order |
| ContactSection.SeededName | prisma/seed.ts:9-35 | on a freshly seeded store id i+1 names the i-th default type |
| ContactSection.OptionsMislabelSeededTypes | src/components/homepage/contact-section.tsx:78-79 | ids 5 and 6 ('Anniversary', 'Other') name 'Prom' and 'Graduation Party' on a seeded store |
| ContactSection.SeededOptionsNameTheirTypes | src/components/homepage/contact-section.tsx:73-80 | with ids 1, 2, 3, 4, 7, 9 every choice is shown under the name picked |
| ContactSection.ContactForm.constructor | src/components/homepage/contact-section.tsx:36-47 | starts with empty values, not submitting |
| ContactSection.ContactForm.SetValues | src/components/homepage/contact-section.tsx:118-220 | the registered inputs and the select hold exactly what the guest entered, and nothing else changes |
| ContactSection.ContactForm.Submit | src/components/homepage/contact-section.tsx:49-71 | nothing is sent while the schema reports issues; a sent form is reset only on an ok answer; `isSubmitting` ends false |
| HomePage.Ladder | src/app/page-new.tsx:40-52 | the general ladder picks an index between 0 and the number of bands |
| HomePage.LadderPicksContainingBand | src/app/page-new.tsx:40-50 | the chosen band is [sum of earlier heights, that sum plus its own height) around the scroll position |
| HomePage.FourSectionIsLadder | src/app/page.tsx:39-47 | the four-section handler picks the general ladder's band |
| HomePage.SixSectionIsLadder | src/app/page-new.tsx:40-52 | the six-section handler picks the general ladder's band |
| HomePage.FourSectionOf | src/app/page.tsx:29-48 | no contract of its own: page.tsx's chain of height comparisons; `FourSectionIsLadder` ties it to the general ladder |
| HomePage.SixSectionOf | src/app/page-new.tsx:26-53 | no contract of its own: page-new.tsx's chain of height comparisons; `SixSectionIsLadder` ties it to the general ladder |
| HomePage.LadderMonotone | src/app/page.tsx:39-47 | scrolling further never selects an earlier section |
| HomePage.EmptyBandNeverSelected | src/app/page.tsx:35-44 | a band of height 0 (a missing element) is never selected at a non-negative scroll position |
| HomePage.ContactHeightUnused | src/app/page-new.tsx:32 | the contact section's height makes no difference to either page |
| HomePage.CheckMobile | src/app/page.tsx:17-19 | `isMobile` is set true exactly when the width is at most 768 |
| HomePage.OnScroll | src/app/page.tsx:29-48 | the scroll handler sets the section the ladder picks |
| HomePage.OnScrollSix | src/app/page-new.tsx:26-53 | the six-section handler sets the section the ladder picks |
| Store.AppStore.constructor | src/lib/store.ts:13-15 | starts at 'hero', not mobile, not accepting |
| Store.AppStore.SetCurrentSection | src/lib/store.ts:16 | only `currentSection` changes, to the value given |
| Store.AppStore.SetIsMobile | src/lib/store.ts:17 | only `isMobile` changes |
| Store.AppStore.SetAcceptingRequests | src/lib/store.ts:18 | only `acceptingRequests` changes |
| Seo.BaseUrl | src/lib/seo.ts:36 | the base is the environment's URL when non-empty, else the site's |
| Seo.CanonicalUrl | src/lib/seo.ts:37 | the canonical URL begins with the base; `CanonicalExtendsBase` states the rest |
| Seo.CanonicalExtendsBase | src/lib/seo.ts:37 | the canonical URL is base plus path, and equals the base exactly when no path is given |
| Seo.OgImageUrl | src/lib/seo.ts:38 | the resolved image URL ends with the image path as given; `OgImageAbsolute` states when the base is added |
| Seo.OgImageAbsolute | src/lib/seo.ts:38 | an image starting with 'http' is kept, others get the base; the result is absolute and resolving again changes nothing |
| Seo.DefaultImageOnSite | src/lib/seo.ts:31-38 | the default image resolves under the base |
| Seo.GenerateMetadata | src/lib/seo.ts:15-90 | no contract of its own: the metadata record built from the props with their defaults, the base URL and the environment's verification ids; `MetadataAgrees`, `DefaultMetadata` and `KeywordsInOrder` state its properties |
| Seo.MetadataAgrees | src/lib/seo.ts:40-90 | Open Graph and Twitter share title, description and image; alt is the title; the four robots flags all equal `!noIndex` |
| Seo.DefaultMetadata | src/lib/seo.ts:15-38 | with no props and no environment URL the page gets the site URLs, the default copy, and is indexable |
| Seo.KeywordsInOrder | src/lib/seo.ts:43 | keywords are joined with ', ', first keyword first |
| Seo.ServiceStructuredData | src/lib/seo.ts:174-205 | no contract of its own: the Service record with the three arguments and the fixed provider, area and offer; `ServiceCopiesArguments` states its properties |
| Seo.ServiceCopiesArguments | src/lib/seo.ts:174-180 | name, description and url are copied verbatim; different arguments give different records |
| Unauthorized.AlertIffKnownError | src/app/unauthorized/page.tsx:13-47 | an alert shows exactly for the four known error codes, never with empty text |
| Unauthorized.MessageOnlyForUnauthorized | src/app/unauthorized/page.tsx:19-26 | the message parameter is used only for 'unauthorized', when non-empty, else the default text |
| Unauthorized.KnownErrorsDistinguished | src/app/unauthorized/page.tsx:19-26 | the four codes show four different texts |
| Unauthorized.ErrorText | src/app/unauthorized/page.tsx:15-28 | no contract of its own: the alert text for each known code, with `messageParam` or the default for 'unauthorized', and none otherwise; `AlertIffKnownError`, `MessageOnlyForUnauthorized` and `KnownErrorsDistinguished` state its properties |
| ConditionalLayout.Layout | src/components/layout/conditional-layout.tsx:17-35 | admin pages render content alone, full height; others render menu bar, content, footer |
| ConditionalLayout.ContentAlwaysOnce | src/components/layout/conditional-layout.tsx:17-35 | content appears exactly once; menu bar and footer exactly off admin pages |
| ConditionalLayout.AdminPrefixClosed | src/components/layout/conditional-layout.tsx:15 | any extension of an admin path is admin (a plain prefix test) |
| ConditionalLayout.AdministratorIsAdmin | src/components/layout/conditional-layout.tsx:15 | '/administrator' is admin; '/' and a missing pathname are not |
| ConditionalLayout.IsAdminPage | src/components/layout/conditional-layout.tsx:15 | no contract of its own: `pathname?.startsWith('/admin')`, false without a pathname; `AdminPrefixClosed` and `AdministratorIsAdmin` state its properties |

## Left out

- I/O: network and browser `fetch` calls, JSON parsing, toasts, `console` output and router navigation are left out. Each fetch outcome is a parameter, and navigation is a returned flag.
- The JSON shapes of replies are reduced to what the callers read: `{ id }`, `{ acceptingRequests }` and `{ success: true }` are the `body` of a `Reply`.
- Concurrency is left out: there are no racing toggles, overlapping searches, or gap between the page's flag read and the POST. Calls are single and sequential.
- The acceptance flag is not checked by the server on POST. The flag is checked only in the browser, and the model follows the code.
- The `[id]` routes (archive and delete by id) are not part of this model. Only the admin page's client-side list effect is modelled. `src/app/api/song-requests/[id]/route.ts` DELETE archives rather than deletes.
- `new Date()`, `parseInt` and `toLocaleString` are left out. The intake page's parsed date and guest count are parameters of `IntakePage.Payload`. The intake route's own `new Date(body.eventDate)` and `parseInt(body.guestCount)` are not modelled: the stored record keeps both values as sent, that is, as the page already parsed them. The "This Month" and "This Week" counts are omitted because they depend on the clock.
- IntakeRoute.HandleGet: `limit` and `offset` are natural numbers. The source's `parseInt` can also give a negative number or NaN. The store reads a negative `take` from the end and refuses a negative `skip`. Those queries are not modelled.
- Strings are sequences of characters. `toLowerCase` covers ASCII letters only, and `trim` uses a fixed whitespace set. Zod's `.min` counts characters.
- The schema's per-field error messages, shown under failing inputs, are left out. `ContactSection.Issues` names the failing fields.
- The email check belongs to the schema library. It is a predicate parameter. A non-string email value in the intake page is not modelled.
- Ties in the `orderBy` sort are unspecified in the source, and two queries need not order equal timestamps alike. `ListPage` uses one fixed order. Properties that compare separate queries (`AnyQueryOrderGivesListPage`, `PagesConcatenate`) require distinct `submittedAt` values, under which `Lists.SortedOrderUnique` shows there is only one order. With ties, paging can repeat or skip a form, and the model does not capture that.
- Seo.GenerateMetadata: `metadataBase` is the base URL string. The source's `new URL(baseUrl)` normalises it, and throws when the environment's base URL is not absolute (such as `www.example.com`); neither is modelled.
- `loadDashboardData` (the admin page's initial load) is left out. Each list is replaced on an ok reply, like the update handlers.
- `loading` flags that only guard rendering are left out, except where a property mentions them.
- The seed's partial failure and `$disconnect` are left out.
- Structured data constants (`organizationStructuredData`, `localBusinessStructuredData`) and `generateStructuredDataScript` (`JSON.stringify`) are left out. They are literal tables and a library call.
- Authentication and library internals (Auth0, toast, framer-motion) are left out.
- RequestPage.RequestPage.LoadSetting: an error body in the source leaves the flag `undefined`. The model reads that as false, which is the same for every test the page makes.
- RequestPage.RecentAfterLoad: an error body in the source replaces the list with an error object. Its `length` is undefined, so nothing is rendered. The model shows it as the empty list.
- IntakePage.IntakeFormPage.HandleInputChange: it takes string values only. The source also allows numbers, which no caller passes.
- ContactSection.ContactForm.Submit: `reset()` leaves the fields `undefined`. The model resets them to "".
- Seed.RunSeed: the list of names is a parameter. The script always passes the nine defaults (`Seed.EventTypeNames`), and `Seed.SeedOnEmptyTable` states what they give on an empty table.
- HomePage.EmptyBandNeverSelected: it assumes a non-negative scroll position. An overscroll below 0 can select a zero-height first band.

## Findings

| source | as written | input that shows it | evidently intended | confidence | as-written member | corrected member |
|---|---|---|---|---|---|---|
| src/components/homepage/contact-section.tsx:73-80 | the event-type select hard-codes ids '1'..'6' with names that do not follow the seed's order; the contact route stores `parseInt(eventTypeId)` and the admin dashboard shows the stored id's name | a store seeded on an empty table (ids 1..9 in the seed's order); the guest picks "Anniversary" (id 5) or "Other" (id 6) | each choice's id is the id the seed gives that name (1, 2, 3, 4, 7, 9), so the dashboard shows the name the guest picked | medium, not executed | ContactSection.OptionsMislabelSeededTypes | ContactSection.SeededOptionsNameTheirTypes |
