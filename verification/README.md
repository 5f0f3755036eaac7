# Playdate directory and participation — a Dafny model

This project models the domain logic of *leikille*, a mobile app for organising and joining
children's playdates. The app is mostly UI. Its logic is a thin document-store service and a
few screen handlers. Each handler is written here as a pure function from (state, inputs) to
a new state or an error:

- **Service** (`firestoreService`). The `playdates` and `users` collections are
  `map<string, Playdate>` and `map<string, User>`. The module covers get / create / update,
  the day query `getTodaysPlaydates`, the read-append-write `joinPlaydate`, and
  `users.get/update/create`.
- **Participation**. The reference children total (a sum over the participant list) and the
  `some(p => p.userId === uid)` test.
- **Detail**. The detail screen's join handler (duplicate guard, one child per join), the
  statistics block, the viewer's role and the three action blocks, and the participant rows
  (initial, name fallback, 'lapsi'/'lasta' label, organizer badge).
- **Card**. The feed card: family count, children total as a left fold, age range, and the
  description line.
- **Profile**. Adding a child (age check 0..18, derived birth date), confirmed removal by
  index, and the profile save.
- **CreateForm**. Validation in the create-playdate handler, the record it builds (organizer
  snapshot, age-range and capacity defaulting), and the form reset.
- **AuthForms**. The register and login checks and their error-message fallback.
- **Numbers**. A simplified `parseInt`: an optional '-', then the longest run of leading
  decimal digits, or NaN when there are none. It is paired with a decimal rendering `Show`,
  and the two round-trip.

Time values are integers. Coordinates are carried along but never computed with. The clock
reading (`now`), the day bounds and the identity provider's answer are parameters.

Several behaviours of the code may be unexpected. The model keeps each one as written:
- The duplicate-join check lives in the detail screen, not in the service. `joinPlaydate`
  appends unconditionally (`Service.JoinTwiceKeepsBoth`).
- Removing a child at an out-of-range index leaves the roster unchanged. It does not raise
  an error (`Profile.RemoveChild`).
- The age range is not checked for `min <= max` or for the 0..18 bounds
  (`CreateForm.AgeRangeNotOrdered`).
- A participant's children count is not checked to be non-negative.
- Removing index 0 after adding a child restores the roster only when the roster was empty.
  In general, removing the index just appended restores it (`Profile.AddThenRemoveLast`).

## Model

| member | source | states |
|---|---|---|
| Numbers.ParseInt | src/screens/ProfileScreen.tsx:79 | NaN exactly when no digit follows the optional '-'; a negative result only after a leading '-' |
| Numbers.ParseShowRoundTrip | src/screens/CreatePlaydateScreen.tsx:84-87 | parsing the decimal text of n, followed by anything that is not a digit, gives back n |
| Participation.ChildrenSumAppend | src/components/PlaydateCard.tsx:11-14 | appending one participant raises the children total by exactly that participant's count |
| Participation.SomeJoined | src/screens/PlaydateDetailScreen.tsx:39 | the left-to-right `some` scan is true iff some entry carries the user's id |
| Service.GetPlaydate | src/services/firestore.service.ts:55-61 | null iff no document has the id; otherwise the stored record with its id set to the key |
| Service.CreatePlaydate | src/services/firestore.service.ts:46-53 | the new id was unused; the store gains exactly that entry, holding the data stamped with both timestamps; nothing else changes |
| Service.CreateThenGet | src/services/firestore.service.ts:46-61 | reading back a created playdate yields the supplied data under the fresh id |
| Service.UpdatePlaydate | src/services/firestore.service.ts:84-89 | fails iff the id is unknown; otherwise each supplied field is replaced, each unsupplied field is kept, updatedAt becomes now, and other documents are untouched |
| Service.JoinPlaydate | src/services/firestore.service.ts:96-109 | fails with "Playdate not found" iff the id is unknown, and then writes nothing; otherwise only that playdate changes: one participant is appended and updatedAt is stamped |
| Service.JoinAppendsOne | src/services/firestore.service.ts:100-108 | the list grows by one; the old entries form an unchanged prefix; the new last entry has the given user and count |
| Service.JoinFirst | src/services/firestore.service.ts:100-101 | joining a playdate with no participants yields exactly one entry |
| Service.JoinTwiceKeepsBoth | src/services/firestore.service.ts:96-108 | the service does no duplicate check: two joins by one user leave two entries for that user |
| Service.JoinRaisesTotals | src/services/firestore.service.ts:100-108 | a join with n children raises the children total by n and the family count by 1 |
| Service.InsertByDate | src/services/firestore.service.ts:74 | inserting into a date-sorted list keeps it sorted; the result is a permutation of the old elements plus the new one (equal multisets) |
| Service.InsertKeepsIdsDistinct | src/services/firestore.service.ts:78-81 | inserting a playdate with a new id keeps the ids in the list pairwise distinct |
| Service.GetTodaysPlaydates | src/services/firestore.service.ts:64-82 | returns each stored playdate dated in [dayStart, nextDayStart) exactly once, as get returns it, and nothing else, in ascending order of date |
| Service.GetUser | src/services/firestore.service.ts:28-34 | null iff the user is unknown; otherwise the stored user with its id set to the key |
| Service.UpdateUser | src/services/firestore.service.ts:36-41 | fails iff the user is unknown; otherwise only the supplied profile fields and updatedAt change, and other users are untouched |
| Service.UpdateUserThenGet | src/services/firestore.service.ts:28-41 | reading a user back after a successful write yields the written fields, the unsupplied old ones, the key as id and the new updatedAt |
| Service.CreateUserAsWritten | src/services/firestore.service.ts:20-26 | as written, create fails iff no document exists yet for the id |
| Service.CreateUserAsWrittenNeverCreates | src/services/firestore.service.ts:20-26 | for any id not yet stored, create as written fails and the user remains absent |
| Service.CreateUser | src/services/firestore.service.ts:20-26 | intended create: afterwards the user exists, the supplied fields and both timestamps are set, and other users are untouched |
| Service.CreateUserThenUpdate | src/services/firestore.service.ts:20-41 | after the intended create, a profile update of that user succeeds |
| Detail.HandleJoin | src/screens/PlaydateDetailScreen.tsx:36-55 | no-op without a user or a loaded playdate; a duplicate is warned about with no service call and no change; otherwise the service appends the user with exactly 1 child, or the store is unchanged when it throws |
| Detail.JoinThenRejoin | src/screens/PlaydateDetailScreen.tsx:36-49 | after a successful join and reload the viewer counts as joined, and a second join is refused as a duplicate with no change |
| Detail.ParticipantStats | src/screens/PlaydateDetailScreen.tsx:65-68 | the reduce loop yields the reference children total (0 for no entries); the family count is the list length |
| Detail.Actions | src/screens/PlaydateDetailScreen.tsx:189-218 | exactly one action block is shown: the join button for a guest, the joined card for a participant who does not organise, the organizer card for the organizer |
| Detail.OrganizerWins | src/screens/PlaydateDetailScreen.tsx:191-218 | an organizer who is also a participant sees only the organizer card |
| Detail.JoinButtonMeansNotJoined | src/screens/PlaydateDetailScreen.tsx:70-71 | the join button is shown iff the viewer does not organise and no entry carries their id |
| Detail.ChildrenLabel | src/screens/PlaydateDetailScreen.tsx:176 | 'lapsi' iff the count is 1, otherwise 'lasta' |
| Detail.Row | src/screens/PlaydateDetailScreen.tsx:164-183 | initial '?' and name 'Käyttäjä' when the snapshot name is missing or empty; otherwise the name and its upper-cased first character; when upper-casing yields nothing the initial is '?'; the count label is 'lapsi' iff the count is 1; the badge shows iff the entry is the organizer's |
| Detail.Rows | src/screens/PlaydateDetailScreen.tsx:164-186 | one row per participant, in stored order |
| Detail.JoinedRowShowsPlaceholders | src/screens/PlaydateDetailScreen.tsx:168-173 | an entry appended by the service has no snapshot, so its row shows '?' and 'Käyttäjä' |
| Card.ReduceChildrenIsSum | src/components/PlaydateCard.tsx:11-14 | the card's left-fold reduce from acc equals acc plus the reference sum |
| Card.Render | src/components/PlaydateCard.tsx:10-58 | the family count is the list length; the children total is the same sum the detail screen shows (0 when empty); the age bounds appear unmodified; the description line appears iff the description is non-empty |
| Card.CardAfterJoin | src/components/PlaydateCard.tsx:11-44 | after a join with n children the card shows n more children and one more family, and nothing else on it changes |
| Profile.AddChild | src/screens/ProfileScreen.tsx:73-98 | rejects empty inputs, and NaN or out-of-range ages, with the roster unchanged; on success appends exactly one child (birth year = current year - age), keeps earlier children, and clears and hides the inputs |
| Profile.AddChildAcceptsShownAge | src/screens/ProfileScreen.tsx:79-94 | every age 0..18 typed as its decimal text is accepted and stored as that age |
| Profile.RemoveChild | src/screens/ProfileScreen.tsx:109-111 | the index filter keeps exactly the other children, in order (one fewer when in range); an out-of-range index changes nothing |
| Profile.AddThenRemoveLast | src/screens/ProfileScreen.tsx:94-111 | removing the child just added restores the previous roster |
| Profile.SaveProfile | src/screens/ProfileScreen.tsx:50-71 | without a user or with an empty name nothing is written; otherwise exactly name, phone number and roster (plus updatedAt) are written, or the save fails when the user has no document |
| CreateForm.Reset | src/screens/CreatePlaydateScreen.tsx:93-104 | after creation the form equals its initial state, apart from the map marker |
| CreateForm.AgeRangeOf | src/screens/CreatePlaydateScreen.tsx:84-87 | each bound is its parsed value when that is a non-zero number, else 0 (minimum) or 10 (maximum) |
| CreateForm.MaxParticipantsOf | src/screens/CreatePlaydateScreen.tsx:83 | absent iff the text is empty, otherwise the parse of the text (possibly NaN) |
| CreateForm.MaxParticipantsOfShown | src/screens/CreatePlaydateScreen.tsx:83 | a capacity typed as the decimal text of n is stored as n, zero included (no fallback, unlike the age bounds) |
| CreateForm.AgeRangeOfShown | src/screens/CreatePlaydateScreen.tsx:84-87 | typed bounds read back unchanged, except that zero falls back: a maximum of "0" becomes 10 |
| CreateForm.AgeRangeDefaults | src/screens/CreatePlaydateScreen.tsx:84-87 | the initial texts "2" and "5" give the range 2..5 |
| CreateForm.AgeRangeNotOrdered | src/screens/CreatePlaydateScreen.tsx:84-87 | a minimum above the maximum is stored as typed |
| CreateForm.OrganizerSnapshot | src/screens/CreatePlaydateScreen.tsx:70-77 | the snapshot has the user's uid, name defaulting to 'Käyttäjä', email defaulting to '', and no children |
| CreateForm.BuildPlaydate | src/screens/CreatePlaydateScreen.tsx:60-88 | organizerId and organizer.id are the user's uid; the participant list is empty; location, texts and date are copied from the form; the age range and capacity are defaulted |
| CreateForm.HandleCreatePlaydate | src/screens/CreatePlaydateScreen.tsx:47-107 | the field check comes first, then the signed-in check, and a failure changes neither the store nor the form; success stores the built record under a fresh id and resets the form |
| AuthForms.CheckRegistration | src/screens/RegisterScreen.tsx:19-33 | checks emptiness, then mismatch, then a length below 6 UTF-16 code units, each error exactly under its condition; on success only email and password are passed on |
| AuthForms.EmojiPasswordLongEnough | src/screens/RegisterScreen.tsx:30-33 | the length is counted in UTF-16 code units: three emoji are six units and pass the check |
| AuthForms.MismatchReportedBeforeLength | src/screens/RegisterScreen.tsx:25-33 | a short password that differs from its confirmation is reported as a mismatch |
| AuthForms.FailureAlert | src/screens/RegisterScreen.tsx:40 | the provider's message when it is non-empty, otherwise the fallback text |
| AuthForms.HandleRegister | src/screens/RegisterScreen.tsx:19-44 | register is called iff every check passes, with email and password only; a rejection shows the message or 'Rekisteröinti epäonnistui'; loading ends false after a call |
| AuthForms.HandleLogin | src/screens/LoginScreen.tsx:17-31 | login is called iff both fields are filled, with exactly what was typed; a rejection shows the message or 'Kirjautuminen epäonnistui'; loading ends false after the attempt |
| AuthForms.RegisteredCredentialsReachLogin | src/screens/LoginScreen.tsx:18-25 | every email and password the registration form accepts is passed to login unchanged |
| Domain.Utf16LengthOfBmp | src/screens/RegisterScreen.tsx:30 | for text without characters beyond U+FFFF, the JavaScript length equals the character count |

## Left out

- Document-store I/O: network failures, timeouts and the screens' generic "could not load/create" alerts are not modelled. The only store error modelled is the refusal to update a missing document.
- `playdates.delete` (firestore.service.ts:91-93): not used by any handler in this model.
- The read-modify-write race in `joinPlaydate`: it concerns concurrent callers, and every operation here is one atomic step.
- Service.GetTodaysPlaydates: does not fix the order of playdates that share a date. The store breaks such ties by document id, and that ordering is not modelled.
- The clock and calendar: "today" and "tomorrow" are the parameters `dayStart` and `nextDayStart` (daylight-saving effects are not modelled). One `now` per operation stamps both `joinedAt` and `updatedAt`.
- Service.JoinPlaydate: a stored playdate without a `participants` field cannot be represented. The record type always has the list, and create always writes `[]`. The fallback `|| []` therefore coincides with the empty-list case, which `Service.JoinFirst` covers.
- Profile.AddChild: the birth date keeps the position within the year. The roll-over of February 29 under `setFullYear` is not modelled.
- Numbers.ParseInt: leading whitespace, '+', radix prefixes and JavaScript's negative zero are not modelled.
- Character upper-casing is a parameter of `Detail.Row`, because Unicode case mapping is platform behaviour.
- Detail.Row: takes the first character of the name where the source takes the first UTF-16 code unit. The two differ for a name starting beyond U+FFFF, where the source shows half a surrogate pair, which a Dafny character cannot hold.
- Stored documents are assumed to hold no `id` field of their own. The source spreads the document data after the key, so such a field would replace the key in `get`, `users.get` and the day query. Nothing in the app writes one.
- CreateForm.HandleCreatePlaydate: assumes the store accepts a missing capacity. With an empty capacity text the source passes `maxParticipants: undefined`. The store client rejects undefined field values unless configured to ignore them. That configuration (src/config/firebase) is not part of this model. Without it, such a create would throw, show 'Leikkitreffiä ei voitu luoda' and leave the form as it was.
- JavaScript numbers are doubles. Counts and ages here are unbounded integers.
- Patches cannot set `id` or `updatedAt`, since the service always overwrites `updatedAt`. A field set to `undefined` is not modelled.
- Loading and refreshing flags, `Alert` buttons, effects, navigation, the map widget, the date picker, `loadUserData`, `loadPlaydate` beyond `get`, logout and locale date formatting are UI. The home screen list, buttons, inputs, theme, `auth.service.ts` and `useAuth.ts` are thin wrappers, so they are not part of this model.
- The removal dialog's cancel branch changes nothing and is not modelled.

## Findings

| source | as written | input that shows it | evidently intended | confidence | as-written member | corrected member |
|---|---|---|---|---|---|---|
| src/services/firestore.service.ts:20-26 | `users.create` writes through the document update call, which refuses a document that does not exist | any user id with no stored document: the call fails and no user record appears | create the user document (a set-with-merge write) | medium; not executed (rests on the store refusing updates of missing documents) | Service.CreateUserAsWritten | Service.CreateUser |

No handler in this model calls `users.create`. The consequence shows in `Profile.SaveProfile`:
for a newly registered user with no document, saving the profile fails.
