# A verified model of a contacts-and-calls phone app

The application is a small phone app. An Express server keeps contacts and
call logs in an in-memory store (`MemStorage`) behind a JSON API. Request
bodies are validated against schemas derived from the table definitions. A
React client shows a contacts tab, a recent-calls tab, a dialer, a contact
details dialog and an add-contact dialog.

This project models, in Dafny:

- **the store** (`Storage.MemStorage`, from `server/storage.ts`). It is a
  class with two map fields, `contacts` and `callLogs`. Every mutator states
  its whole new state. The listings are proved to be sorted permutations of
  the map's values. Search is proved to be filter-then-sort.
- **the schemas** (`Schema`, from `shared/schema.ts`). These are the record
  types and the three validators the server runs: insert contact, partial
  contact and insert call log. Each validator is specified by its acceptance
  condition on the JSON body. Each has a round trip and a proof that it drops
  unknown keys.
- **the routes** (`Routes`, from `server/routes.ts`). This covers route
  matching in registration order, ten handlers with their statuses,
  payloads and effects on the store, and a dispatcher that summarises them
  all.
- **the client helpers**, one module per component:
  - `ContactsTab`: initials, avatar colour, group filter;
  - `RecentsTab`: type filter, glyphs, row title, clear button;
  - `DialerTab`: a `Dialer` class for the dialed number, the keypad, the
    call request;
  - `ContactDetails`: the favourite toggle, the guarded navigations;
  - `AddContact`: the submission, the field-error fold, the edit and reset.

Helpers live in four modules:

- `Wrappers` holds `Option` and `Result`.
- `Text` holds ASCII case mapping, `includes`, `split` with its inverse
  `join`, and the name order.
- `Collections` holds `filter`, `Array.from(map.values())` and the existence
  of fresh identifiers.
- `Listing` holds the two sort orders, as stable insertion sorts.

Stand-ins for what the model cannot see:

- **Identifiers.** `randomUUID()` is a supply that never repeats. The store
  remembers every id it has handed out (`issued`), and a new id is any
  string outside that set.
- **Clock.** `new Date()` is the `now: nat` parameter of the two create
  operations and handlers.
- **Name order.** `localeCompare` is lexicographic order on character codes
  (`Text.Le`). It is proved reflexive, total, transitive and antisymmetric.
  The sorting proofs use only these facts.
- **Case mapping.** `toLowerCase` and `toUpperCase` map ASCII letters only.

Four behaviours of the code are easy to miss, and the model keeps them:

- **Empty names.** The insert schema accepts an empty `name` and an empty
  `phone` (`text().notNull()` becomes a plain string check). So the
  add-contact form always validates and never shows a field error
  (`AddContact.SubmitAlwaysPosts`).
- **`isFavorite` default.** Neither the schema nor the store fills in
  `isFavorite`. The `false` default belongs to the SQL table only, so a
  contact created without the flag has none (`None`).
- **"search" as an id.** Only GET has a `/api/contacts/search` route. A PUT
  or DELETE of that path reaches the item handler with the id `"search"`
  (`Routes.SearchIsAnIdForOtherVerbs`).
- **500 responses.** With this store the only reachable 500 is a search
  whose `q` arrives as a list (`?q=a&q=b`): `toLowerCase` then throws. Every
  other `catch` answers a failure the store cannot produce.

## Model

| member | source | states |
|---|---|---|
| Schema.ParseCallType | shared/schema.ts:21 | a call type is accepted exactly for the three names incoming, outgoing, missed |
| Schema.CallTypeRoundTrip | shared/schema.ts:21 | each call type's name parses back to that type |
| Schema.RequiredString | shared/schema.ts:8-9 | a notNull text column is valid iff present and a string, and yields that string; an issue points at the field |
| Schema.NullableString | shared/schema.ts:10-11 | a nullable text column is valid iff absent, null or a string, and yields the string if there is one |
| Schema.NullableBool | shared/schema.ts:12 | the favourite column is valid iff absent, null or a boolean |
| Schema.RequiredCallType | shared/schema.ts:21 | the type column is valid iff a string that names a call type |
| Schema.PartialString | shared/schema.ts:8-9 | in the partial schema a name or phone may be absent, but a present one must be a string (null refused) |
| Schema.PartialNullableString | shared/schema.ts:10-11 | in the partial schema email and avatar may be absent, null or a string, and absent is kept apart from null |
| Schema.PartialNullableBool | shared/schema.ts:12 | in the partial schema isFavorite may be absent, null or a boolean |
| Schema.ParseInsertContact | shared/schema.ts:26-29 | a body is accepted iff it is an object whose name and phone are strings, whose email and avatar are strings or null or absent, and whose isFavorite is a boolean or null or absent; the result holds exactly those values; a refusal lists at least one issue, each on the body or on a schema key |
| Schema.ParseContactPatch | shared/schema.ts:26-29 | the partial schema accepts iff every present field obeys its column; the patch supplies a field exactly when the body has its key |
| Schema.ParseInsertCallLog | shared/schema.ts:31-34 | a body is accepted iff phoneNumber is a string, type a call-type name, and contactId, contactName, duration strings or null or absent; the result holds exactly those values |
| Schema.EncodeInsertContact | client/src/components/add-contact-dialog.tsx:31 | the JSON body of a contact insert holds name and phone, each optional field exactly when it is set, and no key outside the schema |
| Schema.EncodeContactPatch | client/src/components/contact-details-dialog.tsx:47 | the JSON body of a patch holds a key exactly for each supplied field, and no key outside the schema |
| Schema.EncodeInsertCallLog | client/src/components/dialer-tab.tsx:31 | the JSON body of a call-log insert holds number and type, each optional field exactly when it is set, and no key outside the schema |
| Schema.InsertContactRoundTrip | shared/schema.ts:26-29 | every contact insert, sent as JSON, is accepted as exactly itself |
| Schema.EncodedPatchName | shared/schema.ts:8 | in an encoded patch the name check sees exactly the patch's name |
| Schema.EncodedPatchPhone | shared/schema.ts:9 | in an encoded patch the phone check sees exactly the patch's phone |
| Schema.EncodedPatchEmail | shared/schema.ts:10 | in an encoded patch the email check sees exactly the patch's email, null included |
| Schema.EncodedPatchAvatar | shared/schema.ts:11 | in an encoded patch the avatar check sees exactly the patch's avatar, null included |
| Schema.EncodedPatchFavorite | shared/schema.ts:12 | in an encoded patch the isFavorite check sees exactly the patch's flag, null included |
| Schema.ContactPatchRoundTrip | shared/schema.ts:26-29 | every patch, sent as JSON, is accepted as exactly itself |
| Schema.InsertCallLogRoundTrip | shared/schema.ts:31-34 | every call-log insert, sent as JSON, is accepted as exactly itself |
| Schema.InsertContactIgnoresOtherKeys | shared/schema.ts:26-29 | a key outside the contact schema (id and createdAt among them) does not change the outcome of validating an insert |
| Schema.ContactPatchIgnoresOtherKeys | shared/schema.ts:26-29 | a key outside the contact schema does not change the outcome of validating a patch |
| Schema.InsertCallLogIgnoresOtherKeys | shared/schema.ts:31-34 | a key outside the call-log schema (id and timestamp among them) does not change the outcome |
| Schema.UnknownCallTypeRefused | shared/schema.ts:21 | a type string outside the enum is refused with an issue on type |
| Text.Lower | server/storage.ts:68 | toLowerCase keeps the length and lowers each character |
| Text.Upper | client/src/components/contacts-tab.tsx:27 | toUpperCase keeps the length and raises each character |
| Text.Contains | server/storage.ts:71-73 | includes is true exactly when the needle occurs at some index; the empty needle occurs everywhere |
| Text.Split | client/src/components/contacts-tab.tsx:24 | split never returns an empty list, no piece holds the separator, and the pieces join back to the input |
| Text.SplitJoin | client/src/components/contacts-tab.tsx:24 | splitting undoes joining separator-free words, so split and join are inverse |
| Text.LeTotal | server/storage.ts:32 | the name order is total |
| Text.LeTransitive | server/storage.ts:32 | the name order is transitive |
| Text.LeAntisymmetric | server/storage.ts:32 | the code-point order that stands in for localeCompare is antisymmetric; localeCompare itself is not, since canonically equivalent spellings compare 0 |
| Text.LeReflexive | server/storage.ts:32 | the code-point order that stands in for localeCompare is reflexive |
| Collections.Filter | server/storage.ts:70-74 | filter keeps each element that passes as often as it occurs, and nothing else |
| Collections.FilterPreservesOrder | server/storage.ts:70-74 | filter keeps the relative order of what it keeps |
| Collections.FilterAll | client/src/components/contacts-tab.tsx:41-45 | a filter that keeps everything returns its input unchanged |
| Collections.ValuesOf | server/storage.ts:31 | the values of a map whose values are distinct come out each once |
| Collections.FreshExists | server/storage.ts:41 | however many ids were handed out, an unused non-empty one exists |
| Listing.InsertByName | server/storage.ts:31-33 | inserting into a name-sorted list keeps it sorted and adds exactly that contact |
| Listing.SortByName | server/storage.ts:31-33 | sorting by name gives a sorted permutation of the input |
| Listing.InsertNewestFirst | server/storage.ts:80-82 | inserting into a newest-first list keeps it newest first and adds exactly that log |
| Listing.SortNewestFirst | server/storage.ts:80-82 | sorting by timestamp gives a newest-first permutation of the input |
| Listing.NewerListedFirst | server/storage.ts:80-82 | of two logs at different times the later is listed first, whatever the input order |
| Storage.NewContact | server/storage.ts:42-46 | the stored contact carries the insert's fields, the given id and the clock reading |
| Storage.NewCallLog | server/storage.ts:87-91 | the stored log carries the insert's fields, the given id and the clock reading |
| Storage.Merge | server/storage.ts:55-58 | each field the patch supplies replaces the stored one, every other field is kept, and id and createdAt never change |
| Storage.Matches | server/storage.ts:68-74 | a contact matches iff its lowered name contains the lowered query, or its phone contains the query as typed, or it has a non-empty (truthy) email whose lowered form contains the lowered query |
| Storage.EmptyEmailIsNoEmail | server/storage.ts:73 | an empty email is falsy and matches exactly as a missing email does |
| Storage.MergeChangesOnlySupplied | server/storage.ts:55-58 | an update keeps id and createdAt, leaves every field the patch does not name, and the empty patch changes nothing |
| Storage.MergeComposes | server/storage.ts:55-58 | two updates in a row equal one update with the later patch winning, and repeating an update changes nothing more |
| Storage.EverythingMatchesEmpty | server/storage.ts:71 | every contact matches the empty query |
| Storage.MemStorage.constructor | server/storage.ts:24-27 | a new store has no contacts and no call logs |
| Storage.MemStorage.FreshId | server/storage.ts:41 | the new id is non-empty, is not "search" (which no UUID is, so GET of /api/contacts/:id can reach it), and was never handed out before, and it is now recorded as handed out |
| Storage.MemStorage.GetContacts | server/storage.ts:30-34 | the listing is sorted by name and is a permutation of the stored contacts |
| Storage.MemStorage.GetContact | server/storage.ts:36-38 | there is a result iff the id is stored; the result is the stored contact, whose id is the one asked for |
| Storage.MemStorage.CreateContact | server/storage.ts:40-49 | the contact is the insert with a fresh non-empty id other than "search" and the clock reading; the map gains exactly that one key; call logs are untouched |
| Storage.MemStorage.UpdateContact | server/storage.ts:51-61 | an absent id gives no result and no change; a present id stores the merge under the same key; nothing else changes |
| Storage.MemStorage.DeleteContact | server/storage.ts:63-65 | the result is true iff the id was stored; afterwards it is absent and every other contact is as before |
| Storage.MemStorage.SearchContacts | server/storage.ts:67-76 | the result is sorted by name and is a permutation of exactly the stored contacts that match (name or email containing the lowered query, or phone containing the raw query) |
| Storage.MemStorage.GetCallLogs | server/storage.ts:79-83 | the listing is newest first and is a permutation of the stored call logs |
| Storage.MemStorage.CreateCallLog | server/storage.ts:85-94 | the log is the insert with a fresh non-empty id and the clock reading; the map gains exactly that key; contacts are untouched |
| Storage.MemStorage.DeleteCallLog | server/storage.ts:96-98 | the result is true iff the id was stored; afterwards it is absent and every other log is as before |
| Storage.MemStorage.ClearCallLogs | server/storage.ts:100-103 | always true; no call log is left and contacts are untouched |
| Routes.Route | server/routes.ts:9-119 | routes are tried in registration order; GET of the search path always reaches search, so GET never sees "search" as an id; no route matches exactly off the registered verb and path pairs |
| Routes.SearchIsAnIdForOtherVerbs | server/routes.ts:56-72 | PUT and DELETE of the search path reach the item handlers with id "search" |
| Routes.HandleListContacts | server/routes.ts:9-16 | 200 with the contacts sorted by name, a permutation of the store |
| Routes.HandleSearch | server/routes.ts:18-29 | an absent or empty q gives 400 without asking the store; a list-valued q gives 500 with a fixed message; otherwise 200 with the sorted matches |
| Routes.HandleGetContact | server/routes.ts:31-41 | 404 iff the id is not stored, otherwise 200 with the stored contact |
| Routes.HandleCreateContact | server/routes.ts:43-54 | an invalid body gives 400 with the issues and an unchanged store; a valid one gives 201 with the created contact, stored under a fresh non-empty id other than "search" that is now recorded as issued; call logs untouched |
| Routes.HandleUpdateContact | server/routes.ts:56-70 | an invalid body gives 400 and no change; an absent id gives 404 and no change; otherwise 200 with the merged contact, stored under the same key; call logs and issued ids untouched |
| Routes.HandleDeleteContact | server/routes.ts:72-82 | 404 and no change for an absent id; otherwise 204 with no body and the contact removed; call logs and issued ids untouched |
| Routes.HandleListCallLogs | server/routes.ts:85-92 | 200 with the call logs newest first, a permutation of the store |
| Routes.HandleCreateCallLog | server/routes.ts:94-105 | an invalid body gives 400 with the issues and an unchanged store; a valid one gives 201 with the created log, stored under a fresh non-empty id that is now recorded as issued; contacts untouched |
| Routes.HandleDeleteCallLog | server/routes.ts:107-117 | 404 and no change for an absent id; otherwise 204 with no body and the log removed; contacts and issued ids untouched |
| Routes.HandleClearCallLogs | server/routes.ts:119-126 | 204 with no body; no call log is left; contacts and issued ids are untouched |
| Routes.Handle | server/routes.ts:7-130 | a response exists iff a route matches; the status is one of 200, 201, 204, 400, 404, 500; 400, 404 and 500 leave the store unchanged; 500 only for a search with a list-valued q; 201 only from the two creates; 204 carries no body; a GET changes nothing; for each endpoint the response and the new store are exactly what that endpoint's handler promises |
| Routes.CreateThenGet | server/routes.ts:31-54 | a contact created by POST /api/contacts is routed to and returned by GET /api/contacts/:id under the id it was given |
| ContactsTab.Take2 | client/src/components/contacts-tab.tsx:28 | slice(0, 2) gives the prefix of length two, or the whole string when it is shorter |
| ContactsTab.FirstChars | client/src/components/contacts-tab.tsx:25-26 | at most one character per word; when no word is empty, exactly the first character of each word, in order |
| ContactsTab.Initials | client/src/components/contacts-tab.tsx:22-29 | the initials have at most two characters |
| ContactsTab.FirstCharsAreWordStarts | client/src/components/contacts-tab.tsx:23-26 | the first characters of the split words are exactly the characters that start a word; empty words add nothing |
| ContactsTab.InitialsAreWordStarts | client/src/components/contacts-tab.tsx:22-29 | the initials are the first two word-starting characters, upper-cased |
| ContactsTab.BgColor | client/src/components/contacts-tab.tsx:31-35 | no colour (undefined) iff the name is empty; otherwise a palette entry picked by the first character's code modulo three |
| ContactsTab.SameFirstCharSameColor | client/src/components/contacts-tab.tsx:33 | the colour depends only on the first character |
| ContactsTab.FilterContacts | client/src/components/contacts-tab.tsx:41-45 | the order is kept; all and recent return the list unchanged; favorites keeps exactly the contacts whose flag is true, each as often as before |
| RecentsTab.FilterLogs | client/src/components/recents-tab.tsx:75-78 | the order is kept; all returns the list unchanged; a type keeps exactly the logs of that type |
| RecentsTab.TypeFiltersPartition | client/src/components/recents-tab.tsx:75-78 | the three type filters together account for every log exactly once |
| RecentsTab.Direction | client/src/components/recents-tab.tsx:58-69 | the down arrow iff incoming or missed, the up arrow iff outgoing, nothing iff any other string |
| RecentsTab.StatusDot | client/src/components/recents-tab.tsx:71-73 | the destructive colour iff the type is missed |
| RecentsTab.CallIcon | client/src/components/recents-tab.tsx:45-56 | incoming, outgoing and missed get the PhoneIncoming, PhoneOutgoing and PhoneMissed glyphs; the generic glyph iff the type is not one of the three; the destructive colour iff missed |
| RecentsTab.StoredTypesAreDrawn | client/src/components/recents-tab.tsx:45-73 | every storable type gets an arrow and a non-generic glyph that no other type shares, and dot and icon agree on missed calls |
| RecentsTab.DisplayName | client/src/components/recents-tab.tsx:179 | the contact name when there is a non-empty one, otherwise the phone number |
| RecentsTab.ClearDisabled | client/src/components/recents-tab.tsx:95 | disabled while a clear is pending, and otherwise exactly when the list is empty |
| DialerTab.KeypadLabels | client/src/components/dialer-tab.tsx:9-22 | twelve keys, each labelled with one character, no label twice |
| DialerTab.DropLast | client/src/components/dialer-tab.tsx:48 | slice(0, -1) removes the last character and leaves the empty string as it is |
| DialerTab.PressThenBackspace | client/src/components/dialer-tab.tsx:38-49 | a key press followed by a backspace restores the number |
| DialerTab.BackspaceEnabled | client/src/components/dialer-tab.tsx:148 | the backspace button is enabled exactly when pressing it would change the number |
| DialerTab.CallRequest | client/src/components/dialer-tab.tsx:51-66 | no request iff the number is empty; otherwise a body the server accepts as an outgoing call to that number with nothing else set |
| DialerTab.Dialer.constructor | client/src/components/dialer-tab.tsx:25 | the number starts empty |
| DialerTab.Dialer.Press | client/src/components/dialer-tab.tsx:38-45 | the key's label is appended to the number |
| DialerTab.Dialer.Backspace | client/src/components/dialer-tab.tsx:47-49 | the number loses its last character, if it has one |
| DialerTab.Dialer.Call | client/src/components/dialer-tab.tsx:51-74 | no request iff the number is empty; otherwise one the server accepts as an outgoing call to it |
| ContactDetails.ToggleFavorite | client/src/components/contact-details-dialog.tsx:78-85 | nothing without a contact; otherwise a PUT to its id whose body validates to a patch naming only isFavorite, set to the negated flag |
| ContactDetails.ToggleChangesOnlyFavorite | client/src/components/contact-details-dialog.tsx:45-48 | applied by the store, the toggle flips the favourite flag and changes nothing else |
| ContactDetails.ToggleTwice | client/src/components/contact-details-dialog.tsx:78-85 | two toggles restore whether the contact is a favourite |
| ContactDetails.DeleteTarget | client/src/components/contact-details-dialog.tsx:72-76 | a delete only when there is a contact, and then of its id |
| ContactDetails.PhoneLink | client/src/components/contact-details-dialog.tsx:54-64 | a tel: (call) or sms: (message) navigation to the phone only when there is a contact |
| ContactDetails.EmailTarget | client/src/components/contact-details-dialog.tsx:66-70 | a mailto: navigation iff there is a contact with a non-empty email |
| AddContact.SubmissionBody | client/src/components/add-contact-dialog.tsx:56-59 | the body holds name and phone, and email only when one was typed |
| AddContact.SubmissionAlwaysValid | client/src/components/add-contact-dialog.tsx:56-59 | whatever is typed, the body passes the insert schema, with the email absent when empty |
| AddContact.FieldOf | client/src/components/add-contact-dialog.tsx:66 | an issue names a field iff its path starts with a non-empty element |
| AddContact.CollectStep | client/src/components/add-contact-dialog.tsx:65-69 | one more issue is recorded under its field, replacing any earlier message, or dropped when it names none |
| AddContact.CollectFieldErrors | client/src/components/add-contact-dialog.tsx:64-70 | one entry per field some issue names, holding the message of the last issue for that field; issues without a field are dropped |
| AddContact.Submit | client/src/components/add-contact-dialog.tsx:52-73 | it posts iff validation passes, and then the validated insert with the error map cleared; otherwise it shows the collected field errors |
| AddContact.SubmitAlwaysPosts | client/src/components/add-contact-dialog.tsx:52-61 | every submission is posted, and the server accepts it as the typed contact |
| AddContact.SetField | client/src/components/add-contact-dialog.tsx:76 | the spread sets the named field to the value and keeps the others |
| AddContact.Change | client/src/components/add-contact-dialog.tsx:75-80 | only the edited field changes; its message is blanked if one was showing; the error map keeps its keys and every other entry |
| AddContact.AfterCreated | client/src/components/add-contact-dialog.tsx:40-41 | after a contact is created the form is empty and there are no errors |

## Left out

- Express itself is not modelled: the server, middleware and JSON body parsing. A request is its verb, its path segments, its `q` parameter and a parsed body. Express's case-insensitive and trailing-slash-tolerant path matching is also left out: paths are given in their canonical segments.
- Routes.HandleSearch: `q` given as a nested object (`?q[a]=b`) fails like a list and is not a separate case. The model's `QueryParam` has only absent, one string and a list.
- The 500 branches for list, get, create, update, delete and clear are not modelled. Each answers an exception that `MemStorage` cannot raise.
- Zod is not modelled past what the three validators accept. Issue messages follow zod's wording closely but not exactly. A number, array or object in a field is reported only by its type name.
- A JSON body is flat: nested values are only "array" or "object". A Number or Bool is never coerced.
- Storage.MemStorage.GetContacts: the order of contacts with equal names is not stated. JavaScript's sort is stable, so that order comes from the map's insertion order, which a Dafny map does not have. The same holds for SearchContacts and, for equal timestamps, GetCallLogs.
- Text.Le: `localeCompare` collation is left out. Code-point order stands in for it. The sorting proofs use only its totality and transitivity. Its antisymmetry and reflexivity are facts about the stand-in, not about `localeCompare`, under which canonically equivalent spellings such as a precomposed é and e followed by U+0301 compare equal.
- Text.Lower and Text.Upper: Unicode case mapping beyond ASCII is left out, so are UTF-16 code units (`word[0]`, `charCodeAt` and `slice` count them).
- ContactsTab.BgColor: for a character above U+FFFF, `charCodeAt(0)` gives a surrogate code unit. The model uses the whole code point.
- `randomUUID` and `new Date()` are left out. They become the `issued` id supply and the `now` parameter. The format of a UUID and of a date are not modelled.
- Schema.NullableString and Schema.NullableBool: in a stored contact or call log, a `null` email, avatar, isFavorite, contactId, contactName or duration and a missing one both become `None`. The source keeps `"email": null` apart from a missing key in the JSON it sends back. Every use in the core is a truthiness test, so no behaviour modelled here differs. Patches keep the two apart.
- The foreign key from call logs to contacts is declared but not enforced by the store. The model stores any `contactId` as given and states no link.
- The client's rendering, toasts, react-query mutations, cache invalidation and hooks are not modelled. The same goes for `window.location` and `navigator.vibrate`. Navigations appear only as the URL a button would open.
- The relative-time text (`date-fns`), the empty-list messages and the loading states are not modelled.
- The home page's tab switching is presentation only.
- The initials and colour helpers of the contact details dialog are the same text as those of the contacts tab. `ContactsTab.Initials` and `ContactsTab.BgColor` model both copies.
