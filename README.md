# Neighbour Node dashboard: a Dafny model

This project models the `Dashboard` component of the Neighbour Node web client
(`frontend/src/App.js`). The dashboard is a session record: coordinates,
nearby listings, nearby urgent needs, per-listing reaction counts, matching
candidates per urgent need, the respond modal, the chatbot query and answer,
and the two creation forms. A fixed set of handlers changes that record. Here
it is the class `App.Dashboard`, with one method per handler. Each backend
call is an input to the method: a `Reply` that is either `Ok(value)` or
`Failed`. Each method returns the requests it sent, in order.

Modules:

- `Outcomes`: `Option` (for `null`/`undefined`) and `Reply`.
- `Reactions`: the four-bucket counter. `CountsOf` folds the events as the
  `forEach` does. `CountReactions` is that loop, proved against `CountsOf`.
  The lemmas relate `CountsOf` to an independent definition: the
  multiplicity of each type in the events' types.
- `AsWritten`: the counting guard as JavaScript actually evaluates it (see
  Findings).
- `Entities`: listings, urgent needs, forms, located payloads, the requests
  sent, and the chatbot answer.
- `Location`: the geolocation fallback.
- `Chatbot`: `String.prototype.trim` and the send guard.
- `Sync`: the specification of one refresh. `ReactionsFrom` is the map the
  loop builds, `RefreshRequests` is what the loop sends, and `Refreshed` is
  the nearby data afterwards.
- `Views`: the values the render derives from the state: the counts shown,
  the status buttons, and the respond modal.
- `App`: the `Dashboard` class. Its invariant `Valid()` says two things. The
  reaction map's keys are exactly the ids of the listings shown. An open
  modal names an urgent need whose candidates have been fetched.
- `Scenarios`: client code that drives the class using only the contracts.
  It covers a refresh at (10, 20) where listing A has events like, like,
  helpful and listing B's fetch fails (A shows 2, 1, 0, 0 and B all zeros).
  It covers a refresh whose urgent query fails and keeps what was shown. The
  matching workflow goes through a failed fetch, an empty and then a
  non-empty candidate list, and a failed and then a successful response.
  Creating a listing keeps every form field but title and description.

Behaviour of the code worth noting:

- A refresh issues the per-listing reaction fetches one after another. It has
  no sequence token, so nothing supersedes an older refresh.
- Closing the respond modal only sets `showRespondModal` to null. The stored
  candidates stay in `matchingListings`.
- A successful matching fetch adds or overwrites one entry of
  `matchingListings`. The other entries are kept.
- A failed POST when creating a listing or an urgent need is not caught. The
  handler stops: the form is unchanged and no refresh runs.

## Model

| member | source | states |
|---|---|---|
| `Reactions.CountReactions` | frontend/src/App.js:134-140 | The loop's counter equals `CountsOf(events)`. Each of the four buckets equals the number of events of that type. |
| `Reactions.BumpBuckets` | frontend/src/App.js:136-138 | One step adds one to the bucket named by the event's type and nothing to any other bucket. An unknown type changes nothing. |
| `Reactions.CountsOfTallies` | frontend/src/App.js:134-139 | For each known type, its count equals that type's multiplicity among the events' types. |
| `Reactions.EmptyCountsAreZero` | frontend/src/App.js:134 | An empty event list gives all four buckets zero. |
| `Reactions.CountsIgnoreOrder` | frontend/src/App.js:135-139 | Two event lists with the same multiset of types have the same counts, so order does not matter. |
| `Reactions.CountsOfAppend` | frontend/src/App.js:135-139 | Counting a concatenation gives the bucket-wise sum of the two counts. |
| `Reactions.UnknownTypesIgnored` | frontend/src/App.js:136-138 | Dropping every event of an unknown type leaves the counts unchanged. |
| `Reactions.TotalCountsKnownEvents` | frontend/src/App.js:135-139 | The four buckets sum to the number of events of a known type, which is at most the number of events. |
| `AsWritten.InheritedNameAddsKey` | frontend/src/App.js:136-137 | As written, one event of type "toString" gives the counter a fifth key, holding NaN. |
| `AsWritten.TallyAgreesWithoutInheritedNames` | frontend/src/App.js:134-139 | As written, if no event's type is an inherited `Object.prototype` name, the counter object is exactly the four buckets of `CountsOf`. |
| `Location.ResolveCoords` | frontend/src/App.js:105-116 | The device position is used when the device reports one. Otherwise the coordinates are `{lat: 0, lng: 0}`. |
| `Chatbot.TrimEmptyIff` | frontend/src/App.js:193 | `trim()` of a query is empty exactly when every character is ECMAScript white space. |
| `Chatbot.WillQuery` | frontend/src/App.js:193 | A query is sent exactly when coordinates are known and the query has a non-white-space character. |
| `Sync.ReactionRequests` | frontend/src/App.js:131-133 | One reaction fetch is sent per returned listing, in listing order. |
| `Sync.ReactionsFromKeys` | frontend/src/App.js:130-145 | The rebuilt reaction map has exactly the returned listings' ids as its keys. |
| `Sync.ReactionsFromAt` | frontend/src/App.js:131-143 | A listing's entry is decided by its own (last) fetch alone: the aggregated events on success, zeros on failure. |
| `Sync.ReactionsFromDistinct` | frontend/src/App.js:131-144 | With distinct ids, every listing whose fetch succeeded gets its events' counts. Every listing whose fetch failed gets zeros. |
| `Sync.RefreshKeepsPriorOnFailure` | frontend/src/App.js:119-148 | Without coordinates, or when a range query fails, listings, urgent needs and reactions stay as they were. Once there are coordinates, both queries are sent and no reaction fetch. |
| `Sync.RefreshReplacesOnSuccess` | frontend/src/App.js:126-145 | When both queries succeed, their results are installed. The reaction map does not depend on the prior state and covers the new listings. |
| `Sync.RefreshKeepsCover` | frontend/src/App.js:119-149 | Every refresh preserves "the reaction map's keys are the listings' ids". |
| `Views.DisplayedCounts` | frontend/src/App.js:334 | A listing shows its map entry, or all zeros when it has none. |
| `Views.StatusActions` | frontend/src/App.js:356-365 | The status buttons exist exactly when the status is "active". They request only "reserved" and "completed". |
| `Views.OfferedHistoryShape` | frontend/src/App.js:356-365 | A status history that starts at "active", where every step is a button the previous status offers, has at most one step, to "reserved" or "completed". The status reached offers no button. |
| `Views.ShownCountsAfterRefresh` | frontend/src/App.js:131-145 | After a refresh whose range queries succeed, each listing (its last occurrence) shows the counts of its own fetch: aggregated on success, zeros on failure, whatever the other fetches returned. |
| `Views.CoveredListingShowsEntry` | frontend/src/App.js:334 | When the reaction map covers the listings, every listing shown displays its own map entry, not the zero fallback. |
| `Views.RespondModalView` | frontend/src/App.js:419-443 | The modal shows exactly when the modal id is set and non-empty and has a stored list. An empty stored list gives the "no matching listings" state. A non-empty one gives its candidates. |
| `App.LoadReactions` | frontend/src/App.js:130-145 | The loop builds, from an empty object, exactly `ReactionsFrom` of the listings and sends `ReactionRequests` of them. |
| `App.Dashboard.constructor` | frontend/src/App.js:81-102 | The initial state: no coordinates, empty collections, modal closed, default forms. |
| `App.Dashboard.RefreshData` | frontend/src/App.js:119-149 | The new nearby data is `Refreshed(c, replies, old data)`. The requests are `RefreshRequests`. Nothing else changes, and `Valid()` is kept. |
| `App.Dashboard.Mount` | frontend/src/App.js:104-117 | The coordinates become `ResolveCoords(position)`, then a refresh runs with them. |
| `App.Dashboard.CreateListing` | frontend/src/App.js:151-158 | Without coordinates nothing is sent and nothing changes. The payload is the prior form plus the coordinates. A failed post changes nothing. A successful one clears only title and description, then refreshes. |
| `App.Dashboard.CreateUrgent` | frontend/src/App.js:160-167 | The same as creating a listing, with the urgent form. The radius is kept after a successful post. |
| `App.Dashboard.React` | frontend/src/App.js:173-180 | The reaction is posted. A refresh follows only on success. A failure changes nothing. |
| `App.Dashboard.UpdateStatus` | frontend/src/App.js:182-189 | The new status is sent without checking the current one. A refresh follows only on success. A failure changes nothing. |
| `App.Dashboard.TypeChatbotQuery` | frontend/src/App.js:247 | Only the query text changes. |
| `App.Dashboard.EditListingForm` | frontend/src/App.js:293-326 | Only the listing form changes. |
| `App.Dashboard.EditUrgentForm` | frontend/src/App.js:377-397 | Only the urgent form changes. |
| `App.Dashboard.SubmitChatbotQuery` | frontend/src/App.js:191-204 | A blank query or missing coordinates sends nothing. Otherwise the untrimmed query is sent with the coordinates, and only a successful answer replaces the shown one. |
| `App.Dashboard.GetMatchingListings` | frontend/src/App.js:206-215 | On success the reply is stored under this urgent id, every other id keeps its entry, and the modal opens for it. An empty list is the distinct "no candidates" state. On failure nothing changes and an alert is raised. |
| `App.Dashboard.RespondWithListing` | frontend/src/App.js:217-226 | Success closes the modal and confirms. Failure raises an alert and keeps the modal and its candidates, so the user can retry. |
| `App.Dashboard.CloseRespondModal` | frontend/src/App.js:444 | The modal closes (the button here, the overlay click on line 420). `matchingListings` is unchanged. |

## Left out

- Login, registration and routing (`AuthGate`, `LoginPage`, `App`, logout): these are calls into the Firebase authentication SDK and the router.
- `backend/firebase_client.py` is not part of this model: it sets up credentials and verifies tokens through the Firebase Admin SDK.
- The HTTP layer and `navigator.geolocation`: their outcomes are `Reply`/`Option` inputs. The URL text is not built. Each endpoint is one `Request` constructor, and the radius and coordinates are its fields.
- Floating point: coordinates and the radius are `real` values that are only stored and passed on.
- Asynchrony: each handler is one atomic step. The source sets listings and urgent needs before the reaction loop ends. The interim render, with new listings and the previous reaction map, is not modelled. Neither are stale closures when handlers overlap.
- The backend's reply to the i-th reaction fetch of a refresh is a function of i. A reply that is not an array counts as a failed fetch.
- Rendering other than the counts shown, the status buttons and the respond modal. This includes the chatbot panel's lists and the toggle of `showChatbot`.
- JavaScript object-key corner cases for listing and urgent ids, such as an id equal to an inherited property name. Ids are plain map keys.
- The client does not enforce the status history of `Views.OfferedHistoryShape`. `UpdateStatus` changes nothing locally, so after "Mark as Reserved" the listing still shows "active" and both buttons until a refresh arrives. A second press then sends "completed". The backend decides which transitions are valid.
- Browser form validation: `required` on the titles and descriptions and the radius's min, max and step. It can block the submit before either create handler runs. `CreateListing` and `CreateUrgent` accept any form.
- The `console.error` logging in the `catch` blocks. It has no effect on the state.
- The `onChange` handlers each set one field. `EditListingForm` and `EditUrgentForm` accept any whole form, which covers any sequence of such edits.

## Findings

| source | as written | input that shows it | evidently intended | confidence | as-written member | corrected member |
|---|---|---|---|---|---|---|
| frontend/src/App.js:136-137 | The guard `counts[r.reaction_type] !== undefined` also passes for names inherited from `Object.prototype`. `counts[...]++` then adds an own property holding NaN. | A listing whose reactions contain one event with `reaction_type` "toString". | Unknown types are ignored and the counter has exactly the four buckets. | not executed; nothing shown changes, because the render reads only the four buckets | `AsWritten.InheritedNameAddsKey` | `Reactions.CountReactions` |
