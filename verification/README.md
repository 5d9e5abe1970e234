# TrackApp core, modelled in Dafny

TrackApp manages music tracks (title, artist, duration in seconds, optional ISRC code)
through a small CRUD API. This project models the logic on both sides of it:

- **Server service** (`TrackService`, class `Service`): `populateTrack` merges the keys of a
  decoded request body that are set (`isset`) onto a Track entity, casts `duration` with
  PHP's `(int)`, stores a falsy `isrc` as null; `createTrack`/`updateTrack` validate the whole
  entity, collect the violation messages in a loop and throw them joined by `", "`, or
  persist/flush and return the same entity. The validator is an abstract function from a
  track to its violations; the entity manager is a store of committed rows plus a log of
  persist and flush events. The PHP semantics this relies on (`isset`, truthiness, the
  `(int)` cast of strings, int-to-string coercion, `implode`) are in module `Php`.
- **Server controller** (`TrackController`): `index`, `create` and `update` as pure decision
  functions from the repository lookup, the decoded body and the service result to a status
  and JSON body, recording which payload (if any) was handed to the service.
- **Client cache** (`TrackApi`, class `TrackCache`): the `tracks`/`loading`/`error` refs of
  `useTrackApi` and the five operations on them. Each HTTP call is one atomic step whose
  reply (`Ok(data)` or `Err(server error field, transport message)`) is an input.
- **Notification centre** (`Notifications`, class `NotificationCenter`): the `error`,
  `success` and `autoHideTimeout` refs. The browser's timer queue is the `pending` map
  (handle to delay) so that "at most one auto-hide timer is waiting, and it is the one the
  ref holds" is an invariant (`Valid`) kept by every method; a timer going off is the step
  `Fire`.
- **Modal** (`Modal`, class `TrackModal`): `showModal`, `editingTrack`, `formLoading`,
  `formError`, the computed `isEditing`, `modalTitle` and `canCloseModal`, and the
  open/close/reset/submit transitions; the submit handler's outcome is an input.

Behaviour of the code worth knowing:

- `POST` with `{}`: `json_decode` gives an empty array, which is falsy, so the answer is 400
  "Invalid JSON data" and no validation message is produced (`TrackController.EmptyObjectIsInvalidJson`).
- A rejected update leaves the committed rows and the flush log unchanged, but the entity
  object passed in stays merged in memory (`TrackService.Service.UpdateTrack`).
- `showSuccess` with a delay of 0 or less does not touch a timer that is already waiting; that
  timer later clears the new message too (`Notifications.DisabledAutoHideKeepsEarlierTimer`).
- When a timer goes off, the ref keeps the spent handle until the next cancellation.
- `implode` loses message boundaries when a message itself contains ", "
  (`Php.ImplodeIsNotInjective`); without such messages the list is recoverable
  (`Php.ExplodeImplode`).

## Model

| member | source | states |
|---|---|---|
| `Php.CastReadsLeadingNumber` | backend/src/Service/TrackService.php:69-70 | `(int)` of PHP's decimal text of any integer, followed by text not starting with a digit, is that integer ("12abc" gives 12) |
| `Php.CastOfDecimalString` | backend/src/Service/TrackService.php:69-70 | the `(int)` cast of the decimal string of `n` is `n` |
| `Php.ExplodeImplode` | backend/src/Service/TrackService.php:31 | splitting the joined message on ", " gives back the message list when no message contains ", " |
| `Php.ImplodeIsNotInjective` | backend/src/Service/TrackService.php:31 | `["a, b"]` and `["a", "b"]` join to the same exception message |
| `TrackService.Merge` | backend/src/Service/TrackService.php:59-76 | the id never changes; a field not set in the body keeps its value; a set title/artist becomes the body's value as a string; duration becomes the `(int)` cast; isrc becomes null exactly when the value is falsy, and a truthy isrc string is stored unchanged |
| `TrackService.IsrcOf` | backend/src/Service/TrackService.php:73-74 | a present isrc is stored as null exactly when it is falsy ("", "0", 0); any other value is stored as its string, a string unchanged |
| `TrackService.NullFieldsAreIgnored` | backend/src/Service/TrackService.php:61-73 | `isset` is false for null, so a key sent as null merges like a key left out |
| `Php.IsSet` | backend/src/Service/TrackService.php:61-73 | `isset($data[k])`: the key is present and its value is not null; `Merge` and `NullFieldsAreIgnored` state its effect |
| `Php.Falsy` | backend/src/Service/TrackService.php:74 | the falsy scalars are exactly null, 0, "" and "0" |
| `Php.StringToInt` | backend/src/Service/TrackService.php:70 | a digit string casts to the number it writes; a negative result needs a leading "-"; text that does not start with a sign or digit (after whitespace) casts to 0 |
| `Php.IntCast` | backend/src/Service/TrackService.php:70 | an integer casts to itself; every falsy value casts to 0; a digit string casts to the number it writes |
| `Php.Implode` | backend/src/Service/TrackService.php:31 | no messages give ""; the first message leads the text, followed by ", " when more messages come |
| `TrackService.MergeIgnoresUnknownKeys` | backend/src/Service/TrackService.php:59-76 | keys other than title, artist, duration, isrc have no effect on the track |
| `TrackService.MergeIdempotent` | backend/src/Service/TrackService.php:59-76 | merging the same body twice equals merging it once |
| `TrackService.MergeTwice` | backend/src/Service/TrackService.php:59-76 | two partial updates equal one update with the later non-null values laid over the earlier |
| `TrackService.DurationFromInteger` | backend/src/Service/TrackService.php:69-70 | a duration sent as a JSON number `n` is stored as `n` |
| `TrackService.DurationFromDecimalString` | backend/src/Service/TrackService.php:69-70 | a duration given as the decimal text of `n` is stored as the integer `n` |
| `TrackService.EmptyIsrcBecomesNull` | backend/src/Service/TrackService.php:59-76 | a new track from {title, artist, duration: 200, isrc: ""} has those values and a null isrc |
| `TrackService.DurationStringUpdate` | backend/src/Service/TrackService.php:69-70 | updating with {duration: "180"} sets duration 180 and changes nothing else |
| `TrackService.CollectMessages` | backend/src/Service/TrackService.php:27-30 | the loop collects every violation's message, in validator order |
| `TrackService.TrackEntity.constructor` | backend/src/Service/TrackService.php:21 | a new entity has every field null |
| `TrackService.EntityManager.Persist` | backend/src/Service/TrackService.php:34 | persisting only records the event; committed rows are untouched |
| `TrackService.EntityManager.Flush` | backend/src/Service/TrackService.php:35 | a new entity gets the next id and is inserted; a stored entity overwrites its own row; one flush event is logged |
| `TrackService.Service.PopulateTrack` | backend/src/Service/TrackService.php:59-76 | the entity's fields after the setters are the merge of its old fields with the body |
| `TrackService.Service.CreateTrack` | backend/src/Service/TrackService.php:19-38 | with violations: the joined messages are thrown and the manager is not touched; otherwise persist then one flush, and the same entity, with its new id, is returned; the new id is one no stored row had, and the next id moves on by one, so a create never overwrites a stored track |
| `TrackService.Service.UpdateTrack` | backend/src/Service/TrackService.php:40-57 | the entity is merged first; with violations of the merged entity: the joined messages are thrown, no flush, rows unchanged; otherwise one flush writes the entity's row and the same entity is returned |
| `TrackController.Index` | backend/src/Controller/TrackController.php:35-41 | 200 with exactly the repository's list |
| `TrackController.Respond` | backend/src/Controller/TrackController.php:52-57 | a stored track gives the success status with the track; an InvalidArgumentException gives 400 with its message |
| `TrackController.Create` | backend/src/Controller/TrackController.php:43-58 | a falsy body gives 400 "Invalid JSON data" and the service is not called; otherwise the body goes to the service, 201 exactly when it stores, else 400 with its message |
| `TrackController.Update` | backend/src/Controller/TrackController.php:60-81 | an unknown id gives 404 "Track not found" whatever the body; a known id with a falsy body gives 400 "Invalid JSON data"; the service is called exactly when both checks pass, 200 exactly when it stores |
| `TrackController.FalsyBody` | backend/src/Controller/TrackController.php:48 | `!$data`: a body that passes has at least one key, and the empty object does not pass |
| `TrackController.EmptyObjectIsInvalidJson` | backend/src/Controller/TrackController.php:46-50 | POST `{}` gives 400 "Invalid JSON data" without calling the service |
| `TrackApi.ErrorText` | frontend/composables/useTrackApi.js:46 | the server's `error` field when present and non-empty, else the transport message |
| `TrackApi.FindIndex` | frontend/composables/useTrackApi.js:60 | -1 exactly when no track has the id; otherwise the first position holding it |
| `TrackApi.WithoutId` | frontend/composables/useTrackApi.js:86 | no kept track has the id, and the list does not grow |
| `TrackApi.WithoutIdCounts` | frontend/composables/useTrackApi.js:86 | every copy of a track with the id is dropped, every copy of any other track is kept |
| `TrackApi.WithoutIdAppend` | frontend/composables/useTrackApi.js:86 | filtering distributes over concatenation, so the kept tracks stay in their original order |
| `TrackApi.WithoutAbsentId` | frontend/composables/useTrackApi.js:86 | deleting an id no cached track has leaves the list as it was |
| `TrackApi.FindIndexAfterAppend` | frontend/composables/useTrackApi.js:40-42 | after appending a track, lookup by its id finds it unless an earlier track has that id |
| `TrackApi.FindIndexAfterReplace` | frontend/composables/useTrackApi.js:58-63 | replacing the first track with an id by a track with the same id keeps it the first |
| `TrackApi.TrackCache.constructor` | frontend/composables/useTrackApi.js:8-10 | empty list, not loading, no error |
| `TrackApi.TrackCache.FetchTracks` | frontend/composables/useTrackApi.js:19-34 | success: the list is the response in response order and the error is cleared; failure: list unchanged, error and rethrown message are "Failed to fetch tracks: " plus the error text; loading ends false |
| `TrackApi.TrackCache.CreateTrack` | frontend/composables/useTrackApi.js:36-52 | success: the response is appended after the unchanged earlier entries; failure: list unchanged, error text set and rethrown; loading ends false |
| `TrackApi.TrackCache.UpdateTrack` | frontend/composables/useTrackApi.js:54-73 | success: only the first track with the id is replaced, length kept, unchanged when none matches; failure: list unchanged, error set and rethrown; loading ends false |
| `TrackApi.TrackCache.DeleteTrack` | frontend/composables/useTrackApi.js:79-96 | success: the list becomes the filtered list and `true` is returned; failure: list unchanged, error set and rethrown; loading ends false |
| `TrackApi.TrackCache.GetTrack` | frontend/composables/useTrackApi.js:102-104 | null exactly when no cached track has the id; otherwise the first track with that id; reads state only |
| `TrackApi.TrackCache.ClearError` | frontend/composables/useTrackApi.js:109-111 | the error is cleared and nothing else changes |
| `Notifications.Capitalize` | frontend/composables/useNotifications.js:143 | same length, same characters after the first, an ASCII lower-case first letter becomes upper-case |
| `Notifications.CapitalizeIdempotent` | frontend/composables/useNotifications.js:143 | capitalising twice equals capitalising once |
| `Notifications.SuccessText` | frontend/composables/useNotifications.js:146-147 | the capitalised item name, a space, the operation, then "d successfully!" |
| `Notifications.Detail` | frontend/composables/useNotifications.js:150 | the thrown value's message when non-empty, else its string form |
| `Notifications.FailureText` | frontend/composables/useNotifications.js:148-151 | "Failed to ", the operation, a space, the item name, ": ", then the error detail, each at its position |
| `Notifications.ApiFailureText` | frontend/composables/useNotifications.js:132 | the error prefix followed by the message, or by "Unknown error" when the message is empty |
| `Notifications.NotificationCenter.AtMostOnePending` | frontend/composables/useNotifications.js:51-58 | at most one auto-hide timer is waiting |
| `Notifications.NotificationCenter.constructor` | frontend/composables/useNotifications.js:4-6 | no messages, no timer |
| `Notifications.NotificationCenter.ClearAutoHideTimeout` | frontend/composables/useNotifications.js:40-45 | the held timer is cancelled and the ref nulled; no timer is left waiting |
| `Notifications.NotificationCenter.HasError` | frontend/composables/useNotifications.js:10 | an error message is shown; used through `HasNotifications` |
| `Notifications.NotificationCenter.HasSuccess` | frontend/composables/useNotifications.js:11 | a success message is shown; used through `HasNotifications` |
| `Notifications.NotificationCenter.HasNotifications` | frontend/composables/useNotifications.js:12 | either message is shown; `ClearAll` ensures it is false afterwards |
| `Notifications.NotificationCenter.ClearAll` | frontend/composables/useNotifications.js:17-21 | both messages empty and no timer waiting |
| `Notifications.NotificationCenter.ClearError` | frontend/composables/useNotifications.js:26-28 | only the error is cleared |
| `Notifications.NotificationCenter.ClearSuccess` | frontend/composables/useNotifications.js:33-35 | only the success message is cleared |
| `Notifications.NotificationCenter.SetupAutoHide` | frontend/composables/useNotifications.js:51-59 | the old timer is cancelled first; a new one with the given delay is the only one waiting exactly when a success message is shown |
| `Notifications.NotificationCenter.ShowError` | frontend/composables/useNotifications.js:66-73 | error set, success cleared when asked, and any waiting timer cancelled |
| `Notifications.NotificationCenter.ShowSuccess` | frontend/composables/useNotifications.js:81-95 | success set, error cleared when asked; a positive delay replaces the timer (none for an empty message); a delay of 0 or less leaves the timer as it was |
| `Notifications.NotificationCenter.ShowNotification` | frontend/composables/useNotifications.js:103-113 | "success" and "error" act as the two show methods with the option defaults; any other kind changes no state |
| `Notifications.NotificationCenter.HandleApiResponse` | frontend/composables/useNotifications.js:120-136 | everything is cleared first; success shows the success message with a 3000 ms timer; failure shows prefix plus message and passes the same failure on |
| `Notifications.NotificationCenter.OperationSucceeded` | frontend/composables/useNotifications.js:146-147 | shows "<Item> <operation>d successfully!" with the default timer |
| `Notifications.NotificationCenter.OperationFailed` | frontend/composables/useNotifications.js:148-151 | shows "Failed to <operation> <item>: <detail>" as the error |
| `Notifications.NotificationCenter.TracksLoaded` | frontend/composables/useNotifications.js:161 | shows "Tracks loaded successfully!" with the default timer |
| `Notifications.NotificationCenter.TracksLoadFailed` | frontend/composables/useNotifications.js:162-163 | shows "Failed to load tracks: " plus the detail as the error |
| `Notifications.NotificationCenter.Fire` | frontend/composables/useNotifications.js:55-57 | the waiting timer clears the success message and stops waiting; the error and the ref are unchanged |
| `Notifications.SecondSuccessReplacesTimer` | frontend/composables/useNotifications.js:51-58 | two auto-hiding successes leave one timer with the second delay, which clears the second message |
| `Notifications.DisabledAutoHideKeepsEarlierTimer` | frontend/composables/useNotifications.js:92-94 | a success shown with auto-hide disabled is still cleared by the earlier timer |
| `Notifications.ErrorCancelsTimer` | frontend/composables/useNotifications.js:66-73 | after an error no timer waits, so the success stays cleared and the error stays |
| `Modal.TrackModal.IsEditing` | frontend/composables/useModal.js:9 | a track is being edited; `OpenCreateModal` ensures it is false, `OpenEditModal` with a track that it is true |
| `Modal.TrackModal.CanCloseModal` | frontend/composables/useModal.js:107 | no form operation is loading; `OpenCreateModal`, `HandleFormSubmit` and `FailedEditStaysOpen` ensure it holds afterwards |
| `Modal.TrackModal.ModalTitle` | frontend/composables/useModal.js:9-12 | "Edit Track" exactly when a track is being edited, else "Add New Track" |
| `Modal.TrackModal.constructor` | frontend/composables/useModal.js:4-7 | hidden, nothing edited, no error, not loading |
| `Modal.TrackModal.OpenCreateModal` | frontend/composables/useModal.js:17-22 | shown, nothing edited, no error, not loading; title "Add New Track" |
| `Modal.TrackModal.OpenEditModal` | frontend/composables/useModal.js:28-38 | no track: no state change; otherwise shown on a copy of the track, no error, not loading, title "Edit Track" |
| `Modal.TrackModal.CloseModal` | frontend/composables/useModal.js:43-48 | hidden, nothing edited, no error, not loading, whatever the loading flag was |
| `Modal.TrackModal.ResetModal` | frontend/composables/useModal.js:76-81 | the same closed state as `CloseModal` |
| `Modal.TrackModal.SetFormLoading` | frontend/composables/useModal.js:54-56 | only the loading flag changes |
| `Modal.TrackModal.SetFormError` | frontend/composables/useModal.js:62-64 | only the form error changes |
| `Modal.TrackModal.ClearFormError` | frontend/composables/useModal.js:69-71 | only the form error is cleared |
| `Modal.TrackModal.HandleFormSubmit` | frontend/composables/useModal.js:88-102 | success ends in the closed state; a throw sets the form error and keeps visibility and the edited track; loading ends false either way |
| `Modal.FailedEditStaysOpen` | frontend/composables/useModal.js:97-101 | a failed edit stays open on the same copy, with the message, title "Edit Track" and closing allowed |

## Left out

- HTTP transport (axios), JSON encoding and decoding, Symfony routing, CORS and `$this->json`
  serialisation: decoded bodies and call outcomes are inputs.
- Doctrine's `find` and `findAll` are inputs of the controller (`found`, `all`); the order of
  `findAll` is whatever the repository returns.
- The Track entity and its validation constraints are not part of this model: validation is an
  abstract function from a track to its violations, and no title, artist or duration rule is
  assumed. The setters are taken to accept PHP's scalar coercion of an integer to its decimal
  text.
- `TrackService.EntityManager.Flush`: commits the one entity the service changed, not
  Doctrine's whole unit of work; identity generation is a counter.
- Request bodies that decode to a truthy non-array (`5`, `"x"`, `true`) make `createTrack`
  fail with a TypeError and a 500 from the framework; the decoded body is modelled as an
  optional map only.
- A violation's property path: the service reads only each violation's message, so
  `TrackService.Violation` holds the message alone.
- Body values that are floats, booleans, arrays or objects are not modelled; a value is null,
  an integer or a string.
- `Php.StringToInt`: exponent forms ("1e3"), fractions (PHP reads a numeric prefix with a "."
  as a double and truncates it, which can round up: "0.99999999999999999" gives 1, and
  "179.99999999999999999" gives 180, where the model gives 0 and 179) and saturation at PHP's
  64-bit integer bounds are not modelled.
- `TrackApi.TrackCache`: the cached list and its track objects are values. In the composable,
  the array `fetchTracks` returns is the cache's own array, so a later `push` by `createTrack`
  shows up in the caller's copy. The objects `createTrack` and `updateTrack` return are the
  objects stored in the cache. The model does not capture this sharing: what a caller holds
  does not change after the call returns.
- The `loading` flag while a request is in flight and the interleaving of overlapping calls:
  each call is one atomic step, so only its final value (false) is stated.
- The request payloads `createTrack`/`updateTrack` send are not modelled: they do not affect the
  cache. `refreshTracks` is the same function as `fetchTracks`.
- No server endpoint deletes tracks; `DeleteTrack` models only the client's side.
- `setTimeout` timing: a timer going off is the explicit step `Fire`, with no clock.
- `toUpperCase` outside ASCII (where one character can become several) is not modelled.
- `console.warn` logging in `showNotification` and `openEditModal`.
- The string form of a thrown value (`Notifications.Thrown.asText`) is an input.
- The submit handler's own effects in `handleFormSubmit` (it runs the API call): its outcome
  is an input. The shallow copy `{ ...track }` is a value copy, so no aliasing is modelled.
- `useConfig.js` only reads environment variables; it is not part of this model.
