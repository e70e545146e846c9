# Presidency campus navigator — conversation core in Dafny

A model of the conversation logic under the Presidency University chat front end.
The application forwards campus questions to a hosted model that has a maps
grounding tool, and shows the answer with any map links. The model covers four
parts:

- **Controller** (`controller.dfy`, from `App.tsx`). The session is `messages`,
  `input`, `isLoading` and `userLocation`. The asynchronous `handleSend` is split
  at its `await` into two steps:
  - `Submit` runs the guard, appends the user entry, clears the input, sets the
    busy flag and starts one call.
  - `Complete` appends the assistant entry (answer or apology) and clears the
    busy flag.

  The module also has "NEW TRIP" (`NewTrip`), the position update (`Locate`),
  typing (`EditInput`) and the send button's enabled test.
- **Dispatcher** (`service.dfy`, from `services/geminiService.ts`). It builds the
  request, normalises the response and maps every failure of the call to one error. The SDK
  call is the function parameter `send`.
- **Link rendering** (`render.dfy`, from `components/ChatMessage.tsx`). This is the
  list of `(href, caption)` anchors a message shows.
- **Sessions** (`transcript.dfy`). Whole event sequences and repeated turns, with
  the store's invariants: it is append-only without a reset, never empty, and
  only assistant entries carry links.

The supporting modules are:

- `wrappers.dfy`: `Option` and `Result`.
- `types.dfy`: the records of `services/types.ts`. In these datatypes, `maps` and
  `links` are optional, `role` has exactly the two values `User` and `Assistant`,
  and a `SearchResult` always has a text and a chunk list.
- `whitespace.dfy`: ECMAScript `String.prototype.trim`, over the WhiteSpace and
  LineTerminator code points.

Four behaviours of the code the model keeps:

- The user entry stores the **untrimmed** text: the stored text is never trimmed.
- The dispatcher passes the first candidate's grounding chunks on **unfiltered**.
  Chunks without `maps` are skipped only when a message is rendered
  (`Render.Project`), not when the answer is stored.
- "NEW TRIP" is not blocked while a call is in flight. A call that settles after a
  reset appends its reply to the fresh store (`Controller.CompleteAfterNewTrip`).
- The position used by a call is the one held when the call was submitted
  (`Dispatch.location`). `handleSend` reads it from its closure before its first
  `await`.

Every `Date.now()` reading is an integer parameter `now`. A message id is
`WelcomeId` (the literal `'welcome'`) or `ClockId(ms)`. The user entry gets
`ClockId(now)` and the reply gets `ClockId(now + 1)`.

## Model

| member | source | states |
|---|---|---|
| `Controller.Init` | App.tsx:16-26 | the initial store holds exactly one entry, the assistant welcome with id `'welcome'` and no links; the input is empty, the session is idle and no position is held |
| `Controller.ChosenText` | App.tsx:53 | a non-empty `queryText` is used; otherwise (absent or empty) the input box's text is used |
| `Controller.Submit` | App.tsx:52-65 | no-op with no call started iff the chosen text is blank (every character whitespace) or the session is busy; otherwise it appends exactly one user entry with the untrimmed chosen text, clears the input, sets busy, and starts a call with that text and the held position |
| `Controller.Complete` | App.tsx:66-88 | appends exactly one assistant entry and leaves earlier entries unchanged; on success the entry carries the result's text and its chunk list as `links`; on failure it carries the fixed apology and no `links`; the session is idle afterwards either way |
| `Controller.NewTrip` | App.tsx:209 | whatever the prior length, the store becomes one assistant welcome entry with the new-trip text and no links; the busy flag is neither consulted nor changed |
| `Controller.Locate` | App.tsx:31-43 | a position fix overwrites the held location and leaves the store, input and busy flag alone |
| `Controller.EditInput` | App.tsx:178 | typing replaces the input text and nothing else |
| `Controller.SendEnabledIffAccepted` | App.tsx:185 | the send button is enabled exactly when a submission from the input box would be accepted |
| `Controller.BusyBlocksSubmit` | App.tsx:54 | while busy, every submission is a no-op whatever its text |
| `Controller.NoSecondDispatchInFlight` | App.tsx:54-65 | after an accepted submission and before completion, a second submission starts no call and changes nothing |
| `Controller.CycleAppendsTwo` | App.tsx:52-88 | an accepted submission and its completion add exactly two entries, the user entry and then an assistant entry, keep every earlier entry, and leave the session idle with an empty input |
| `Controller.CompleteAfterNewTrip` | App.tsx:76-86 | a reply settling after a reset is appended to the fresh one-entry store, giving two entries |
| `Whitespace.Trim` | App.tsx:54 | `trim` returns the slice of the text between a blank prefix and a blank suffix, and that slice neither starts nor ends with whitespace |
| `Whitespace.TrimEmptyIffBlank` | App.tsx:54 | `text.trim()` is empty iff every character of the text is whitespace (both directions) |
| `Service.BuildRequest` | services/geminiService.ts:18-41 | the maps tool is always requested; `retrievalConfig.latLng` is present iff a position is known and then equals its coordinates, with no default; the contents are the fixed campus prefix followed by the query; the model name and persona instruction are fixed |
| `Service.BuildRequestRoundTrip` | services/geminiService.ts:22-36 | the query and the position can both be read back from the built request, so nothing of either is lost |
| `Service.Normalize` | services/geminiService.ts:43-48 | the text is never empty: a missing or empty text becomes the fixed "couldn't find specific details" text, and any other text is kept unchanged; the links are the first candidate's chunks, unfiltered and in order, or `[]` when any step of that path is absent |
| `Service.SearchCampus` | services/geminiService.ts:12-53 | exactly the request built from the query and position is sent; the result is a failure iff the call is rejected, and then it is the single fixed error with no partial result; a response yields its normalised result |
| `Render.Label` | components/ChatMessage.tsx:42 | the caption is the place title when non-empty, else `'View on Maps'`, and is never empty |
| `Render.LinkOf` | components/ChatMessage.tsx:34-44 | an anchor's href is the place's `uri` and its caption is the place's label |
| `Render.Project` | components/ChatMessage.tsx:32-46 | a message never shows more anchors than it has chunks |
| `Render.ProjectMembers` | components/ChatMessage.tsx:32-46 | every anchor comes from a chunk with `maps`, and every chunk with `maps` yields its anchor |
| `Render.ProjectConcat` | components/ChatMessage.tsx:32-33 | order is kept: the anchors of a concatenation are the concatenated anchors |
| `Render.ProjectSingle` | components/ChatMessage.tsx:33-45 | a chunk without `maps` yields no anchor; a chunk with `maps` yields exactly its anchor |
| `Render.ProjectAllMapped` | components/ChatMessage.tsx:32-46 | when every chunk has `maps`, anchor i belongs to chunk i and the counts are equal |
| `Render.RenderedLinks` | components/ChatMessage.tsx:11-46 | a user message shows no anchors; a message with absent or empty `links` shows none; otherwise an assistant message shows the anchors of its map-bearing chunks, in order, never more than its chunks |
| `Transcript.RunAppendOnly` | App.tsx:63-84 | across any event sequence without "NEW TRIP", the earlier store is a prefix of the later one |
| `Transcript.RunKeepsStoreNonEmpty` | App.tsx:209 | the store is never emptied by any event sequence, resets included |
| `Transcript.RunKeepsLinksOnlyOnAssistant` | App.tsx:56-84 | if only assistant entries carry `links`, this stays true across any event sequence |
| `Transcript.ReachableInvariants` | App.tsx:16-88 | every session reachable from mount has a non-empty store, and no user entry in it carries `links` |
| `Transcript.TurnsGrowByTwo` | App.tsx:52-88 | from an idle session, n turns with non-blank queries add exactly 2n entries, keep every earlier entry, and end idle |
| `Transcript.ServiceTurnReply` | App.tsx:68-84 | on an accepted turn, a response gives a reply with the normalised non-empty text and the unfiltered chunks, of which only the map-bearing ones are displayed; a rejection gives the apology, which displays no anchors |
| `Transcript.ScenarioStubbedSuccess` | App.tsx:52-88 | a stubbed success on a fresh session gives three entries; the third has the stubbed text and one link, displayed as one anchor |
| `Transcript.ScenarioStubbedFailure` | App.tsx:77-84 | a stubbed failure on a fresh session gives three entries; the third is the apology, with no links |

## Left out

- The SDK (`GoogleGenAI`, `generateContent`) and the API-key lookup are foreign network calls. The call is the parameter `send`, and the response is an abstract record holding only the fields the dispatcher reads.
- `response.text` is an SDK getter. It is modelled as an optional string and is not derived from the response parts.
- Geolocation (`navigator.geolocation`) is modelled as the `Locate` transition with the fix as input. A failed lookup changes nothing, so it has no transition. Coordinates are reals that are only copied, because floating point is not modelled.
- `Date.now()` becomes the `now` parameter. One reading stands for the separate calls inside one message literal. Id uniqueness is not claimed, because ids from the clock can collide within a millisecond.
- React hooks, closure staleness, asynchronous interleaving beyond the Submit/Complete split, and the auto-scroll effect are left out. The model runs transitions one after another.
- All JSX and styling are left out. So are the quick-action buttons and their overlay (App.tsx:8-13, 145-167): a quick action is a `Send` event with its canned query. Also left out: the `toLocaleTimeString` timestamp display and the `console` logging.
- Service.SearchCampus: a throw from constructing the SDK client (services/geminiService.ts:16, outside the `try`) escapes with its own error rather than the fixed message; the model treats client construction as infallible. The controller appends the same apology either way (App.tsx:77-84).
- The error detail passed to `console.error` is dropped (`CallOutcome.Rejected`'s `detail`), because the program only logs it.
