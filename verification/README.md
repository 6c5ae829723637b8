# Trip-planner index page: a Dafny model

This project models the decision logic of the index page of a collaborative
trip planner (`app/pages/index/index.js`). The page signs the user in through
a social login provider, finds the user's location, and selects a trip that
is shared live between participants. While a trip is selected, the page
watches the trip's destination for changes.

The model covers:

- **Destination-change detector** (`DestinationSync`). This is the listener
  `selectTrip` attaches to the trip's `sync` event. A trip handle
  (`TripHandle`) holds a recorded snapshot (`trip.destination`) and a live
  destination (`trip.get('destination')`). One evaluation fires
  `destination-changed` when the recorded code is missing or empty, or when it
  differs from the live code. When it fires, it copies the live destination
  into the snapshot. `Step` is one evaluation as a function. `Run` is a burst
  of pushes, each followed by one evaluation.
- **Navigation path** (`Navigation`). The path is
  `index/index/trip/<tripId>/user/<userId>`. A missing or empty user id falls
  back to the signed-in user's id. The path splits back into its segments.
- **Location normalisation** (`LocationResolver`). `detectLocation` picks
  either the device coordinates or the geocoder's first candidate. It keeps
  only `latitude` and `longitude`.
- **Login loop** (`Login`). The page re-prompts until a response has status
  `connected`. The model runs this over a finite sequence of provider answers.
- **Page state** (`IndexPage.Page`). This holds the process-wide current trip
  and participant set, which `selectTrip` replaces. It also holds the user's
  coordinates, the trip the map displays, and the last navigation path. The
  event handlers are methods on this class.

Some behaviours of the code differ from what a reader might expect, and the
model follows the code:

- `detectLocation` has no error handler. When the device locator rejects,
  or the geocoding step throws, the whole call rejects (`Detection.Failed`).
  It does not resolve to "no location".
- `selectTrip` scopes the trip and the participant set by the user id exactly
  as it was passed in (lines 99 and 117). Only the navigation path applies
  the default user.
- Selecting a new trip does not detach earlier listeners. The listener reads
  the current trip (`window.app.trip`) when it fires, not the handle it was
  attached to. `Page.SyncListener` therefore evaluates whatever trip is
  current.
- The first evaluation after a selection always fires, because a fresh handle
  has no recorded snapshot.

## Model

| member | source | states |
|---|---|---|
| `DestinationSync.Step` | app/pages/index/index.js:107-114 | A missing or empty recorded code always fires. A non-empty recorded code equal to the live code never fires. Afterwards the snapshot's code equals the live code. A silent evaluation leaves the snapshot unchanged. A firing evaluation copies the whole live destination. |
| `DestinationSync.Run` | app/pages/index/index.js:106-115 | Over a burst of pushes, the event fires at most once per push. After a non-empty burst, the recorded code is the last pushed code. |
| `DestinationSync.RunCountsChanges` | app/pages/index/index.js:107-113 | The number of emissions over a burst is exactly the number of pushes whose code differs from the code before it, or that follow a missing or empty code. The code before the first push is the recorded one. |
| `DestinationSync.RepeatedPushes` | app/pages/index/index.js:110-113 | With the same live value pushed n times: 0 emissions when the recorded code is non-empty and equal to it. Otherwise 1 emission if the live code is non-empty, or n emissions if it is missing or empty. The final snapshot is the live value when anything fired, and the old snapshot when nothing did. |
| `DestinationSync.SecondEvaluation` | app/pages/index/index.js:110-113 | A second evaluation with no change in between fires if and only if the live code is missing or empty. |
| `DestinationSync.LaxLaxJfk` | app/pages/index/index.js:106-115 | From no snapshot, pushes LAX, LAX, JFK fire twice and leave JFK recorded. |
| `DestinationSync.TripHandle.constructor` | app/pages/index/index.js:98-101 | A freshly fetched handle has the delivered live destination, no snapshot and no emissions. |
| `DestinationSync.TripHandle.SetDestination` | app/pages/index/index.js:59 | Only the live destination changes. |
| `DestinationSync.TripHandle.Evaluate` | app/pages/index/index.js:106-115 | The fired flag and the new snapshot are those of `Step` on the old snapshot and the live value. The emission count grows by exactly one when it fires, and by zero otherwise. |
| `Navigation.NavigationPath` | app/pages/index/index.js:93 | The path is `index/index/trip/<tripId>/user/<user>`, where the user is the given id, or the signed-in user's id when none or an empty one is given. |
| `Navigation.SplitJoin` | app/pages/index/index.js:93 | Splitting a `join` by its separator gives back the parts, when no part contains the separator. |
| `Navigation.PathRoundTrip` | app/pages/index/index.js:93 | The trip id and the effective user id can be read back from the path, when neither contains '/'. |
| `LocationResolver.Pick` | app/pages/index/index.js:204 | `_.pick` keeps exactly the named fields the object has, with their values. |
| `LocationResolver.Chosen` | app/pages/index/index.js:204 | The first element if truthy, otherwise the result: a non-empty candidate list gives its first candidate. An empty list gives an object without coordinate fields. A single candidate is used as it is, unless it has a truthy field named "0", which gives an object without coordinate fields. An unusable answer throws. |
| `LocationResolver.NormalisedCoords` | app/pages/index/index.js:195-208 | There are no coordinates exactly when the location has none and the geocoding step throws. Otherwise the normalised coordinates hold only `latitude` and `longitude`. Each is present, with the same value, exactly when the source has it. The source is the device coordinates if present, otherwise the geocoder's chosen candidate. |
| `LocationResolver.DetectLocation` | app/pages/index/index.js:188-211 | The call fails exactly when the locator rejects, or when the location has no coordinates and the geocoding step throws. No location, and only that, yields nothing. Otherwise the location yields its normalised coordinates, which have no extra fields. |
| `LocationResolver.NormaliseIdempotent` | app/pages/index/index.js:208 | Normalising already normalised coordinates changes nothing, whatever the geocoder would answer. |
| `Login.LoginLoop` | app/pages/index/index.js:139-154 | The loop yields a response only if its status is `connected`, and it yields the first such response. Every earlier response caused one more login prompt. When no response is connected, the loop is still waiting after one prompt per response. |
| `Login.LaterAnswersIgnored` | app/pages/index/index.js:141-153 | After a connected response, answers the provider would give later do not change the outcome. |
| `IndexPage.ParticipantSet.constructor` | app/pages/index/index.js:117 | A freshly subscribed participant set is scoped to the given pair and holds exactly the delivered members. |
| `IndexPage.ParticipantSet.SetCoords` | app/pages/index/index.js:82 | Only the named participant's coordinates change. |
| `IndexPage.Page.BeginSelection` | app/pages/index/index.js:93-101 | The route is the trip's navigation path. The current trip becomes a fresh handle scoped to `(tripId, userId)` as given, with the delivered destination and no snapshot. The participant set, the user's coordinates and the map's trip are unchanged. |
| `IndexPage.Page.FinishSelectionAsWritten` | app/pages/index/index.js:106-119 | The participant set becomes a fresh set scoped to the selection's own pair, holding exactly the delivered members, whatever trip is current by then. |
| `IndexPage.Page.FinishSelection` | app/pages/index/index.js:106-119 | Corrected continuation. While the selection's handle is still the current trip, the participant set becomes a fresh set for that handle's pair, and the pair is consistent. Once a later selection has replaced the handle, nothing changes. |
| `IndexPage.Page.SelectTrip` | app/pages/index/index.js:91-121 | A selection with no other selection in between. The route is the trip's navigation path. The current trip and participant set are replaced by fresh handles scoped to `(tripId, userId)` as given. The participant set holds exactly the delivered members, so nothing carries over from the previous trip. The trip starts with the delivered destination and no snapshot. Afterwards the pair is consistent, and the user's coordinates and the map's trip are unchanged. |
| `IndexPage.Page.OverlappingSelectionsAsWritten` | app/pages/index/index.js:98-117 | Selecting t1 and then t2 before t1's first `sync`, with t2's `sync` arriving first, leaves t2's trip beside t1's participants. The pair is then not consistent. |
| `IndexPage.Page.OverlappingSelections` | app/pages/index/index.js:98-117 | The same interleaving with the corrected continuation leaves t2's trip with t2's own participants, and the pair is consistent. |
| `IndexPage.Page.OnTripClick` | app/pages/index/index.js:87-89 | Selects the clicked trip for the signed-in user. |
| `IndexPage.Page.SyncListener` | app/pages/index/index.js:106-115 | Evaluates the current trip as `Step` does, against its unchanged live destination, and counts one emission when it fires. Without a current trip nothing fires. |
| `IndexPage.Page.OnMapAirportClick` | app/pages/index/index.js:58-60 | With a current trip, its live destination becomes the clicked airport, and its snapshot and emissions are untouched. Without a current trip the handler fails. |
| `IndexPage.Page.DetectAndStore` | app/pages/index/index.js:188-218 | The user's coordinates are set to the detected coordinates exactly when a location was found. Otherwise they are unchanged. |
| `IndexPage.Page.OnRelocateClick` | app/pages/index/index.js:77-85 | The user's coordinates follow `DetectLocation`. The user's own participant record gets the user's coordinates only when detection did not fail, a participant set exists, and it contains the user. Otherwise the set is unchanged. |
| `IndexPage.Page.OnShowTrip` | app/pages/index/index.js:123-125 | The map shows the event's trip. |
| `IndexPage.Page.OnOriginAirportSelected` | app/pages/index/index.js:127-129 | The map shows the event's trip. |
| `IndexPage.Page.OnDestinationAirportSelected` | app/pages/index/index.js:131-133 | The map shows the event's trip. |
| `IndexPage.Page.OnShowTripList` | app/pages/index/index.js:135-137 | The map shows no trip. |

## Left out

- The 300 ms `_.throttle` around the sync listener. It depends on wall-clock time, so each evaluation is one discrete call of `Evaluate` or `SyncListener`.
- Listeners piling up across selections. Each stale listener fires its own evaluation of the current trip. The model represents every such firing as a separate `SyncListener` call and does not track how many listeners exist.
- `IndexPage.Page.SelectTrip`: it models one selection with no other selection in between, and it uses the corrected continuation `FinishSelection`. An overlapping selection in the source can leave the trip and the participant set of different trips; see "## Findings".
- `DestinationSync.TripHandle.Evaluate`: line 113 stores a reference to the live destination object, not a copy. The model copies the value. The two agree while the live destination is replaced by a new object, as line 59 does. They differ if the realtime store changes that object in place: the snapshot then changes with it, the codes stay equal and the event never fires. That aliasing is not modelled.
- Promise sequencing, the `once('sync')` wait and `fetch()`. Their results are parameters, taken as already delivered.
- The identity provider (`FB.getLoginStatus`, `FB.login`, `FB.api`), the device locator and the geocoder. These are foreign calls, and their answers are parameters. A geocoder that throws or answers with nothing is the `Unusable` answer. A geocoder that never answers is not modelled.
- `Login.LoginLoop`: the source waits without bound for a connected answer. The model stops at the end of the given answers and reports that it is still waiting. The permission scope string sent with each prompt is an argument to a foreign call and is not modelled.
- User creation and credential attachment in `getLoginStatus` (lines 156-186). They wait for the data store and copy values the provider supplies.
- The page's `render` orchestration (lines 16-49). It checks login, detects the location when the user has none, renders the child views and selects the trip named in the route. This is rendering and sequencing of the modelled parts.
- Template rendering, the map and sidebar views, `displayTrip`, toasts, `console.log` and the router's side effect. Only the path string is kept.
- `LocationResolver.Chosen`: field values are numbers, and JavaScript's NaN, which is falsy, is not modelled. Non-numeric fields of geocoder answers are not modelled.
- The realtime store behind `getRealtimeTrip` and `getRealtimeParticipants`. `models/realtime/user` is not part of this model. Each call is taken to return a fresh handle with no recorded snapshot.

## Findings

| source | as written | input that shows it | evidently intended | confidence | as-written member | corrected member |
|---|---|---|---|---|---|---|
| app/pages/index/index.js:98-117 | The continuation after a selection's first `sync` subscribes the participants of its own `(tripId, userId)`, even when a later selection has already replaced the current trip. | `selectTrip(t1, u)`, then `selectTrip(t2, u)` before t1's first `sync`; t2's `sync` arrives, then t1's. | A superseded selection's continuation changes nothing, so the current trip and the participant set belong to the same trip. | medium, not executed | `IndexPage.Page.OverlappingSelectionsAsWritten` | `IndexPage.Page.FinishSelection` |
