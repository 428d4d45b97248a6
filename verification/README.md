# A verified model of the a2A-Payments event site logic

This Dafny project models the parts of the a2A-Payments hackathon site that hold logic rather than layout:

- **The participant globe:**
  - the marker visibility rule;
  - the autorotation loop, which stops for good on the first interaction (`GlobeRenderer.ts`);
  - the older timer loop, which only pauses while dragging (`GlobeRenderer.tsx`);
  - the drag and zoom handlers;
  - the size-dependent initial scale and the wiring of the scene.
- **The detail panel:** the X/Twitter and LinkedIn handle extraction, and the mutually exclusive participant/partner selection.
- **The team-status form:** the order of its checks and its outcome.
- **The modal provider:** its open/close state.
- **The stats bar, the partner strip, and the two user-to-marker mappings.**
- **`backend/ingest.py`:**
  - CSV rows to profiles;
  - the country fallback of the geocoder;
  - per-participant enrichment that never drops a participant;
  - the document metadata.
- **The `GET /users` endpoint:** vector-store payloads become `User` records with defaults.

Modelling choices:

- **Angles, scales and coordinates are `real`.** JavaScript's `%` keeps the sign of the dividend, so it is written out as a truncated remainder (`GlobeRenderer.JsRem360`).
- **The d3 projection and `d3.geoDistance` are function values** in `Projection.Geometry`. The model states what the site does with their results, never what they compute.
- **An animation frame or timer callback is an explicit method call:** `GlobeRenderer.Rotate`, `GlobeRendererLegacy.LegacyRenderer.Tick`, `GlobeScene.Scene.Frame`. `requestAnimationFrame` handles come from a counter.
- **The clock, the geocoder, the LinkedIn scraper, the language model and the vector store are parameters.** These are Stats' "today", `Ingest.Services`, and `Chat.GetUsers`' `store`. A call that raises is an `Err`.
- **Strings are `seq<char>`.** JavaScript `split`, Python `strip`, `lower` and `in` are defined in `Text`, with their own lemmas: split/join round trips, piece counts, and the characters `strip` removes.

Behaviours of the code that the model states explicitly:

- **Zoom does not clamp.** A new scale outside `[minScale, maxScale]` is rejected and the old one kept. The scene's initial scale is not guaranteed to lie within its zoom bounds (`GlobeScene.InitialScaleInBoundsIff`).
- **The mounted scene uses `GlobeRenderer.ts`.** `GlobeScene.tsx` imports `initializeGlobe` and `renderGlobe` from `./GlobeRenderer`, which resolves to the `.ts` file; it re-exports the `initializeGlobe` of `GlobeInitializer.ts`. So:
  - the projection starts at rotation [0, -30, 0], with the scene's own scale and translate;
  - drag start stops autorotation for good, and drag end changes nothing (`GlobeScene.Scene.DragStart`, `GlobeScene.Scene.DragEnd`);
  - every drag step refreshes the marker opacities; a zoom does not, because `setupZoom` ignores the visibility callback the scene passes it.
- **`GlobeRenderer.tsx` is an alternative renderer** that nothing mounts. It is modelled on its own (`GlobeRendererLegacy`): its timer loop pauses while dragging and resumes on drag end (`GlobeRendererLegacy.PauseThenResume`).

## Model

| member | source | states |
|---|---|---|
| Text.SplitLength | src/components/modals/UpdateStatusModal.tsx:57 | `s.split(c)` has exactly one more piece than `s` has occurrences of `c` |
| Text.SplitPiecesFree | src/components/NodeList.tsx:12 | no piece of `s.split(c)` holds `c` |
| Text.NonEmpty | src/components/NodeList.tsx:24 | `filter(Boolean)` keeps exactly the non-empty pieces |
| Text.NonEmptyKeepsLast | src/components/NodeList.tsx:24-27 | a non-empty last piece is also the last kept piece |
| Text.TrimTrailing | src/components/NodeList.tsx:21 | `replace(/\/+$/, "")` leaves a prefix not ending in "/" and removes only "/" characters |
| Text.ContainsIff | backend/ingest.py:265 | Python's `in` on strings holds exactly when the needle occurs at some position |
| Text.JoinSplit | src/components/NodeList.tsx:12 | joining the pieces of `s.split(c)` with `c` gives back `s` |
| Text.SplitJoin | src/components/NodeList.tsx:12 | splitting the `c`-join of one or more pieces free of `c` gives back those pieces |
| Text.LastPieceIsSuffix | src/components/NodeList.tsx:12 | the last piece of `s.split(c)` is a suffix of `s`, preceded by `c` whenever it is not all of `s` |
| Text.StripStartSpec | backend/ingest.py:75-79 | `lstrip()` leaves a suffix of the input that does not start with whitespace, and everything it removed is whitespace |
| Text.StripEndSpec | backend/ingest.py:75-79 | `rstrip()` leaves a prefix of the input that does not end with whitespace, and everything it removed is whitespace |
| Text.StripSpec | backend/ingest.py:75-79 | the result of `strip()` occurs in the input and has no whitespace at either end |
| Text.StripEmptyIff | backend/ingest.py:81 | `strip()` gives "" exactly when the text is all whitespace |
| Text.LowerSpec | backend/ingest.py:264 | `lower()` maps each character on its own, in place |
| Text.LowerIdempotent | backend/ingest.py:264-266 | lower-casing twice is lower-casing once |
| NodeList.ExtractTwitterUsername | src/components/NodeList.tsx:11-13 | the handle is the input itself or contains no "/" |
| NodeList.TwitterUsernameSpec | src/components/NodeList.tsx:11-13 | the handle is the suffix after the last "/"; the input comes back unchanged exactly when it is empty, has no "/", or ends in "/" |
| NodeList.DropInPrefix | src/components/NodeList.tsx:30 | the `^in/` replacement is the identity on any text without "/" |
| NodeList.QueryFree | src/components/NodeList.tsx:18 | `split("?")[0]` is the prefix before the first "?", holds no "?", and is the whole input when there is no "?" |
| NodeList.LinkedInUsernameSpec | src/components/NodeList.tsx:15-35 | the LinkedIn handle is the last "/"-segment of the trailing-slash-free, pre-"?" part; it is non-empty, has no "/" or "?", and is a suffix of that part; when that part is empty, the thrown error yields the input unchanged |
| NodeList.LinkedInIgnoresTrailingSlash | src/components/NodeList.tsx:18-21 | appending "/" never changes a handle that was found |
| NodeList.LinkedInIgnoresQuery | src/components/NodeList.tsx:18 | when a handle is found, everything from the first "?" on is ignored |
| NodeList.NodeListPanel.constructor | src/components/NodeList.tsx:42-43 | nothing is selected initially |
| NodeList.NodeListPanel.OnNodeSelected | src/components/NodeList.tsx:46-51 | a present participant is selected and the partner cleared, so the detail card shows; an absent one changes nothing; at most one selection holds |
| NodeList.NodeListPanel.OnPartnerSelected | src/components/NodeList.tsx:53-58 | the converse for partners: the detail card shows, and mutual exclusion is kept |
| NodeList.NodeListPanel.Close | src/components/NodeList.tsx:81-90 | both selections cleared, so the detail card is hidden; globe rotation requested |
| UpdateStatus.HandleStatusUpdate | src/components/modals/UpdateStatusModal.tsx:47-70 | a wrong email is rejected with "Invalid email address" whatever the status; a mutation happens exactly when the email matches and the status has fewer than 20 spaces; the mutation carries the prop email and the new status |
| UpdateStatus.TooManyWordsIff | src/components/modals/UpdateStatusModal.tsx:57-64 | the length rejection happens exactly for a matching email and 20 or more spaces, repeated spaces included |
| UpdateStatus.TwentyWordsAccepted | src/components/modals/UpdateStatusModal.tsx:57 | twenty space-free words joined by single spaces are accepted (strict `> 20`) |
| UpdateStatus.DefaultEmailPasses | src/components/modals/UpdateStatusModal.tsx:19-22 | with an empty `email` prop the untouched empty input passes the email check, so a participant stored with an empty email can have their status changed by anyone without typing an email |
| GlobeRenderer.JsRem360 | src/components/globe/GlobeRenderer.ts:104 | `x % 360` lies strictly within ±360, keeps the sign of `x`, is `x` itself within one turn, and differs from `x` by whole turns |
| GlobeRenderer.StepLongitude | src/components/globe/GlobeRenderer.ts:102-107 | the stepped longitude stays within ±360 and is λ + 0.0375 up to whole turns |
| GlobeRenderer.AutoRotatedClosedForm | src/components/globe/GlobeRenderer.ts:99-111 | from a longitude within one turn, n frames give `(λ + n·0.0375) % 360` for every n |
| GlobeRenderer.Opacity | src/components/globe/GlobeRenderer.ts:62-79 | opacity is 0.7 exactly when the marker projects and lies within π/2 of the point facing the viewer, else 0 |
| GlobeRenderer.Opacities | src/components/globe/GlobeRenderer.ts:93-96 | one opacity per marker, each given by the rule |
| GlobeRenderer.IndexOf | src/components/globe/GlobeRenderer.ts:83 | the first position holding the node, or -1 exactly when there is none |
| GlobeRenderer.ClickIndexOfDistinct | src/components/globe/GlobeRenderer.ts:82-85 | with pairwise distinct markers, a click reports the clicked position |
| GlobeRenderer.GlobeRenderer.constructor | src/components/globe/GlobeRenderer.ts:71-115 | markers drawn with the opacity rule; rotating, with one step taken, exactly when `shouldRotate`; otherwise no frame pending |
| GlobeRenderer.GlobeRenderer.Rotate | src/components/globe/GlobeRenderer.ts:99-111 | not rotating: nothing changes and no frame is scheduled; rotating: λ steps, φ, γ, scale and translate kept, opacities refreshed, a new frame handle stored |
| GlobeRenderer.GlobeRenderer.StopRotation | src/components/globe/GlobeRenderer.ts:139-145 | afterwards not rotating and no frame pending, whatever the state before (so a second call changes nothing) |
| GlobeRenderer.GlobeRenderer.SetDragging | src/components/globe/GlobeRenderer.ts:130-138 | `true` stops as `stopRotation` does; `false` changes nothing, so rotation never resumes |
| GlobeRenderer.GlobeRenderer.OnGroupClick | src/components/globe/GlobeRenderer.ts:118-124 | a click on the globe stops rotation and cancels the pending frame |
| GlobeRenderer.GlobeRenderer.UpdateNodeVisibility | src/components/globe/GlobeRenderer.ts:127-129 | opacities recomputed for the current projection; rotation state untouched |
| GlobeRenderer.GlobeRenderer.OnNodeClick | src/components/globe/GlobeRenderer.ts:82-85 | reports the node and its first position, then the bubbling click stops rotation |
| GlobeRendererLegacy.InitialState | src/components/globe/GlobeRenderer.tsx:9-11 | scale 550, centred translate, rotation [0, 0, 0] |
| GlobeRendererLegacy.Step | src/components/globe/GlobeRenderer.tsx:82-94 | a tick advances exactly when a timer exists and not dragging, and never decreases the longitude; `setDragging` only sets the flag |
| GlobeRendererLegacy.ReplayRotation | src/components/globe/GlobeRenderer.tsx:78-94 | over any events, the longitude grows by 0.5 per tick that finds the loop unpaused, with no wrap-around |
| GlobeRendererLegacy.NoTimerNoRotation | src/components/globe/GlobeRenderer.tsx:81-89 | without `shouldRotate` the longitude never moves |
| GlobeRendererLegacy.PauseThenResume | src/components/globe/GlobeRenderer.tsx:79-94 | drag start, tick, drag end, tick advances once: a pause, not a stop |
| GlobeRendererLegacy.LegacyRenderer.constructor | src/components/globe/GlobeRenderer.tsx:78-79 | rotation 0, not dragging |
| GlobeRendererLegacy.LegacyRenderer.Tick | src/components/globe/GlobeRenderer.tsx:82-88 | loop state follows `Step`; on an advance the projection becomes `[rotation, 0, 0]`, discarding any drag; scale and translate kept |
| GlobeRendererLegacy.LegacyRenderer.SetDragging | src/components/globe/GlobeRenderer.tsx:92-94 | loop state follows `Step` |
| GlobeRendererLegacy.LegacyRenderer.OnNodeClick | src/components/globe/GlobeRenderer.tsx:64-67 | reports the node and its first position; rotation untouched |
| GlobeControls.DraggedRotation | src/components/globe/GlobeControls.ts:18-26 | longitude moves by dx·sensitivity/scale, latitude by −dy·sensitivity/scale, roll kept |
| GlobeControls.DragUndo | src/components/globe/GlobeControls.ts:18-26 | dragging back by the opposite deltas restores the rotation |
| GlobeControls.DragAdditive | src/components/globe/GlobeControls.ts:18-26 | two drag steps equal one drag by the summed deltas |
| GlobeControls.DragSlowsWhenZoomedIn | src/components/globe/GlobeControls.ts:18-26 | a larger scale turns the same movement into a smaller angle |
| GlobeControls.ZoomedScale | src/components/globe/GlobeControls.ts:52-55 | `minScale·k` is taken exactly when within `[minScale, maxScale]`, else the scale is unchanged (rejected, not clamped) |
| GlobeControls.ZoomKeepsBounds | src/components/globe/GlobeControls.ts:52-55 | a scale within the bounds stays within them |
| GlobeControls.ZoomIdempotent | src/components/globe/GlobeControls.ts:52-55 | the same zoom event twice equals once |
| GlobeControls.ZoomAlwaysAccepted | src/components/globe/GlobeControls.ts:51-55 | for k in [1, 2.5] and maxScale ≥ 2.5·minScale ≥ 0 every zoom is accepted |
| GlobeControls.DefaultZoomAlwaysAccepted | src/components/globe/GlobeControls.ts:47-55 | with the defaults 350 and 1000 no zoom is rejected |
| GlobeControls.ApplyControl | src/components/globe/GlobeControls.ts:15-37 | drag start and end change nothing, a drag changes only the rotation, a zoom only the scale |
| GlobeControls.ApplyControls | src/components/globe/GlobeControls.ts:18-55 | a scale within positive bounds stays within them over any sequence of drag and zoom events |
| GlobeControls.OnDrag | src/components/globe/GlobeControls.ts:18-26 | the projection's rotation becomes the dragged rotation; scale and translate kept |
| GlobeControls.OnZoom | src/components/globe/GlobeControls.ts:50-55 | the projection's scale becomes the zoomed scale; rotation and translate kept |
| GlobeScene.InitialScale | src/components/globe/GlobeScene.tsx:34-39 | half the smaller side below width 640, else 40% of it |
| GlobeScene.InitialTranslate | src/components/globe/GlobeScene.tsx:41-43 | horizontally centred; vertically at 40% of the height below width 640, else centred |
| GlobeScene.InitialVisibility | src/components/globe/GlobeScene.tsx:31-43 | before any drag or rotation a node is visible exactly when it projects and lies within a quarter turn of longitude 0, latitude 30° north, the point the initializer's `rotate([0, -30])` faces (visibility rule of GlobeRenderer.ts:62-69) |
| GlobeScene.MobileStartsBelowMinimum | src/components/globe/GlobeScene.tsx:28-37 | on a narrow screen the initial scale is below the zoom minimum 450 |
| GlobeScene.InitialScaleInBoundsIff | src/components/globe/GlobeScene.tsx:28-39 | the initial scale lies in [450, 2000] exactly on a wide screen whose smaller side is in [1125, 5000] |
| GlobeScene.WideStartsBelowMinimum | src/components/globe/GlobeScene.tsx:28-37 | every wide screen whose smaller side is under 1125 starts below the zoom minimum of 450 (a 1280×800 window starts at 320) |
| GlobeScene.MobileSitsHigher | src/components/globe/GlobeScene.tsx:41-43 | on a narrow screen the globe sits above the vertical centre |
| GlobeScene.SceneZoomAccepted | src/components/globe/GlobeScene.tsx:63-71 | with bounds 450 and 2000 every allowed zoom is accepted and lands within the bounds |
| GlobeScene.Scene.constructor | src/components/globe/GlobeScene.tsx:31-45 | a fresh projection at the initial state shared by a fresh `GlobeRenderer.ts` renderer; rotating with one step taken exactly when `shouldRotate`; opacities drawn for the resulting projection |
| GlobeScene.Scene.DragStart | src/components/globe/GlobeScene.tsx:54-56 | drag start stops autorotation and cancels the pending frame |
| GlobeScene.Scene.Drag | src/components/globe/GlobeScene.tsx:48-61 | a drag at sensitivity 75 rotates the shared projection, then every marker's opacity is recomputed for the new rotation; rotation state untouched |
| GlobeScene.Scene.DragEnd | src/components/globe/GlobeScene.tsx:57-59 | drag end changes nothing, so a stopped rotation stays stopped |
| GlobeScene.Scene.Zoom | src/components/globe/GlobeScene.tsx:63-71 | a zoom with bounds 450 and 2000; rotation, translate, opacities and rotation state untouched |
| GlobeScene.Scene.Frame | src/components/globe/GlobeScene.tsx:45 | a `rotate` frame on the shared projection: nothing once stopped; otherwise λ steps modulo 360 and opacities are refreshed |
| Stats.SeatsRemaining | src/components/Stats.tsx:11-24 | signups plus seats is 120; seats are negative exactly when signups exceed 120 |
| Stats.DaysUntilLaunch | src/components/Stats.tsx:3-8 | the least whole number of days covering the time left |
| Stats.WholeDaysExact | src/components/Stats.tsx:3-8 | exactly n days left gives n |
| Stats.PartialDayRoundsUp | src/components/Stats.tsx:3-8 | any part of a day counts as a whole day |
| Stats.NonPositiveAfterLaunch | src/components/Stats.tsx:3-8 | zero or negative from the launch instant on |
| Stats.PositiveBeforeLaunch | src/components/Stats.tsx:3-8 | at least one before the launch instant |
| Stats.CountdownMonotone | src/components/Stats.tsx:3-8 | the countdown never rises as time passes |
| Stats.StatsEntries | src/components/Stats.tsx:19-26 | exactly three cards, in fixed order, with their labels and values |
| Stats.SignupsAndSeatsSum | src/components/Stats.tsx:20-24 | the first two cards add up to 120 |
| Partners.CircularPositions | src/components/Partners.tsx:15-19 | round logos exactly at 2, 3, 4, 5, 7, 8; never at 0, 1, 6 or from 9 on |
| Partners.PartnerButtons | src/components/Partners.tsx:25-45 | one button per partner, in order, round exactly at the circular positions |
| Partners.ClickedPartner | src/components/Partners.tsx:25-30 | clicking the i-th rendered button passes the i-th partner |
| Utils.MapUserNodesToGlobeNodes | src/lib/utils.ts:9-18 | one marker per participant in order, with its longitude, latitude and type, value 5, not new, carrying the participant |
| Utils.UserDataRoundTrip | src/lib/utils.ts:9-18 | reading the participants back off the markers gives the input |
| Globe.FlattenUserNodes | src/components/Globe.tsx:12-24 | an omitted list gives no markers; one marker per participant in order, value 5, type "user", carrying the participant |
| Globe.FlattenPositions | src/components/Globe.tsx:19-20 | a marker has a position exactly when its participant has coordinates, and then the same longitude and latitude |
| Globe.FlattenRoundTrip | src/components/Globe.tsx:18-24 | reading the participants back off the markers gives the input |
| ModalProvider.Provider.constructor | src/providers/ModalProvider.tsx:11-14 | closed, with empty email and status; the modal gets those props |
| ModalProvider.Provider.OpenUpdateStatus | src/providers/ModalProvider.tsx:16-29 | stores the email and status and opens: the modal is rendered open with exactly those |
| ModalProvider.Provider.OnClose | src/providers/ModalProvider.tsx:24-29 | closes, keeping the stored data: the modal's props differ only in the open flag |
| ModalProvider.UseModal | src/providers/ModalProvider.tsx:34-39 | outside a provider the call fails with "useModal must be used within a ModalProvider"; inside it returns the context |
| Ingest.RowToProfile | backend/ingest.py:73-83 | a row lacking a column fails; otherwise the five text fields are the stripped cells and nothing else is set |
| Ingest.AnonymousIff | backend/ingest.py:81 | anonymous exactly when both the Linkedin and x cells are all whitespace |
| Ingest.LoadedFieldsStripped | backend/ingest.py:75-79 | every loaded text field has no whitespace at either end |
| Ingest.CollectOk | backend/ingest.py:72-85 | a loop that stops at the first failing step succeeds exactly when every step does, keeping every value in order |
| Ingest.CollectErr | backend/ingest.py:72-90 | a failed loop reports the error of the first failing step, every earlier step having succeeded |
| Ingest.CollectPrefixErr | backend/ingest.py:72-90 | once a prefix of the steps fails, the whole loop fails with that error |
| Ingest.CollectStep | backend/ingest.py:72-90 | one more iteration appends its value, or its error ends the whole loop |
| Ingest.LoadAllSpec | backend/ingest.py:63-90 | all rows well-formed: one profile per row, in order; otherwise the error of the first row lacking a column |
| Ingest.LoadUsers | backend/ingest.py:63-90 | the row loop with its early exit computes the collection of the rows read one by one |
| Ingest.FallbackFromFirstMatch | backend/ingest.py:263-270 | the table search yields the first entry whose lower-cased name occurs, or nothing exactly when none does |
| Ingest.FallbackSpec | backend/ingest.py:254-270 | the fallback is the first of Canada, United States, India, United Kingdom found in the lower-cased location, with no city; otherwise four `None`s |
| Ingest.FirstCenter | backend/ingest.py:264-268 | the early-return loop over a table computes the first-match search over it |
| Ingest.CountryFallback | backend/ingest.py:254-270 | the lower-cased location searched in the four country centres gives the fallback |
| Ingest.LocationCoordinates | backend/ingest.py:234-270 | a full-lookup hit is returned as is; otherwise a country hit is returned without its city; when both miss, the fallback table decides; either lookup raising raises; a city is reported only from the full lookup |
| Ingest.GetLocationCoordinates | backend/ingest.py:234-270 | the lookup sequence computes `LocationCoordinates` |
| Ingest.WithCoordinates | backend/ingest.py:100-102 | coordinates are set exactly when latitude and longitude are both present and non-zero |
| Ingest.ProcessUser | backend/ingest.py:96-144 | processing never changes name, email, location, handles or the anonymous flag |
| Ingest.AnonymousNotScraped | backend/ingest.py:104-107 | an anonymous participant's result does not depend on the scraper or the model, and has no enrichment added |
| Ingest.ZeroCoordinateIgnored | backend/ingest.py:100-102 | a 0.0 latitude or longitude records no coordinates |
| Ingest.EnrichmentApplied | backend/ingest.py:111-136 | a successful model call sets summary, highlights, skills and interests from its answer and keeps the coordinates; the image URL is `None` exactly when `profilePic` is JSON null, "" when it is absent, and the string otherwise |
| Ingest.EnrichFailureKeepsCoordinates | backend/ingest.py:99-144 | a failing model call keeps the participant with only the coordinates added |
| Ingest.ProcessUsers | backend/ingest.py:92-147 | every participant is kept exactly once, in order, processed |
| Ingest.CreateUserDocument | backend/ingest.py:149-169 | the metadata holds the eleven base keys, plus latitude and longitude exactly when coordinates are present, each with the participant's value for it; the excluded keys are the seven listed |
| Ingest.ImageUrlStored | backend/ingest.py:157 | a missing image URL is stored as "" |
| Ingest.ExcludedKeysPresentIff | backend/ingest.py:165-192 | every key kept out of the embedding is in the metadata exactly when the participant has coordinates |
| Ingest.EmbeddedKeys | backend/ingest.py:151-192 | the metadata seen by the embedding is name, email, location, anonymous, summary and highlights |
| Chat.UserFromPoint | agents-hack/app/api/routers/chat.py:124-143 | a valid record keeps the point id and always has coordinates |
| Chat.ReadTextSpec | agents-hack/app/api/routers/chat.py:127-135 | a `str` field reads exactly when its key is absent or holds a string; then the field is that string, or "" when absent |
| Chat.ReadRealSpec | agents-hack/app/api/routers/chat.py:130-133 | a `float` field reads exactly when its key is absent or holds a number; then the field is that number, or 0.0 when absent |
| Chat.ReadBoolSpec | agents-hack/app/api/routers/chat.py:139 | a `bool` field reads exactly when its key is absent or holds a flag; then the field is that flag, or false when absent |
| Chat.ReadOptTextSpec | agents-hack/app/api/routers/chat.py:137-138 | an optional text field reads exactly when its key is absent, a string or null; written back it is the stored JSON, or the default when absent |
| Chat.ReadListSpec | agents-hack/app/api/routers/chat.py:136-141 | an optional list field reads exactly when its key is absent, null or a list of strings; written back it is the stored JSON, or [] when absent |
| Chat.UserFromPointOk | agents-hack/app/api/routers/chat.py:124-143 | a record is built exactly when all thirteen fields read |
| Chat.UserFromPointValue | agents-hack/app/api/routers/chat.py:124-143 | a built record holds the point id and the value read for each field |
| Chat.UserFromPointSpec | agents-hack/app/api/routers/chat.py:124-143 | a record is built exactly when every present key is well typed; then every present value is copied and every absent key gets its default ("", 0.0, [], false, summary "", image URL null) |
| Chat.EmptyPayloadDefaults | agents-hack/app/api/routers/chat.py:125-142 | an empty payload gives "" strings, [] lists, `false`, coordinates (0.0, 0.0), summary "" and a null image URL |
| Chat.NullNameRefused | agents-hack/app/api/routers/chat.py:89-100 | a null name is refused, since only the optional fields accept null |
| Chat.FirstPage | agents-hack/app/api/routers/chat.py:116-119 | at most 1000 points, a prefix of the collection |
| Chat.GetUsers | agents-hack/app/api/routers/chat.py:108-151 | one user per point of the first page, in order, `total` their number, no message; any failure is a 500 whose detail starts "Error fetching users: " |

## Left out

- The d3 projection, `d3.geoDistance` and path generation are foreign floating-point code. They are function values here, so no property depends on what they compute. This includes d3's own reduction of angles modulo 360 inside `projection.rotate` and the conversion to radians.
- IEEE floating-point rounding: angles, scales, coordinates and the day quotient are mathematical reals or integers.
- Marker positions (`cx`, `cy`, `transform`), radii, colours, CSS classes and every SVG path redraw: only the opacity of each marker is modelled.
- `requestAnimationFrame`, `cancelAnimationFrame` and `d3.timer`: a frame is an explicit call, handles come from a counter, and nothing runs on its own.
- The world-atlas fetch, the sphere and country drawing, and the SVG teardown of the scene (which does not stop a running timer).
- GlobeRenderer.IndexOf: compares markers by value; JavaScript's `indexOf` compares object identity, so two equal but distinct marker objects are told apart there and not here.
- GlobeRendererLegacy.LegacyRenderer: its `updateNodeVisibility` only repositions markers, which is not modelled.
- GlobeControls.DraggedRotation: requires a non-zero scale, because at scale 0 JavaScript divides to Infinity or NaN, which reals do not have.
- GlobeControls.ApplyControls: states the bounds only for scales starting within bounds whose minimum is positive.
- The zoom handler's radius update, d3's own zoom transform state, and the extra seventh argument the scene passes to `setupZoom`.
- `src/components/globe/GlobeControls.tsx` is not part of this model: its bounds live inside `d3.zoom().scaleExtent`.
- Stats: the text of the cards (`toString()`, the " days" suffix) and the animation. The current time is a parameter.
- Partners: tooltips, images and the static partner data.
- NodeList: registering and removing the window event listeners, and the rendering of the detail card.
- UpdateStatus: the toasts, and the asynchronous mutation with its success and error callbacks (including the `onClose` on success).
- Ingest:
  - `pd.read_csv` and `fillna`: rows are given as text cells, so `str()` of numeric cells is not modelled;
  - logging and the `__main__` driver;
  - the Apify polling loop inside `scrape_linkedin_profile`, the prompt text, and `json.loads`/`json.dumps`;
  - the document's free text, and `ingest_to_qdrant`.
- Ingest.ProcessUsers: returns new profiles. The source mutates the very objects of its input list, so the caller's list changes as well; that aliasing is not modelled.
- Ingest.ProfilePic: a non-string, non-null `profilePic` value is not modelled.
- Text.Lower: lower-cases ASCII letters only. Python's `str.lower()` also maps other Unicode letters, which can change whether a country name is found.
- Chat:
  - pydantic's lax coercions, such as `"true"` for a boolean or numeric text for a float, are not modelled;
  - the text of validation errors is a stand-in;
  - point ids are taken to be strings;
  - client construction and logging are not modelled;
  - the streaming chat endpoints are not modelled.
- `agents-hack/app/engine/engine.py`, `agents-hack/app/engine/index.py`, `src/api/users.ts`, `src/pages/Index.tsx` and the presentational components are not part of this model.
