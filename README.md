# Wurfel Engine camera — a Dafny model

This project models the bookkeeping core of the Wurfel Engine `Camera`:

- **Chunk paging** (`chunk_paging.dfy`, module `ChunkPaging`). The camera tracks the chunk it is centred on. It steps that centre by one chunk when a visible border crosses a chunk boundary. It snaps the centre to the focus point's chunk when the focus is two or more chunks away. When the centre changes, the camera requests every missing chunk in a neighbourhood around it. A loading pass only runs at the origin chunk or when chunk switching is configured. After the first pass, the loading radius drops from 10 to 2. The map's chunk store is a class holding a set of loaded chunk coordinates and a ghost log of load requests.
- **Sorter dispatch** (`sort_dispatch.dfy`, module `SortDispatch`). The camera picks one of three depth sorters by the configured id. When the id changes, or while there is no sorter, it unregisters the old sorter from the message bus and registers the new one for the map-changed and render-storage-changed events. The bus is a multiset of (listener, event) registrations, so removing a listener takes out one occurrence.
- **Multi-pass rendering** (`multi_pass.dfy`, module `MultiPass`). A render pass can sort and draw, rewind the sprite batch to replay the first pass's output, or draw a cached depth list again. This is a pure state machine over the multi-rendering flag and the resume index. How far a drawing pass advances the batch index is an input.
- **Frustum test** (`frustum.dfy`, module `Frustum`). A sprite at a view-space position is visible when it overlaps the camera vertically and is horizontally closer to the camera than half the view width plus half a sprite. The render-cell sprite dimensions are parameters.
- **Java integer arithmetic** (`java_int.dfy`, module `JavaInt`): absolute value, 32-bit wrap-around, `>> 1` and `/ 2` as Java computes them.
- **The camera object** (`camera.dfy`, module `CameraCore`). It is a class with the source's fields. Every state-changing method is proved against the pure specifications above.

Floating-point values are integer inputs of the model. These are the camera position, the visible borders and the chunk indices derived from the position (datatype `View`), and the projected view size. Configuration variables are a `Config` value. Whether a map and a shader exist is a boolean argument of `Render`.

## Model

| member | source | states |
|---|---|---|
| ChunkPaging.StepCenterX | core/src/main/java/com/bombinggames/wurfelengine/core/Camera.java:411-438 | if the focus chunk is ≥2 chunks from the old centre, the new centre is the focus chunk; otherwise a left border crossing alone steps the centre left, a right border crossing alone steps it right, a left crossing followed by a right crossing against the stepped centre leaves it where it was, and with no crossing it stays put; the result is never more than 2 chunks from the focus chunk |
| ChunkPaging.SquareAboveOne | core/src/main/java/com/bombinggames/wurfelengine/core/Camera.java:435-436 | the squared-movement test `d*d > 1` holds exactly when the movement is at least two chunks either way |
| ChunkPaging.HalfHeight | core/src/main/java/com/bombinggames/wurfelengine/core/Camera.java:488-492 | the neighbourhood's Y half-height is at least 2, is half the radius (rounded down) from radius 4 up, and is exactly 2 below that |
| ChunkPaging.ShrinkRadius | core/src/main/java/com/bombinggames/wurfelengine/core/Camera.java:500-503 | a pass never raises the radius; any radius of at least 2 becomes 2 |
| ChunkPaging.RadiusShrinksOnce | core/src/main/java/com/bombinggames/wurfelengine/core/Camera.java:500-503 | over any series of passes the radius never grows; it equals the shrunk radius once any gate was open and is unchanged otherwise |
| ChunkPaging.VisitOne | core/src/main/java/com/bombinggames/wurfelengine/core/Camera.java:493-498 | visiting one offset requests its chunk exactly when it is missing, which keeps the loop invariant: visited chunks loaded, earlier chunks kept, nothing unvisited loaded, each missing chunk requested once |
| ChunkPaging.NeighbourhoodMonotone | core/src/main/java/com/bombinggames/wurfelengine/core/Camera.java:487-498 | a smaller loading radius covers a subset of the chunks |
| ChunkPaging.SecondPassRequestsNothing | core/src/main/java/com/bombinggames/wurfelengine/core/Camera.java:483-505 | a second pass around the same centre with the (reduced) radius loads and requests nothing |
| ChunkPaging.ChunkStore.LoadChunk | core/src/main/java/com/bombinggames/wurfelengine/core/Camera.java:495-497 | a load request adds exactly that chunk and logs exactly that request |
| SortDispatch.KindFor | core/src/main/java/com/bombinggames/wurfelengine/core/Camera.java:389-399 | ids 0, 1, 2 select no-sort, topological and depth-value sorting; every other id selects nothing |
| SortDispatch.ResubscribedCount | core/src/main/java/com/bombinggames/wurfelengine/core/Camera.java:387-401 | after removing one registration of the old sorter per event and adding the new one, each (listener, event) count is the old count, minus one for the old sorter if it had one, plus one for the new sorter |
| SortDispatch.ResubscribedStepwise | core/src/main/java/com/bombinggames/wurfelengine/core/Camera.java:387-401 | the two removals and two additions, one at a time, are one resubscription |
| SortDispatch.SwapMovesRegistrations | core/src/main/java/com/bombinggames/wurfelengine/core/Camera.java:384-404 | a swap leaves the old sorter with no registration and the new one with exactly one per event, and every other listener untouched |
| SortDispatch.ResubscribeSameIsIdentity | core/src/main/java/com/bombinggames/wurfelengine/core/Camera.java:384-404 | unregistering and re-registering a registered listener leaves the bus as it was |
| SortDispatch.InitSorter | core/src/main/java/com/bombinggames/wurfelengine/core/Camera.java:384-404 | the configured id is always recorded; with the same id and a sorter present nothing changes; otherwise a selectable id installs the newly constructed sorter and any other id keeps the current one |
| SortDispatch.InitSorterIdempotent | core/src/main/java/com/bombinggames/wurfelengine/core/Camera.java:384-404 | checking the same configured id twice changes nothing the second time |
| SortDispatch.InitSorterSwapsRegistrations | core/src/main/java/com/bombinggames/wurfelengine/core/Camera.java:384-404 | an id change replaces a registered sorter: the new one is registered once per event and the old one not at all |
| SortDispatch.InitSorterKeepsSubscription | core/src/main/java/com/bombinggames/wurfelengine/core/Camera.java:384-404 | each check keeps the active sorter registered exactly once per event |
| SortDispatch.MessageBus.AddListener | core/src/main/java/com/bombinggames/wurfelengine/core/Camera.java:400-401 | a registration adds one (listener, event) entry |
| SortDispatch.MessageBus.RemoveListener | core/src/main/java/com/bombinggames/wurfelengine/core/Camera.java:387 | an unregistration takes out one (listener, event) entry, if there is one |
| MultiPass.Render | core/src/main/java/com/bombinggames/wurfelengine/core/Camera.java:592-609 | a pass sorts exactly when multi-rendering is off or single-batch mode has no resume index; it builds the depth list exactly in list mode at resume index 0; it rewinds exactly in single-batch mode with a resume index, and a rewind changes no state; it draws the cached depth list (once, as its last step) exactly in list mode; a sorting pass does nothing else; every other pass records the batch index as the resume index |
| MultiPass.SingleBatchReplays | core/src/main/java/com/bombinggames/wurfelengine/core/Camera.java:596-599 | once single-batch mode has a resume index, every later pass only rewinds and the state stays put |
| MultiPass.SingleBatchSortsOnce | core/src/main/java/com/bombinggames/wurfelengine/core/Camera.java:592-599 | after the start of multi-rendering in single-batch mode, if the first pass ends at a non-zero batch index, the sorter runs exactly once over any series of passes and that index stays the resume index (at index 0 the next pass sorts again) |
| MultiPass.SinglePassAlwaysSorts | core/src/main/java/com/bombinggames/wurfelengine/core/Camera.java:592-594 | with multi-rendering off, every pass sorts and draws and does nothing else |
| MultiPass.DepthListBuiltOnce | core/src/main/java/com/bombinggames/wurfelengine/core/Camera.java:600-608 | in depth-list mode, if no pass ends at batch index 0, the list is built once, by the first pass and only if it starts from resume index 0; every pass draws the list once, and nothing is sorted |
| JavaInt.ShiftRight1 | core/src/main/java/com/bombinggames/wurfelengine/core/Camera.java:663 | an arithmetic shift right by one is the floor of half its argument |
| Frustum.SquareLessIffAbsLess | core/src/main/java/com/bombinggames/wurfelengine/core/Camera.java:672-674 | comparing squares (unbounded) is comparing distances from zero |
| Frustum.InView | core/src/main/java/com/bombinggames/wurfelengine/core/Camera.java:659-675 | visible iff the sprite's vertical span overlaps the camera's and its horizontal distance is strictly below half the view width plus half a sprite |
| Frustum.CentreIsVisible | core/src/main/java/com/bombinggames/wurfelengine/core/Camera.java:659-675 | a sprite at the camera position is visible |
| Frustum.ReachIsExcluded | core/src/main/java/com/bombinggames/wurfelengine/core/Camera.java:659-675 | a sprite exactly at the horizontal reach, on either side, is culled |
| Frustum.MirrorSymmetric | core/src/main/java/com/bombinggames/wurfelengine/core/Camera.java:659-675 | the test is symmetric about the camera horizontally |
| JavaInt.Int32 | core/src/main/java/com/bombinggames/wurfelengine/core/Camera.java:674 | a Java `int` result lies in the 32-bit range, equals the exact value when that is in range, and is congruent to it modulo 2^32 |
| Frustum.InViewAsWritten | core/src/main/java/com/bombinggames/wurfelengine/core/Camera.java:659-675 | the test as the source computes it, with 32-bit squares: it passes only sprites that overlap the camera vertically, and even with wrapping a sprite exactly at the reach is culled |
| Frustum.SquareBound | core/src/main/java/com/bombinggames/wurfelengine/core/Camera.java:674 | a square of a value up to 46340 from zero fits a Java `int` |
| Frustum.AsWrittenAgreesInRange | core/src/main/java/com/bombinggames/wurfelengine/core/Camera.java:672-674 | with distance and reach up to 46340, the 32-bit test and the intended one agree |
| Frustum.FarSpritePassesAsWritten | core/src/main/java/com/bombinggames/wurfelengine/core/Camera.java:672-674 | a sprite 46341 pixels away passes the 32-bit test but fails the intended one |
| JavaInt.TruncatedHalf | core/src/main/java/com/bombinggames/wurfelengine/core/Camera.java:931 | `y/2` on `int` rounds toward zero: it is within one half of y, never larger in magnitude, and keeps y's sign |
| CameraCore.Camera.constructor | core/src/main/java/com/bombinggames/wurfelengine/core/Camera.java:154-264 | the window rectangle, projected size, focus and position are as given; the camera is active with no multi-rendering; the sorter is picked from the configured id; the centre chunk is the given one, the last centre is (0, 0), and a chunked map gets one chunk pass |
| CameraCore.Camera.Update | core/src/main/java/com/bombinggames/wurfelengine/core/Camera.java:288-382 | a disabled camera changes nothing; an enabled one steps the centre as the centre-step rule says, runs a chunk pass exactly when the centre differs from the last centre seen, and re-checks the sorter, installing a newly constructed sorter of the configured kind whenever the check acts on a selectable id |
| CameraCore.Camera.Start | core/src/main/java/com/bombinggames/wurfelengine/core/Camera.java:154-172 | the sorter is picked by the dispatch rule and kept registered once per event; on a chunked map one chunk pass runs, otherwise the store and the radius are unchanged |
| CameraCore.Camera.InitSorter | core/src/main/java/com/bombinggames/wurfelengine/core/Camera.java:384-404 | the dispatcher state becomes the dispatch rule's result, with a freshly constructed sorter of the selected kind when it acts on a selectable id; the sorter stays registered once per event |
| CameraCore.Camera.MoveListener | core/src/main/java/com/bombinggames/wurfelengine/core/Camera.java:387-401 | the bus becomes the resubscription of the old sorter to the new one |
| CameraCore.Camera.UpdateCenter | core/src/main/java/com/bombinggames/wurfelengine/core/Camera.java:411-478 | the centre follows the centre-step rule, the Y centre is the position's chunk row, the last centre is the new centre, and the chunk pass runs exactly when the new centre differs from the last centre seen (which is (0, 0) until the first update) |
| CameraCore.Camera.StepCenter | core/src/main/java/com/bombinggames/wurfelengine/core/Camera.java:413-465 | the centre chunk column follows the centre-step rule and the row is the position's chunk row; nothing else changes |
| CameraCore.Camera.RecordCenter | core/src/main/java/com/bombinggames/wurfelengine/core/Camera.java:468-476 | the last centre becomes the current centre; the chunk pass runs when the centre differs from the last one seen, and otherwise the store and the loading radius are unchanged |
| CameraCore.Camera.CheckNeededChunks | core/src/main/java/com/bombinggames/wurfelengine/core/Camera.java:483-505 | a closed gate changes nothing; an open one loads the whole neighbourhood, keeps what was loaded, loads nothing outside it, requests each missing chunk once and nothing else, and shrinks the radius |
| CameraCore.Camera.CheckColumn | core/src/main/java/com/bombinggames/wurfelengine/core/Camera.java:488-498 | after one column of the pass, every chunk at that horizontal offset within the vertical half-range is loaded, each missing one requested exactly once, and nothing outside the columns done so far changed |
| CameraCore.Camera.Render | core/src/main/java/com/bombinggames/wurfelengine/core/Camera.java:512-632 | a disabled camera or one without a map does nothing; no shader deactivates the camera; otherwise the pass follows the multi-pass rule, and a pass that needs a missing sorter fails without changing anything |
| CameraCore.Camera.StartMultiRendering | core/src/main/java/com/bombinggames/wurfelengine/core/Camera.java:637-640 | multi-rendering starts with resume index 0 |
| CameraCore.Camera.EndMultiRendering | core/src/main/java/com/bombinggames/wurfelengine/core/Camera.java:645-647 | multi-rendering stops and the resume index is kept |
| CameraCore.Camera.InViewFrustum | core/src/main/java/com/bombinggames/wurfelengine/core/Camera.java:659-675 | the corrected (unbounded) frustum test at the camera's position and projected size; with distance and reach up to 46340 it equals the test as written |
| CameraCore.Camera.SetFullWindow | core/src/main/java/com/bombinggames/wurfelengine/core/Camera.java:882-890 | full-window mode takes the window size at the origin; leaving it keeps the rectangle |
| CameraCore.Camera.Resize | core/src/main/java/com/bombinggames/wurfelengine/core/Camera.java:898-905 | a full-window camera takes the new window size at the origin; any other camera is unchanged |
| CameraCore.Camera.SetScreenSize | core/src/main/java/com/bombinggames/wurfelengine/core/Camera.java:913-919 | the size is set; full-window mode survives only if the size is at least the window's in both dimensions |
| CameraCore.Camera.Move | core/src/main/java/com/bombinggames/wurfelengine/core/Camera.java:927-935 | an unfocused camera moves by x and by minus half of y, rounded toward zero; a followed, spawned entity keeps the camera in place; then the centre is updated |
| CameraCore.Camera.SetCenter | core/src/main/java/com/bombinggames/wurfelengine/core/Camera.java:965-969 | following stops and the position is the given point |
| CameraCore.Camera.SetFocusEntity | core/src/main/java/com/bombinggames/wurfelengine/core/Camera.java:975-985 | the entity is followed; a different, spawned entity moves the camera onto it; otherwise the position is kept |
| CameraCore.Camera.SetActive | core/src/main/java/com/bombinggames/wurfelengine/core/Camera.java:992-1001 | the flag is set; turning on with a chunked map runs a chunk pass, and nothing else touches the chunks |
| CameraCore.Camera.Dispose | core/src/main/java/com/bombinggames/wurfelengine/core/Camera.java:1120-1123 | the sorter loses one registration per event and, if it was registered once, ends with none |

## Left out

- Projection and view matrices (Camera.java:324-376): floating-point linear algebra. They feed only rendering.
- Following the focus entity with a leap radius (290-306) and screen shake (309-313): float vector arithmetic and `Math.random`. `Update` takes the resulting borders and chunk indices as its `View` input and does not move `posX`/`posY`.
- Zoom and projection scaling (`setZoom`, `getProjScaling`, 777-809): float division. `widthAfterProj` and `heightAfterProj` are integer inputs of the constructor.
- The visible-border and centre getters (684-770, 953-959): float arithmetic on the position and `widthAfterProj`/`heightAfterProj`, with float-to-int casts. Their values arrive as the `View` input.
- Shaders, GL viewport, uniforms, lighting and the off-screen buffer (512-612): graphics calls with no bookkeeping effect, apart from the missing-shader branch, which is modelled.
- CameraCore.Camera.Render: does not model debug rendering (Camera.java:614-616, 1008-1070). With that option set, every pass calls the sorter to rebuild the depth list (line 1060). So the depth list is then rebuilt on each pass, unlike what `MultiPass.DepthListBuiltOnce` states, and a missing sorter fails even on a rewind pass.
- The sorters' own sorting and drawing, and what each depth-list object draws: outside the camera. How far a drawing pass moves the batch index is the `drawn` input.
- The sprite batch's `begin()`/`end()` around a pass: their effect on the batch index is not part of the model.
- The message dispatcher's delivery of events: only the registrations are modelled.
- CameraCore.Camera.constructor: requires a spawned entity. The entity constructor throws when the entity is missing or not spawned, and it does so after it has already registered a sorter. Console logging is left out too.
- CameraCore.Camera.Move: a followed entity's own game-space position change is not modelled, only that the camera does not move itself.
- ChunkPaging.StepCenterX: squares the chunk delta in unbounded integers. Java's 32-bit product wraps for deltas of 46341 chunks or more, which the model does not reproduce.
- CameraCore.Camera.Render: models the Java `NullPointerException` when the sorter is missing as the outcome `NullSorter`, with no state change.
- CameraCore.Camera.InViewFrustum: computes the corrected test, so it differs from the program for a horizontal distance or reach beyond 46340 pixels (see Findings). `Frustum.InViewAsWritten` is the program's version.
- Identifiers, getters and `loadShader` (empty in the source): no behaviour to state.
- CameraCore.Camera.SetFocusEntity: takes a non-null entity. In the source, `setFocusEntity(null)` does nothing when no entity is followed; otherwise it clears the focus and then throws a NullPointerException at `focusEntity.hasPosition()` (Camera.java:976-978). Exceptions are not modelled.

## Findings

| source | as written | input that shows it | evidently intended | confidence | as-written member | corrected member |
|---|---|---|---|---|---|---|
| core/src/main/java/com/bombinggames/wurfelengine/core/Camera.java:673-674 | `dist * dist` and the squared reach are 32-bit `int` products, so they wrap for a horizontal distance of 46341 or more | a sprite 46341 view-space pixels to the right of the camera, at a visible height, with a reach up to 46340: 46341² wraps to -2147479015, which is below the squared reach, so the sprite counts as visible | visible only when the horizontal distance is strictly below the reach | not executed | Frustum.FarSpritePassesAsWritten | Frustum.InView |
