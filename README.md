# Polygon path tool: workspace geometry and control state machine

This project models the two logical cores of a small polygon-drawing web
application in Dafny.

- **`PolygonCanvas`** is the workspace (`src/polygon-canvas.js`). The user places
  points on a canvas and draws the polygon once there are 3 to 15 points. The
  user then picks a first and a second vertex. The workspace walks the polygon's
  cyclic index space from the first to the second, clockwise (`+1 mod n`) or
  counterclockwise (`-1 mod n`). It reports the path on the window and persists
  points, path, endpoints and direction in local storage.
- **`ControlPanel`** is the control panel (`src/control-panel.js`). It holds a
  six-state interaction machine (`Idle`, `CreatePoints`, `PolygonDrawn`,
  `ChooseFirstPoint`, `ChooseSecondPoint`, `PathReady`), the point count and the
  direction. After every transition it sets or clears the `disabled` flag of six
  buttons.

The two components talk only through window events. Here each component has an
`outbox` field, the sequence of events it dispatched. Local storage is the
canvas field `storage`, and the panel's load takes the stored record as a
parameter. A record that is absent or cannot be parsed is `None`.

Modules:

- `Events` (events.dfy) holds the shared values: `Point`, the persisted `Record`,
  the window `Message`s and the 3..15 count predicate.
- `States` (states.dfy) holds the state enum and its numeric codes.
- `PathWalk` (path_walk.dfy) is the pure specification of the boundary walk and
  its lemmas.
- `Canvas` (polygon_canvas.dfy) holds the `PolygonCanvas` class.
- `Control` (control_panel.dfy) holds the `ControlPanel` class and the flag
  table.
- `Scenarios` (scenarios.dfy) holds client methods that play the square example
  through the components' contracts.

`buildPath` is modelled as a method with the source's two `while` loops. Each
loop is proved against `PathWalk.Walk`, a closed-form reference definition of
the path. The length, range, endpoints, distinctness, reversal and uniqueness of
the path are proved about `Walk`. `updateDisabledState` is modelled as a method
whose new flags equal `Control.Refresh(state, count, old flags)`. `Refresh`
writes exactly the flags the source's `switch` case writes and keeps the others.

`Control.Table` is the intended enable table: for each state, which buttons
should be disabled. Where it and the code disagree, the model follows the code:

- `ChooseFirstPoint` and `ChooseSecondPoint` do not disable every button.
  `ChooseSecondPoint` leaves clear as it was (enabled when it comes from
  `PolygonDrawn`), and neither case touches create-points or the toggle.
- `PolygonDrawn` does not touch create-points or the toggle. A load that ends in
  `PolygonDrawn` therefore leaves the toggle enabled from `PathReady`.
- Clearing the workspace does not reset `pathPoints`. Clearing the panel does not
  reset its copy of the endpoints.
- The endpoint role is told apart by comparing the armed state's number with
  the literal 3.

## Model

| member | source | states |
|---|---|---|
| PathWalk.Next | src/polygon-canvas.js:151-162 | one step stays in 0..n-1 and wraps n-1 to 0 (clockwise) or 0 to n-1 (counterclockwise) |
| PathWalk.Steps | src/polygon-canvas.js:149-163 | the step count lies in 0..n-1, is 0 exactly for equal endpoints, and is end-start (or start-end) taken cyclically |
| PathWalk.Walk | src/polygon-canvas.js:146-163 | the path the loops build has one entry more than the step count, starts at the start index and ends at the end index |
| PathWalk.WalkShape | src/polygon-canvas.js:146-163 | the path starts at start and ends at end; its length is ((end-start+n) % n)+1 clockwise and ((start-end+n) % n)+1 counterclockwise, so between 2 and n for distinct endpoints |
| PathWalk.WalkInRange | src/polygon-canvas.js:151-163 | every index on the path is a vertex, in 0..n-1 |
| PathWalk.WalkFollowsNext | src/polygon-canvas.js:151-163 | consecutive path entries are one step apart in the chosen direction |
| PathWalk.WalkDistinct | src/polygon-canvas.js:149-163 | no vertex appears twice on a path |
| PathWalk.WalksShareOnlyEndpoints | src/polygon-canvas.js:149-163 | between two different vertices, a vertex on both the clockwise and the counterclockwise path is one of the endpoints |
| PathWalk.WalkReversal | src/polygon-canvas.js:151-163 | the clockwise path from i to j is the counterclockwise path from j to i reversed |
| PathWalk.WalkUnique | src/polygon-canvas.js:149-163 | any sequence that leaves start, moves by single steps and stops at its first arrival at end is the walk, so the walk never goes the other way round |
| PathWalk.Iterate | src/polygon-canvas.js:149-163 | the loop variable stays in 0..n-1 after any number of steps |
| PathWalk.IterateIsOffset | src/polygon-canvas.js:149-163 | k steps of the loop land on the vertex k places along in the chosen direction |
| PathWalk.UnguardedWalkNeverEnds | src/polygon-canvas.js:152-163 | with an end index outside 0..n-1 the loop's exit test never holds |
| PathWalk.SquareWalks | src/polygon-canvas.js:151-163 | on four vertices the path 0 to 2 is [0,1,2] clockwise and [0,3,2] counterclockwise |
| States.Code | src/control-panel.js:1-8 | each state's frozen number lies in 0..5 |
| States.FromCode | src/control-panel.js:153-197 | a number has a case label exactly when it is in 0..5; every other number reaches the throwing default |
| States.CodeRoundTrip | src/control-panel.js:152-197 | every state the panel can hold has its own case label, so the default branch is unreachable |
| States.FromCodeRoundTrip | src/control-panel.js:1-8 | each case label stands for the state frozen to that number |
| States.FirstPointRole | src/polygon-canvas.js:117-121 | the test against 3 selects the first endpoint exactly for ChooseFirstPoint |
| Events.ValidPointCount | src/control-panel.js:164 | the 3..15 range test of the draw button agrees with the negated rejection test of the hint (src/control-panel.js:117) and of the draw gate (src/polygon-canvas.js:208); a valid count is positive |
| Canvas.Hit | src/polygon-canvas.js:114-116 | a click exactly on a point hits it, and a hit lies less than 5 px from the point along each axis |
| Canvas.FirstHit | src/polygon-canvas.js:112-131 | the hit is the lowest index within the 5 px radius; none exactly when no point is within it |
| Canvas.CanBuild | src/polygon-canvas.js:136 | the endpoints for which a path is built are both present, in range and distinct; then the path has 2 to n entries, and the clockwise and counterclockwise paths together have n + 2 entries (PathWalk.WalksShareOnlyEndpoints proves they share only the endpoints). The source tests only presence and distinctness; the range test is this model's addition (see Findings) |
| Canvas.Rebuilt | src/polygon-canvas.js:135-170 | when a path is built it has 2 to n vertex indices, each in 0..n-1, from the start to the end; otherwise the previous path stays |
| Canvas.Reload | src/polygon-canvas.js:277-285 | a load takes points, endpoints and direction from the record; only the path can differ, and when a path is built it runs from the stored first endpoint to the stored second |
| Canvas.SavedRecordReloads | src/polygon-canvas.js:252-286 | every record whose path is what buildPath leaves for its endpoints, direction and point count reloads to exactly itself, whether or not a path could be built |
| Canvas.ReloadIdempotent | src/polygon-canvas.js:277-285 | loading what a load produced changes nothing more |
| Canvas.PolygonCanvas.Snapshot | src/polygon-canvas.js:253-259 | the persisted record; when the current path is what buildPath leaves for the current fields, loading the record gives it back unchanged |
| Canvas.PolygonCanvas.constructor | src/polygon-canvas.js:2-8 | no points, no path, no endpoints, clockwise, nothing armed |
| Canvas.PolygonCanvas.HandleCreatePointsEvent | src/polygon-canvas.js:74-83 | placement is armed afterwards; arming when already armed changes nothing |
| Canvas.PolygonCanvas.HandleCanvasClick | src/polygon-canvas.js:79-82 | while armed a click adds exactly that point and reports the count; when disarmed nothing changes |
| Canvas.PolygonCanvas.AddPoint | src/polygon-canvas.js:182-190 | exactly one point is appended with no upper cap, and the new length is returned and dispatched |
| Canvas.PolygonCanvas.DrawPolygon | src/polygon-canvas.js:207-208 | the polygon is drawn exactly when there are 3 to 15 points |
| Canvas.PolygonCanvas.HandleDrawPolygonEvent | src/polygon-canvas.js:85-93 | placement is disarmed and the draw gate decides whether the polygon is drawn |
| Canvas.PolygonCanvas.HandleChoosePathPoint | src/polygon-canvas.js:95-100 | selection is armed with the sender's state number |
| Canvas.PolygonCanvas.SelectEndpoint | src/polygon-canvas.js:117-129 | the hit point takes the first-endpoint role for role 3 and the second otherwise; path-changed carries both endpoints; the path is rebuilt, reported and persisted exactly when it can be built; selection disarms |
| Canvas.PolygonCanvas.HandlePointClick | src/polygon-canvas.js:102-133 | unarmed or with no hit, nothing changes; otherwise the first hit becomes the first endpoint for role 3 and the second for any other role, path-changed is dispatched, the path is rebuilt and selection disarms |
| Canvas.PolygonCanvas.BuildPath | src/polygon-canvas.js:135-170 | for missing or equal endpoints, and for endpoints outside the polygon (see Findings), the path, storage and events are unchanged; otherwise the path is replaced by the walk, dispatched and persisted |
| Canvas.PolygonCanvas.SaveDataToLocalStorage | src/polygon-canvas.js:252-262 | storage holds points, path, endpoints and direction |
| Canvas.PolygonCanvas.HandleClockwiseOrder | src/polygon-canvas.js:63-67 | takes the received direction and rebuilds the path for the current endpoints |
| Canvas.PolygonCanvas.HandleClearEvent | src/polygon-canvas.js:172-180 | placement is disarmed and the canvas is cleared |
| Canvas.PolygonCanvas.ClearCanvas | src/polygon-canvas.js:230-240 | points empty, both endpoints null, clockwise, selection disarmed, storage removed, all as constants (so idempotent); the path is not touched |
| Canvas.PolygonCanvas.LoadDataFromLocalStorage | src/polygon-canvas.js:264-286 | without a record nothing changes; otherwise the fields become the record's and the path is rebuilt from it |
| Control.Refresh | src/control-panel.js:152-199 | Idle and PathReady give Control.Table's row whatever the flags were; the toggle is written only by those two cases and otherwise keeps its value |
| Control.RefreshKeeps | src/control-panel.js:152-199 | each state's case leaves the flags it does not write as they were; Idle and PathReady write all six |
| Control.RefreshEnables | src/control-panel.js:154-194 | Idle enables only create-points; CreatePoints disables create-points, enables clear and enables draw exactly for 3..15 points; PathReady enables exactly toggle and clear |
| Control.RefreshIdempotent | src/control-panel.js:152-199 | refreshing twice in the same state is refreshing once |
| Control.DesignedRunFollowsTable | src/control-panel.js:152-199 | along Idle, CreatePoints (with the count changing between refreshes), PolygonDrawn, both endpoint choices in either order with PolygonDrawn again after the first of them, and PathReady, each refresh turns Control.Table's row for the previous state into its row for the new one, except that ChooseSecondPoint leaves clear enabled; the PolygonDrawn refresh after a second-endpoint-first choice restores Table's row |
| Control.LoadedPolygonDrawnKeepsToggle | src/control-panel.js:201-225 | a load that ends in PolygonDrawn leaves the toggle enabled although Control.Table disables it there |
| Control.ControlPanel.constructor | src/control-panel.js:11-13 | Idle, no points, clockwise; the button flags are the markup's |
| Control.ControlPanel.UpdateDisabledState | src/control-panel.js:152-199 | the new flags are Refresh of the state, the count and the old flags |
| Control.ControlPanel.HandleButtonClick | src/control-panel.js:134-150 | the state becomes the requested one with no guard, the dispatched command carries the new state's number, and the flags are refreshed |
| Control.ControlPanel.HandleClockwiseButtonClick | src/control-panel.js:82-88 | the direction is negated and the dispatched payload carries the new value |
| Control.ControlPanel.HandleClearButtonClick | src/control-panel.js:90-101 | clockwise, zero points, invalid hint, Idle, a clear command, and only create-points enabled |
| Control.ControlPanel.HandlePathChanged | src/control-panel.js:103-114 | PathReady exactly when both endpoints are set, otherwise PolygonDrawn (never Idle or CreatePoints); the endpoints are recorded |
| Control.ControlPanel.HandleAddPoint | src/control-panel.js:67-71 | the count becomes the reported one and the hint and flags follow it |
| Control.ControlPanel.HandlePointsChange | src/control-panel.js:116-132 | the hint is valid exactly for 3..15 points and the flags are refreshed |
| Control.ControlPanel.LoadDataFromLocalStorage | src/control-panel.js:201-225 | without a record nothing changes; otherwise count and direction come from the record, the PathReady set first is overridden by the endpoint rule, and the flags are PathReady's refreshed for that state |

## Left out

- Rendering is left out: the canvas stroke, fill and clear calls, `drawPoint`, the path drawing, and the text labels and hint texts written into the page. They only change pixels and markup.
- `onCanvasMouseMove` is left out. It only highlights a point, through a method that does not exist.
- Coordinates are whole pixels, and the hit test compares the squared distance with 25 instead of `Math.sqrt` on floating-point numbers. Fractional click positions are not modelled.
- Translating a click into canvas coordinates (`getBoundingClientRect`, `clientX - rect.left`) is left out. Clicks arrive in canvas coordinates.
- `Canvas.PolygonCanvas.HandleChoosePathPoint`: the pointer-events style and the click listener it attaches to the path canvas are not modelled. The source attaches a new bound listener each time and never detaches it, because `bind` makes a fresh function. Every extra listener returns at once once selection is disarmed, so a click has the effect of one `HandlePointClick`.
- Custom-element lifecycle, shadow roots and the `fetch` of stylesheets and markup are left out. The constructors stand for the initial field values. The starting button flags and hint classes come from markup that is not part of this model, so they are a constructor parameter (`markup`) and `None`.
- `Control.ControlPanel.HandlePointsChange`: the hint is one valid/invalid flag. The source only adds a class when it is missing, so markup that carried both classes would keep both. The markup is not part of this model.
- `handlepathPoints` (src/control-panel.js:78-80) is left out. It only writes the path as `p1 - p2 - …` text.
- JSON encoding and `localStorage` are left out. The stored record is a typed `Record`, and absence or a parse error is `None`. A record with missing fields or non-integer indices cannot be expressed.
- `src/polygon-app.js` (the composition shell) and `webpack.dev.js` (build configuration) are not part of this model.

## Findings

| source | as written | input that shows it | evidently intended | confidence | as-written member | corrected member |
|---|---|---|---|---|---|---|
| src/polygon-canvas.js:136-163 | `buildPath` skips only null or equal endpoints. It then reads `points[startIndex]` and loops `while (i !== endIndex)`, with `i` kept in 0..n-1 | a stored record with 4 points, firstPointIndex 0 and secondPointIndex 7. Loading it at start-up (line 285) makes `i` cycle through 0..3 forever. The same happens on the next direction toggle (line 66), or when a click picks the other endpoint (line 125). With firstPointIndex 7 instead, `points[7].x` (line 144) throws; in `handlePointClick` the throw comes before line 127, so selection stays armed | an endpoint outside the polygon is treated like a missing one and the rebuild is skipped. All three callers go through the guarded `BuildPath`, so the model skips the rebuild and, after a click, disarms selection | not executed; high for the non-termination, which follows from the step staying in 0..n-1. The as-written member exhibits only the non-termination; the throw is read from line 144 and has no lemma | PathWalk.UnguardedWalkNeverEnds | Canvas.PolygonCanvas.BuildPath |
