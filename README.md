# BoardController interaction model

A Dafny model of the interaction core of `BoardController` (`src/BoardController.js`). This is the
controller of a photo-masking board. A photo sits under a stack of coloured mask layers, and three
painting tools (brush, magic wand, polygon) paint into the selected layer. The model covers:

- **The layer stack.** Layers get sequential ids equal to their position. `addLayer` appends and
  selects. `findLayer` is a linear search. `selectLayer` re-arms the current tool. The
  black/white-level and colour setters change the selected layer in place.
- **Tool dispatch.** Tools are opaque. Each is named by a `ToolId`, and every call the controller
  makes to a tool is appended to a ghost log. The log records `setActive(layer, scale)`,
  `setActive(null)`, `mouseDown`/`mouseUp`/`mouseMove`, `onPhotoScaleChange` and
  `onSelectedLayerPropsChange`. The set of armed tools is derived from the log. The controller's
  invariant says that at most one tool is armed: the current one, and only while a layer is
  selected.
- **The viewport.** The container's `scale`, `position` and `pivot` are one `Transform` value.
  PIXI's `toLocal`/`toGlobal` for a container with no rotation are the affine map
  `global = position + scale * (local - pivot)` over exact reals. The model covers zoom-in,
  zoom-out clamped to `minScale = initScale * 0.3`, the wheel handler, drag-to-pan, and the pinch
  update.
- **The touch-gesture classifier.** A single touch schedules a deferred press through
  `setTimeout`. The host's timer queue is modelled as a map from handle to touch position, and the
  timer firing is the separate event `FireTap`. A second touch cancels the timer the field names. Two
  touches open a pinch session, moving them pinches, and `touchEnd` closes the session.
- **The canvas size choice in `buildBaseCanvas`.** The downscale factor and the rounded canvas
  size.

Files:

- `wrappers.dfy`: `Option`, the stand-in for `null`.
- `geometry.dfy`: points, the transform, and the zoom, pan, pinch and drag updates as functions,
  with lemmas about them.
- `base_canvas.dfy`: the downscale factor and canvas size.
- `board.dfy`: the `Layer` and `BoardController` classes. The controller's methods are proved
  against the functions of `geometry.dfy` and the tool-log functions.
- `scenarios.dfy`: call sequences on a fresh controller, with what the contracts let a caller
  conclude.

Behaviour of the source that the model keeps as written:

- **The pinch has no floor.** Only `zoomOut` clamps the scale, at src/BoardController.js:426. The
  pinch branch of `touchMove` multiplies the scale by the distance ratio with no floor
  (src/BoardController.js:348-354). `Geometry.PinchCanUndershootMinScale` shows a pinch that ends
  below `minScale`.
- **The pinch session ends only in `touchEnd`.** The session is cleared only at
  src/BoardController.js:363. A one-touch `touchMove` (src/BoardController.js:335-341) leaves it
  open.
- **More than one deferred press can be pending.** The comment at src/BoardController.js:323 says
  the cancellation is there to prevent paint during a pinch. But a single touch overwrites the timer
  field without clearing the timer it held (src/BoardController.js:314), so only the last one is
  cancelled (see Findings).
- **Unknown id in `selectLayer`.** `selectLayer` with an unknown id first sets the current layer to
  null and re-arms the tool with null. Then it throws a TypeError when it reads `layer.info`
  (src/BoardController.js:496-502). The model performs those changes and returns `TypeError`.
- **No current layer in `setColorToSelectedLayer`.** It has no null guard, so it throws before
  changing anything (src/BoardController.js:587). The level setters return `undefined` in that case
  (src/BoardController.js:513 and 529), modelled as `ReturnedNothing`.

## Model

| member | source | states |
|---|---|---|
| Geometry.ToLocal | src/BoardController.js:414-415 | the pivot chosen by `toLocal` maps back to the anchor under `toGlobal` |
| Geometry.LocalOfGlobal | src/BoardController.js:414-415 | `toLocal` undoes `toGlobal`, the other direction of the inverse pair |
| Geometry.PanShiftsEveryPoint | src/BoardController.js:396-401 | a pan keeps the scale and shows every content point shifted by exactly the pan offset |
| Geometry.ZoomAtFixesAnchor | src/BoardController.js:411-420 | after the pivot/position/scale update, the scale is the new one and the content point under the cursor is still under the cursor, in both directions |
| Geometry.ZoomAtScalesAboutAnchor | src/BoardController.js:433-438 | a zoom scales the whole picture about the cursor by the ratio of new to old scale |
| Geometry.ZoomOutStep | src/BoardController.js:422-438 | one zoom-out never leaves the scale below `minScale` |
| Geometry.ZoomOutClamps | src/BoardController.js:425-431 | exactly when `scale - delta*0.01 <= minScale`, the scale becomes `minScale` and pivot and position are unchanged; otherwise the scale stays strictly above `minScale` |
| Geometry.ZoomOuts | src/BoardController.js:422-438 | any sequence of zoom-outs keeps the scale positive |
| Geometry.ZoomOutsStayAboveMin | src/BoardController.js:422-438 | after at least one zoom-out, or starting at or above `minScale`, the scale is at least `minScale` |
| Geometry.ZoomOutsIdleAtMin | src/BoardController.js:299-308 | at `minScale`, any number of wheel zoom-outs with the non-negative deltas `onScrollE` passes leave the transform unchanged |
| Geometry.PinchFollowsFingers | src/BoardController.js:344-357 | the pinch multiplies the scale by new/old distance; the content that was under the old midpoint is under the new midpoint; every point is scaled by the ratio about the old midpoint and carried along with it |
| Geometry.PinchDoublesScale | src/BoardController.js:344-357 | spreading the fingers from 100 to 200 about a fixed midpoint doubles the scale and keeps the content under the midpoint |
| Geometry.PinchCanUndershootMinScale | src/BoardController.js:344-357 | a pinch bringing the fingers 20 times closer leaves the scale below `initScale * 0.3`: the pinch has no clamp |
| Geometry.DragTelescopes | src/BoardController.js:392-402 | a whole drag pans by exactly the offset from the click point to the last pointer position |
| BaseCanvas.DownscaleFactor | src/BoardController.js:108-114 | with no limit in force (absent, zero, or not exceeded), the factor is 1 |
| BaseCanvas.DownscaleFactorFits | src/BoardController.js:108-114 | a positive limit gives a factor strictly between 0 and 1 under which both sides fit the limit and one side meets it; a negative limit gives a negative factor |
| BaseCanvas.Round | src/BoardController.js:116-117 | `Math.round` lands within half a unit of its argument, halves rounding up |
| BaseCanvas.CanvasKeepsSize | src/BoardController.js:108-117 | with no limit in force, the canvas has the image's own width and height |
| BaseCanvas.CanvasFitsMaxSize | src/BoardController.js:108-117 | with a positive limit that is exceeded, both canvas sides are at most the limit and one equals it |
| Board.ArmedSnoc | src/BoardController.js:447-453 | the armed set after one more call is that call's effect on the armed set before it |
| Board.Cancelled | src/BoardController.js:324-326 | clearing the stored timer removes exactly that handle's press from the queue, leaving every other pending press and its position as it was |
| Board.ArmedKeptBy | src/BoardController.js:374-402 | pointer events and notifications neither arm nor release a tool |
| Board.BoardController.constructor | src/BoardController.js:50-67 | a fresh controller has no layers, no current layer or tool, no click point, timer or pinch session; its transform is the fit-to-container scale and position that `buildContainer` sets at src/BoardController.js:177-178, with PIXI's default zero pivot |
| Board.BoardController.UpdateToolUI | src/BoardController.js:455-459 | the current tool is told the scale exactly when it has the `onPhotoScaleChange` hook |
| Board.BoardController.SetTool | src/BoardController.js:447-453 | the previous tool is released first; the new tool is armed with the current layer and scale only when both exist; afterwards the armed set is exactly the new tool or empty |
| Board.BoardController.FindLayer | src/BoardController.js:478-486 | returns the first layer with that id, or null exactly when none has it, and changes nothing; with ids equal to positions this is `layers[id]` |
| Board.BoardController.SelectLayer | src/BoardController.js:495-503 | the current layer becomes the layer with that id or null; the current tool is re-armed with it at the current scale; the result is its info, or a TypeError for an unknown id |
| Board.BoardController.AddLayer | src/BoardController.js:467-476 | the new layer has id equal to the old count and name "layer N"; it is appended, the count grows by one, it becomes current and is returned; the other layers' infos are unchanged |
| Board.BoardController.SetBlackLevelToSelectedLayer | src/BoardController.js:512-519 | without a current layer nothing changes and nothing is returned; otherwise only that layer's black level becomes `val*0.01`, the tool is notified once, and its info is returned |
| Board.BoardController.SetWhiteLevelToSelectedLayer | src/BoardController.js:528-535 | without a current layer nothing changes and nothing is returned; otherwise only that layer's white level becomes `val*0.01`, the tool is notified once, and its info is returned |
| Board.BoardController.SetColorToSelectedLayer | src/BoardController.js:586-590 | without a current layer a TypeError and no change; otherwise only that layer's colour changes, the tool is notified once, and its info is returned |
| Board.BoardController.MouseDown | src/BoardController.js:374-382 | records the click point and forwards the press to the current tool, if any |
| Board.BoardController.MouseUp | src/BoardController.js:384-391 | forwards the release to the current tool, if any, and always clears the click point |
| Board.BoardController.MouseMove | src/BoardController.js:392-402 | with a tool, forwards the move and changes nothing else; without one and with a click point, pans by the offset from it and records the new point; otherwise nothing |
| Board.BoardController.ZoomIn | src/BoardController.js:411-420 | the scale rises by exactly `delta*0.01` and the content point under the cursor stays there |
| Board.BoardController.ZoomOut | src/BoardController.js:422-439 | the transform is one clamped zoom-out step: never below `minScale`, pinned with pivot and position kept when it would reach it, otherwise about the cursor |
| Board.BoardController.OnScrollE | src/BoardController.js:299-308 | a negative wheel delta zooms in by its magnitude, any other zooms out by it |
| Board.BoardController.TouchStart | src/BoardController.js:310-331 | one touch queues a deferred press at the touch under a fresh handle and stores that handle in the timer field, so an earlier pending press is left orphaned; more touches remove only the press of the stored handle from the queue; exactly two open a pinch session |
| Board.BoardController.FireTap | src/BoardController.js:314-319 | the timer fires: its press is removed from the queue and becomes a mouseDown at the recorded touch |
| Board.BoardController.TouchMove | src/BoardController.js:333-360 | one touch acts as a mouse move; two touches with an open session apply the pinch step, scaling by the distance ratio, and keep the new session; otherwise nothing changes |
| Board.BoardController.TouchEnd | src/BoardController.js:362-368 | the pinch session is closed and the tool gets a release with null coordinates |
| Board.BoardController.TouchStartSingleTimer | src/BoardController.js:310-331 | touchStart with the stored timer cancelled first: one touch then queues its press under a fresh handle, which the timer field stores; other touches leave the queue without the stored handle; exactly two open a pinch session; at most one press is ever pending, and a second touch leaves none |
| Scenarios.AddLayers | src/BoardController.js:467-486 | `n` calls of addLayer on a fresh controller yield the ids 0..n-1 in order, and findLayer resolves every one |
| Scenarios.BlackLevelOfNewLayer | src/BoardController.js:512-519 | black level 50 on the freshly added and selected layer 0 reports 0.5 |
| Scenarios.ZoomOutToFloor | src/BoardController.js:422-432 | wheel zoom-outs far past the floor leave the scale at exactly `initScale * 0.3` |
| Scenarios.OrphanTapSurvivesPinch | src/BoardController.js:310-331 | with the brush armed on a new layer, tap, lift, tap, then pinch: one deferred press is still pending while the pinch runs, and when it fires the brush receives a paint press at the first touch during the pinch |
| Scenarios.SingleTimerCancelsTap | src/BoardController.js:310-331 | the same touches with the corrected touchStart leave no press pending |

## Left out

- PIXI scene building and rendering (`startPixi`, `buildContainer`, `getCanvasResult`, the UI render texture) are not modelled. They are calls into a rendering engine whose source is not part of this model.
- Image loading (`loadImage`) and the drawing in `buildBaseCanvas` are not modelled. They are asynchronous DOM I/O. The controller's constructor takes the resulting fit-to-container scale and position as parameters.
- The magnifying glass (`showGlass`, `hideGlass`, `switchGlass`, and the glass update at the end of `mouseMove`) is not modelled. It is a UI overlay.
- Tool internals are not modelled. Tools are opaque ids with a call log.
- The wrappers that only forward to a tool or the selection controller are not modelled: `setBrushSize`, `setBrushHardness`, `setBrushToAdd`/`setBrushToRemove`, `setMagicWandTolerance`, `fillMagicWand`, `setMagicWandToAdd`/`setMagicWandToRemove`, `applyMagicWandToSelectedLayer`, `getToolsValues` and `clearSelection`.
- `setHueToSelectedLayer`, `setSaturationToSelectedLayer` and `setBrightnessToSelectedLayer` are not modelled. Their HSV-to-RGB conversion lives in a utility module that is not part of this model. Each reads the current layer's HSV colour and then calls `setColorToSelectedLayer`, which is modelled.
- Touch positions are given as inputs, and so are the pinch midpoint and distance. The `getPositionFromTouch`, `middlePoint` and `distance2d` helpers are not part of this model.
- `touchCancel` only logs, and `console.log` output is not modelled.
- The real 100 ms delay is not modelled. A timer fires only through the explicit `FireTap` event.
- JavaScript floating point is not modelled. Scale and position arithmetic is on exact reals, and `val * .01` is `val * 0.01` exactly.
- The tool registry is not modelled. `setTool` takes a `ToolId` or none. An unknown tool name, which makes `TOOLS[tool]` undefined, and the registry before the photo is loaded, are outside the model.
- Some layer details are not modelled: the `Layer` class's initial colour and levels, its textures, and the hex/RGB/HSV forms in `info`. A layer is created with its id and name and otherwise unconstrained fields.
- Board.BoardController.ZoomIn: requires the new scale to stay positive. `onScrollE` only passes positive deltas, but a direct call with a large negative delta would drive the scale to zero or below, and the model's invariant keeps it positive.
- Board.BoardController.TouchMove: requires a positive new distance for a pinch. A zero new distance makes the ratio 0 and sets the scale to exactly 0 (src/BoardController.js:348-354). The model's invariant keeps the scale positive, and the next `toLocal` or pinch step in the source would then divide by zero.
- Board.BoardController.TouchStart: requires a positive distance when two touches open a session. A session with distance 0 would make the next pinch step divide by zero at src/BoardController.js:348.
- Board.BoardController.TouchStartSingleTimer: requires the same positive distance as `TouchStart`.
- Tools are assumed never to call back into the controller while it forwards an event. Each tool is built with a reference to the controller (src/BoardController.js:135-141), but what a tool does with it is not part of this model.
- BaseCanvas.DownscaleFactor: requires a positive image width and height. For an image with a zero side and a limit in force, the source would divide by zero at src/BoardController.js:111-112.
- Board.BoardController.TouchMove: states the pinch update only through `PinchStep` and its scale ratio. What the pinch does to every point is proved about `PinchStep` in `Geometry.PinchFollowsFingers`, not restated in the method's contract.

## Findings

| source | as written | input that shows it | evidently intended | confidence | as-written member | corrected member |
|---|---|---|---|---|---|---|
| src/BoardController.js:312-326 | a single touch stores the new `setTimeout` handle over the old one without clearing the old timer, and a later second touch cancels only the stored handle | touch and lift one finger, touch again within 100 ms, then put down a second finger: the first deferred press still fires during the pinch and sends a paint press to the tool | a second touch cancels every pending deferred press, so at most one is ever pending | not executed | Scenarios.OrphanTapSurvivesPinch | Board.BoardController.TouchStartSingleTimer |
