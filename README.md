# Locomotion and region logic of methlab-3js

methlab-3js is a three.js walkthrough of a virtual lab. This project models the logic under its rendering:

- **The point-in-polygon test.** `isPointInsidePolygon` is a ray-crossing even-odd test with an inclusive boundary. It decides whether a ground position lies in a walkable, interactive or teleport region. A region is a list of polygons, and each vertex is a configuration triple `[x, y, z]` of which only x and z are read.
- **The continuous-heading controller.** It exists as `KeyboardControl` and an older copy, `KeyboardController`. On every frame it:
  - picks Idle or Walking from the held keys;
  - cross-fades the animation clips and switches the walk sound when the action changes;
  - aims the model along an 8-way key direction;
  - commits a step only if it stays in the walkable region, moving the camera by the same amount.
- **The discrete-compass avatar (`pages/avatar.js`).** Its heading is one of N, E, S or W. It turns in quarter or half turns and steps forward. All of this goes through a FIFO instruction queue that runs one instruction at a time and survives instructions that throw.
- **The box tests of `World`.** These are axis-aligned checks on interactive and teleport regions.

Modules:

- `Wrappers`: `Option` and `Result`.
- `Utils`: the key and action constants.
- `Raycasting`: the polygon test. A recursive specification `Scan`, the loop `IsPointInsidePolygon` proved equal to it, and lemmas that characterise it as "touches the boundary, or crosses an odd number of edges".
- `Regions`: configuration polygons and the "any polygon" disjunction.
- `Config`: world 0's regions as fixtures.
- `KeyboardControl`: the controller. Its state is the datatype `Controller`, one frame is the function `Frame`, and the class `KeyboardControl` has methods proved to implement those functions.
- `Avatar`: the compass avatar. Its state is the datatype `AvatarState`, and its steps are `Processed`, `Settled`, `AfterKeyDown` and `AfterKeyUp`. The class `Avatar` mirrors them. The invariant `Valid` is kept by every step.
- `World`: the box tests.

Coordinates are `real`, so the source's exact `===` comparisons are exact here as well. The three copies of `isPointInsidePolygon` are textually identical: `lib/math/Raycasting.js:15-46`, `lib/utils.js:10-41` and `pages/utils.js:17-48`. One Dafny definition models all three, and the table cites whichever copy states each property. The direction offset is counted in eighths of a turn (π/4 units), with positive values to the left.

The asynchronous queue is modelled as explicit steps:

- `ProcessInstructionQueue` takes the front instruction and runs it up to its first `await`.
- `Settled` stands for that `await` resolving. For a turn, that is the animation's `finished` event. It runs the continuation, or logs the error when the instruction rejected. It then clears the busy flag and starts the next instruction. Whether an instruction rejected is an input to this step.

## Model

| member | source | states |
|---|---|---|
| Utils.ConstantsAreDistinct | lib/utils.js:1-8 | `DIRECTIONS` is exactly `["w","a","s","d"]`, the four keys are distinct, and `IDLE !== WALKING` |
| Utils.DirectionPressedIsAnyOfWasd | lib/KeyboardController.js:63 | "some of DIRECTIONS is pressed" holds iff w, a, s or d is held |
| Raycasting.ClassifyEdge | lib/math/Raycasting.js:19-40 | one edge's verdict, with the source's checks in order: boundary when the point is strictly inside a horizontal edge, equals the edge's first vertex, or meets the edge inside its y-band; a crossing when `point.x <= xinters` or the edge is vertical; otherwise nothing |
| Raycasting.Scan | lib/utils.js:13-40 | the loop as a recursion over edges: any boundary edge answers true at once, otherwise the answer is whether the crossings counted are odd |
| Raycasting.IsPointInsidePolygon | lib/math/Raycasting.js:15-46 | the loop with its counter and early returns computes exactly the recursive scan `Inside`; an empty vertex list gives false |
| Raycasting.ScanIsBoundaryOrOddCount | lib/math/Raycasting.js:18-45 | a scan from any edge with any count so far answers true iff a later edge is a boundary hit or the final count is odd |
| Raycasting.InsideIsBoundaryOrOddCrossings | lib/math/Raycasting.js:38-45 | the test is true iff some edge is a boundary hit or the number of crossed edges is odd |
| Raycasting.BoundaryCases | lib/math/Raycasting.js:23-37 | an edge counts as boundary iff the point is strictly inside it while horizontal, or equals its first vertex, or lies on the edge's line within its y-band |
| Raycasting.CrossingIsStrictlyRightOfPoint | lib/math/Raycasting.js:33-40 | a counted crossing has a non-horizontal edge, so the division has a non-zero divisor, and its intersection lies strictly right of the point |
| Raycasting.VerticalEdgeTestIsSubsumed | lib/math/Raycasting.js:38 | on a vertical edge in the band, `point.x <= xinters` already holds whenever `xinters !== point.x`, so the `vertex1.x === vertex2.x` disjunct never changes the count |
| Raycasting.VertexIsInside | lib/utils.js:23-25 | a point equal to any vertex is inside, whatever the earlier edges say |
| Raycasting.HorizontalEdgeInteriorIsInside | pages/utils.js:25-27 | a point strictly inside a horizontal edge at its height is inside |
| Raycasting.SlopedEdgePointIsInside | lib/utils.js:28-32 | a point on a non-horizontal edge's line within its y-band and x-extent is inside |
| Raycasting.BoundaryEdgeMeansInside | lib/math/Raycasting.js:23-37 | any edge classified as boundary makes the answer true |
| Raycasting.NoHitsMeansOutside | lib/math/Raycasting.js:38-45 | with no boundary hit and no crossing the answer is false |
| Raycasting.EmptyPolygonIsOutside | pages/utils.js:20-47 | an empty vertex list is outside |
| Raycasting.RightOfAllVerticesIsOutside | lib/utils.js:18-40 | a point right of every vertex is outside |
| Raycasting.AboveAllVerticesIsOutside | pages/utils.js:25-47 | a point above every vertex is outside |
| Raycasting.BelowAllVerticesIsOutside | lib/math/Raycasting.js:23-45 | a point below every vertex is outside |
| Raycasting.ClosingVertexIsHarmless | lib/math/Raycasting.js:20-43 | appending a copy of the first vertex, as the configuration does, never changes the answer |
| Raycasting.RectangleIsClosedBox | lib/math/Raycasting.js:15-46 | on an axis-aligned rectangle in configuration order the test is exactly the closed box |
| Raycasting.SquareExamples | pages/utils.js:17-48 | on the square (0,0),(2,0),(2,2),(0,2),(0,0): (1,1) in, (3,3) out, (0,1) in, (0,0) in |
| Regions.Planar | lib/KeyboardController.js:102-104 | vertex `[x, y, z]` becomes `{x, y: z}`, element by element |
| Regions.AnyPolygonContains | lib/KeyboardController.js:97-112 | the loop over the whitelist returns true iff some polygon contains the point |
| Regions.EmptyListIsOutside | lib/gameplay/KeyboardControl.js:116-131 | an empty whitelist gives false |
| Regions.InsideAnyOfConcat | lib/gameplay/KeyboardControl.js:119-128 | the region check over two lists is the OR of the checks over each |
| Regions.EmptyPolygonContributesNothing | lib/gameplay/KeyboardControl.js:133-148 | an empty polygon anywhere in a whitelist changes nothing |
| Regions.RectangleRegionIsClosedBox | config.js:64-73 | a configured rectangle contains exactly its closed box |
| Config.World0WalkableIsBox | config.js:48-60 | world 0's walkable region, a rectangle plus an empty polygon, is exactly [-0.8, 0.6] × [-0.6, 8] |
| Config.World0StartIsWalkable | config.js:93 | the initial position (0, 0, 0) is walkable |
| KeyboardControl.DirectionOffset | lib/KeyboardController.js:163-176 | the offset is one of the eight eighths -3..4 |
| KeyboardControl.DirectionOffsetTable | lib/gameplay/KeyboardControl.js:216-229 | the nine entries: w 0, w+a 1, w+d -1, s 4, s+a 3, s+d -3, a 2, d -2, none 0 (eighths of a turn) |
| KeyboardControl.DirectionOffsetPrecedence | lib/KeyboardController.js:164-175 | w overrules s, a overrules d, and keys other than w, a, s, d are ignored |
| KeyboardControl.OffsetPointsWhereKeysPoint | lib/gameplay/KeyboardControl.js:217-228 | the offset's direction is exactly the (forward, leftward) the keys ask for, after precedence; no direction gives 0 |
| KeyboardControl.FrameWalksIffDirectionPressed | lib/gameplay/KeyboardControl.js:81-89 | after a frame the action is Walking iff a direction key is held; with none held, model and camera stay put |
| KeyboardControl.CrossFadeOnlyOnChange | lib/KeyboardController.js:76-89 | with the action unchanged nothing happens; cross-fading is idempotent and leaves the requested action current |
| KeyboardControl.CrossFadeOnChange | lib/gameplay/KeyboardControl.js:95-108 | a change fades the old clip out once and the new clip in once (each skipped if missing), plays the walk sound iff entering Walking, and changes nothing else |
| KeyboardControl.FadesCountTransitions | lib/gameplay/KeyboardControl.js:81-108 | over any run of frames, fade-ins and fade-outs each equal the number of Idle/Walking transitions |
| KeyboardControl.RejectedMoveKeepsPositions | lib/KeyboardController.js:138-142 | a candidate outside the walkable region leaves model, camera and camera target unchanged |
| KeyboardControl.RepeatedRejectionKeepsPositions | lib/gameplay/KeyboardControl.js:190-194 | any number of frames repeating a rejected input leave model and camera where they were |
| KeyboardControl.CommittedMoveShiftsModelAndCamera | lib/KeyboardController.js:150-156 | a committed step shifts model and camera by the same displacement, targets the point one unit above the model, and the orbit target equals the camera target |
| KeyboardControl.FrameKeepsInvariants | lib/gameplay/KeyboardControl.js:203-209 | every frame keeps the camera-to-model x/z offset and the camera's height, keeps the camera following the model, and never plays the walk sound while idle |
| KeyboardControl.InitialState | lib/KeyboardController.js:41-42 | after construction, including `updateCameraTarget(0, 0)`, model and camera are where they were given, the camera target is one unit above the model, and no walk sound plays while idle |
| KeyboardControl.CrossFade | lib/gameplay/KeyboardControl.js:95-108 | on an action change: fade out the current clip and reset/fade in/play the next (each only if the clip exists), play the walk sound when entering Walking and stop it otherwise, and record the new action; no change does nothing |
| KeyboardControl.WalkStep | lib/gameplay/KeyboardControl.js:172-196 | aim the model at the key offset, then move model and camera by the frame's displacement and re-aim the camera target, only if the candidate position is walkable |
| KeyboardControl.Frame | lib/KeyboardController.js:62-70 | pick the action from the held keys, cross-fade, advance the mixer, and take a walk step only when walking |
| KeyboardControl.KeyboardControl.constructor | lib/gameplay/KeyboardControl.js:40-66 | the new controller's state is `Initial` |
| KeyboardControl.KeyboardControl.Update | lib/gameplay/KeyboardControl.js:81-89 | the new state is `Frame` of the old state and the inputs |
| KeyboardControl.KeyboardControl.ChangeAnimationIfNeeded | lib/KeyboardController.js:76-89 | the new state is `CrossFade` of the old |
| KeyboardControl.KeyboardControl.HandleWalkingMovement | lib/gameplay/KeyboardControl.js:172-196 | the new state is `WalkStep`: the aim is set, and the step is committed iff the candidate is walkable |
| KeyboardControl.KeyboardControl.UpdateCameraTarget | lib/KeyboardController.js:150-156 | the new state is `CameraFollowed` of the old |
| KeyboardControl.KeyboardControl.IsModelInsideWalkableRegions | lib/KeyboardController.js:97-112 | read-only; true iff some walkable polygon contains the point |
| KeyboardControl.KeyboardControl.IsModelInsideInteractiveRegions | lib/gameplay/KeyboardControl.js:133-148 | read-only; true iff some interactive polygon contains the point |
| KeyboardControl.KeyboardControl.IsModelInsideTeleportRegions | lib/gameplay/KeyboardControl.js:150-165 | read-only; true iff some teleport polygon contains the point |
| Avatar.DirectionDifferenceProperties | pages/avatar.js:505-530 | between two compass points the difference is defined, within ±315 degrees, antisymmetric, and zero iff the points coincide; it is missing (NaN) for the heading 'front' or for a key with no direction |
| Avatar.RequiredTurnLandsOnTarget | pages/avatar.js:532-563 | between cardinal points there is no turn iff heading equals target, and a turn's degrees carry the heading onto the target modulo 360 |
| Avatar.RequiredTurnRotatesOntoTarget | pages/avatar.js:416-429 | a rotation whose label is the heading, changed by the required turn's quarter turns (-π/2, +π/2, +π), has the target as its label |
| Avatar.DuplicateBranchIsUnreachable | pages/avatar.js:538-542 | `turnBack` comes only from ±180, so the second `=== 90` branch never fires; only the listed differences give a turn |
| Avatar.KeyCompassTable | pages/avatar.js:571-584 | w maps to N, a to W, s to S, d to E; other keys map to no direction |
| Avatar.NormaliseKeysProperties | pages/avatar.js:587-593 | afterwards w and s, or a and d, are never both held; only s or d is dropped; "a direction is held" is unchanged |
| Avatar.EnqueueAppends | pages/avatar.js:195-198 | enqueuing adds exactly the new instruction at the back of the pending ones |
| Avatar.ProcessingKeepsOrder | pages/avatar.js:200-212 | processing while busy or with nothing queued changes nothing; otherwise the front instruction goes in flight with the flag set, in the same order |
| Avatar.SettlePops | pages/avatar.js:210-220 | settling removes the front pending instruction whether it rejected or not, logs each rejection once, clears the flag and starts the next |
| Avatar.DrainRunsInOrder | pages/avatar.js:195-221 | with no new events the pending instructions settle exactly in submission order, rejections are logged and do not stop the drain, and the queue ends idle and empty |
| Avatar.RejectionDoesNotStopDrain | pages/avatar.js:210-220 | a failing first instruction still lets the second one run |
| Avatar.InitialIsValid | pages/avatar.js:35-52 | the constructed avatar satisfies the invariant with nothing pending |
| Avatar.LoadKeepsValid | pages/avatar.js:180-181 | loading sets the heading to N and keeps the invariant |
| Avatar.EnqueueKeepsValid | pages/avatar.js:195-198 | enqueuing an instruction the state allows keeps the invariant |
| Avatar.ProcessedKeepsValid | pages/avatar.js:200-221 | processing restores the queue shape and keeps the rest of the invariant |
| Avatar.SettleKeepsValid | pages/avatar.js:602-606 | settling keeps the invariant; a completed turn sets `heading` to its target and turns the rotation by the same quarter turns, so heading and rotation stay in step |
| Avatar.KeyDownKeepsValid | pages/avatar.js:565-631 | a key press keeps the invariant, including at most one pending turn while `turning` is set |
| Avatar.KeyUpKeepsValid | pages/avatar.js:633-647 | a key release keeps the invariant |
| Avatar.KeyDownNeverTurnsAndWalks | pages/avatar.js:599-629 | a key press appends exactly one of: nothing; one turn, only when none was under way, towards the key's direction, with `turning` then set; a lone step when already walking; or a walk start then a step when not. Opposing keys are never both held afterwards |
| Avatar.OpposingKeyStillTurns | pages/avatar.js:587-608 | pressing s while w is held drops s, yet the turn towards south is still enqueued |
| Avatar.TurningBlocksKeyDown | pages/avatar.js:599-611 | while `turning` is set a key press enqueues nothing |
| Avatar.UnloadedKeyDownEnqueuesNothing | pages/avatar.js:611-614 | before load a key press enqueues nothing |
| Avatar.RejectedTurnBlocksLaterKeys | pages/avatar.js:599-608 | a rejected turn skips its continuation, so `turning` stays set and later key presses enqueue nothing |
| Avatar.KeyUpStopsWalking | pages/avatar.js:633-647 | releasing the last held direction enqueues a walk stop at the back; otherwise nothing is enqueued; the key is no longer held |
| Avatar.TurnScenario | pages/avatar.js:599-608 | headed N, pressing d starts a right turn at once; when it settles the heading is E, the rotation a quarter turn further, and `turning` is cleared |
| Avatar.BegunTurnKeepsRotation | pages/avatar.js:389-429 | a key press never changes heading or rotation by itself; only a settled turn does |
| Avatar.TranslateCommitsOnlyWalkableSteps | pages/avatar.js:458-497 | a step is committed iff the candidate is in the walkable polygon and unblocked, so an avatar inside never steps out; a blocked step changes nothing |
| Avatar.KeyDownStaysWalkable | pages/avatar.js:611-629 | no key press takes the avatar off walkable ground |
| Avatar.KeyUpStaysWalkable | pages/avatar.js:633-647 | no key release takes the avatar off walkable ground |
| Avatar.SettleStaysWalkable | pages/avatar.js:200-221 | no settled instruction takes the avatar off walkable ground |
| Avatar.QuarterHeading | pages/avatar.js:505-517 | the label the turn arithmetic gives any rotation in quarter turns is a cardinal point |
| Avatar.KeyCompass | pages/avatar.js:571-584 | a key's direction, when it has one, is cardinal |
| Avatar.Begun | pages/avatar.js:389-412 | an instruction up to its first `await`: a turn stops the walk clip; a walk start plays the sound and starts the walk clip; a step translates; a walk stop stops the sound and the walk clip (lines 616-628, 640-645). Before load the clip and step calls throw, so only the sound changes |
| Avatar.Completed | pages/avatar.js:603-606 | after a turn's `await`: the rotation changes by the turn (lines 416-429), the heading becomes the target, and `turning` is cleared; other instructions have nothing after their `await` |
| Avatar.KeyDownInstructions | pages/avatar.js:596-629 | what a key press enqueues: the required turn, when one is needed and none is under way; nothing, when one is needed but another is under way; otherwise the walk part |
| Avatar.WalkInstructions | pages/avatar.js:610-629 | the walk part of a key press: nothing while turning, with no direction held, or before load; otherwise a step, preceded by a walk start unless already walking |
| Avatar.Avatar.Continue | pages/avatar.js:210-215 | what follows an instruction's `await`: a rejection is caught and logged, or a completed turn runs its continuation (lines 603-606); queue and busy flag are untouched |
| Avatar.Avatar.constructor | pages/avatar.js:8-78 | the new avatar's state is `Initial` |
| Avatar.Avatar.Load | pages/avatar.js:79-193 | the new state is `Loaded`: idle playing, heading N |
| Avatar.Avatar.EnqueueInstruction | pages/avatar.js:195-198 | the new state is `Enqueued` |
| Avatar.Avatar.ProcessInstructionQueue | pages/avatar.js:200-212 | the new state is `Processed` |
| Avatar.Avatar.Begin | pages/avatar.js:598-629 | the new state is `Begun`: each instruction's effects up to its first `await` |
| Avatar.Avatar.ToggleWalking | pages/avatar.js:227-250 | the walk clip runs iff `state`; before load, nothing changes |
| Avatar.Avatar.InstructionSettled | pages/avatar.js:207-220 | the new state is `Settled` |
| Avatar.Avatar.CompleteTurnTo | pages/avatar.js:416-429 | the rotation changes by exactly -1, +1 or +2 quarter turns for left, right and back |
| Avatar.Avatar.TranslateAvatarZ | pages/avatar.js:458-497 | the new state is `Translated`: commit-or-reject |
| Avatar.Avatar.IsInTheInteractiveRegion | pages/avatar.js:329-345 | before load the model is null (line 10) and the call fails with a TypeError; after load it answers whether the interactive polygon contains the model's position |
| Avatar.Avatar.HandleKeyDown | pages/avatar.js:565-631 | the new state is `AfterKeyDown` |
| Avatar.Avatar.PressKey | pages/avatar.js:567-593 | the pressed key is added to the held keys, then `s` is dropped if `w` is held and `d` is dropped if `a` is held |
| Avatar.Avatar.EnqueueWalkIfFree | pages/avatar.js:610-629 | the new state enqueues exactly `WalkInstructions` |
| Avatar.Avatar.HandleKeyUp | pages/avatar.js:633-647 | the new state is `AfterKeyUp` |
| World.BoxTest | lib/gameplay/World.js:252 | one region's test, read left to right with short-circuit `&&`: `false` at the first failed bound, a TypeError when a needed vertex is missing |
| World.AnyBox | lib/gameplay/World.js:249-257 | the loop over the regions: the first region whose test is true gives true, the first TypeError ends the loop, and false when none matches |
| World.BoxTestIsClosedBox | lib/gameplay/World.js:252 | on a region with three or more vertices the test never fails and is the closed box of vertices 0, 1 and 2 |
| World.AnyBoxIsSomeBox | lib/gameplay/World.js:244-258 | over well-formed regions the check is true iff some region's box contains the player |
| World.EmptyRegionListIsOutside | lib/gameplay/World.js:260-274 | an empty region list gives false |
| World.OnlyFirstThreeVerticesMatter | lib/gameplay/World.js:268 | vertices after the third, the closing one included, have no effect |
| World.CornersAreInside | lib/gameplay/World.js:252 | the bounds are inclusive: all four corners are inside |
| World.ShortRegionErrors | lib/gameplay/World.js:249-253 | for regions of 0, 1 and 2 vertices, the check throws a TypeError exactly when the short-circuit `&&` reaches a missing vertex: 0 vertices always; 1 vertex when `x >= region[0].x`; 2 vertices when `region[0].x <= x <= region[1].x` and `z >= region[0].z`. Otherwise the short region is passed over and the next one is tried |
| World.BoxTestAgreesWithPolygonTest | lib/gameplay/World.js:252 | on a rectangle in configuration order the box test equals the polygon test |
| World.World0TestsAgree | lib/gameplay/World.js:244-274 | on world 0 the box checks and the controller's polygon checks agree everywhere |
| World.World0InteractiveExamples | lib/gameplay/World.js:244-258 | world 0: (0, 3) is in the interactive box, (0, 0) is not, and (0, 6) is in the teleport box |
| World.ScanBoxes | lib/gameplay/World.js:249-257 | the indexed loop returns what `AnyBox` specifies: the first hit, the first error, or false |
| World.World.IsPlayerInsideInteractiveRegion | lib/gameplay/World.js:244-258 | read-only; the interactive check at the player's position |
| World.World.IsPlayerInsideTeleportRegion | lib/gameplay/World.js:260-274 | read-only; the teleport check at the player's position |

## Left out

- SettleKeepsValid: "heading and rotation stay in step" relates the source's `heading` label to the count of quarter turns `turnTo` adds to `rotation.y`. It does not say which world direction the model faces. three.js turns a positive `rotation.y` counter-clockwise seen from above, and the model's own forward axis after its load-time `rotateY(π)` is not modelled. So nothing here says whether the label E is the world's +x or -x, nor whether a "right" turn looks like one on screen.
- QuarterHeading: it names the label the turn arithmetic gives a rotation, not the direction the model faces, for the same reason.
- RequiredTurnRotatesOntoTarget: it lands the label on the target, not the physical facing, for the same reason.
- The avatar needs a configuration that the source's configuration files do not give it. The model assumes `config.avatar` defines `modelPath`, the sound settings, and the clips `idle`, `walking`, `turnLeft`, `turnRight` and `turnBack`. The root `config.js`, which `pages/avatar.js` imports, has no `avatar` key, so the constructor would throw reading `config.avatar.modelPath` (pages/avatar.js:14). `pages/config.js:25-28` names only the `idle` and `walk` clips, so the lookup of the walking clip (pages/avatar.js:163) would throw before the heading is set. With either file the source never reaches the loaded state modelled by `Loaded`.
- `pages/avatar.js` imports its polygon test from `../utils/math.js`, which is not part of this model. The model assumes it is the same ray-crossing test as the three copies modelled here. Its `config` import is the root `config.js`.
- Floating point is not modelled. The model uses exact reals. The source compares IEEE doubles with `===`, so `xinters` can round differently there.
- The trigonometry of the continuous controller is left out: `atan2`, the quaternion `rotateTowards`, `getWorldDirection`, `normalize` and `applyAxisAngle`. The displacement `(moveX, moveZ)` is an input of each frame. The model records the offset the model is turned towards, not its gradual rotation.
- `mixer.update(delta)` is abstracted as a running total `mixerTime`. Animation weights and blending are not modelled.
- Audio is a boolean. The listener, buffers and volume (`setVolume`) are left out. The same holds for the React state passed to `KeyboardControl`.
- The avatar's camera is left out: the lerp in `updateCamera` and `setInitialCameraPosition`, bounding-box centres, orbit-control limits and `lookAt`.
- `translateZ(-speed)` is left out: it depends on the model's quaternion. Its ground displacement is an input (`Surroundings`). The raycaster obstacle test is an input boolean `blocked`.
- The avatar's initial `rotateY(π)` is left out. `turnQuarters` counts only what `turnTo` adds to `rotation.y`, starting from 0 at load.
- Avatar.Avatar.CompleteTurnTo: an unknown direction name cannot be passed, so the "Invalid direction" early return is not representable.
- Async scheduling is reduced to two explicit steps, start and settle. Microtask interleaving with other handlers is not modelled.
- Whether an instruction rejects is an input of `Settled`, not derived from the instruction.
- An instruction that rejects after partial effects has its first-part effects kept and its continuation skipped. Effects that happen between its `await`s are not modelled further.
- The rejected promises of `handleKeyDown` and of unawaited calls before load are modelled only as "no further effect". They are never caught.
- Key names are taken as already lower-case. `toLowerCase` is not modelled.
- Loading is left out: GLTF/Draco/HDR loaders, scene and renderer setup, region line drawing, and `animate`/`requestAnimationFrame`.
- The UI is left out: `lib/interface/*`, the pages' React components and `lib/vendor/MethLab.js`.
- Dead or unused code is left out: `turnToOld`, `dispose`, `bindKeyEvents`, `whenAnimationFinished` (stood in for by `Settled`) and `lib/deprecated/PlayerPreview.js`.
- `lib/Level.js` is left out. Its only logic is the one-line `isPlayerWalking` comparison.
- `config.js` and `pages/config.js` are data. Only world 0's regions are used, as fixtures.
- Model aliasing is not captured. In the source, `World`'s `player` and the controller's `model` are the same object; here they are separate fields.
- KeyboardControl.KeyboardControl.constructor: the regions are passed in directly rather than looked up by world ID in the configuration.
