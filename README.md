# RubikCube: a verified model of the cube's integer logic

This project models the core of a browser Rubik's cube, with the Three.js
rendering taken out. What is left is integer and ordering logic:

- **Lattice** (`lattice.dfy`): each cubie has an index triple
  `(leftRight, downUp, backFront)` in `[0, size-1]^3`. The quarter-turn rule
  of `commitCubieIndex` rewrites it, one rule per axis and per sign of the
  direction. `LayerTurn` turns one whole layer of triples. The model proves
  what the rules keep: the range, the axis coordinate, the inverse
  direction, order four, and the triple -> cubie bijection.
- **Constants** (`constants.dfy`): the frozen enums `FACES`, `AXES` and
  `DRAG_AXIS`, and the tables `FACE_TO_AXIS`, `FACE_TO_SIGN` and
  `AXIS_TO_INDEX_KEY`.
- **Cubes** (`rubik_cube.dfy`): the `RubikCube` class. Its three nested
  loops append one fresh cubie per triple, in lexicographic order. Each cubie
  is coloured by the boundary faces it lies on. `dispose` and `rebuild`
  discard the cubies and build a fresh grid.
- **Layers** (`layer_manager.dfy`): the `LayerManager` class.
  - the layer filter;
  - the rotation group that collects a layer's meshes;
  - the draining loop that gives back the group's cubies;
  - the in-place index commit.
- **Raycast** (`raycast_helper.dfy`): the face and axis a world-space normal
  points along, the layer of a picked cubie, and the rotation info read off
  a hit.
- **Rotation** (`rotation_manager.dfy`): the `RotationManager` class, the
  interaction state machine.
  - It holds the flags `enabled`, `locked` and `isRotating`, the `active`
    and `drag` records, the animation record and the rotation group.
  - Pointer events start a gesture and decide its drag axis against a
    6-pixel threshold.
  - `update` animates the turn and commits it at the target, with one
    history push.
  - `undo` and `redo` replay history moves instantly.

Three parts of the original are abstract here:

- The drag resolver is a function-typed field `resolve`.
- The history manager is a small `History` class. It records every call made
  to it. What `undo()` and `redo()` answer is a fixed function of those calls.
- Ray casting is replaced by parameters: `PointerDown` gets the hit mesh,
  its world-space face normal and the camera's right and up vectors.

The animation angle is kept in degrees. A quarter turn is 90 and the speed is
360 per second, the original's `PI/2` and `2*PI` radians rescaled. Angles are
exact real numbers here, whereas the original accumulates floating-point
radians; "## Left out" says what that changes.

## Model

| member | source | states |
|---|---|---|
| Constants.AxisFromName | js/constants/index.js:16-20 | the `AXES` lookup: a string maps to an axis exactly when it is that axis's value (`'x'`, `'y'`, `'z'`); every other string maps to none |
| Constants.AxisNameRoundTrip | js/constants/index.js:16-20 | reading an axis's value back through the lookup gives the axis |
| Constants.AxesAreThree | js/constants/index.js:16-20 | `AXES` has exactly three values, with distinct strings |
| Constants.DragAxesAreTwo | js/constants/index.js:22-25 | `DRAG_AXIS` has exactly two values |
| Constants.OppositeFacesShareAxis | js/constants/index.js:27-43 | opposite faces are distinct and mutually opposite; they map to the same axis and to opposite signs |
| Constants.FaceSignsPerAxis | js/constants/index.js:27-43 | a face lies on axis `a` with sign +1 iff it is that axis's positive face, and with sign -1 iff it is the negative face; every sign is ±1 |
| Constants.IndexKeyToAxis | js/constants/index.js:45-49 | the inverse table: the axis it returns maps back to the given index key |
| Constants.AxisToIndexKeyBijective | js/constants/index.js:45-49 | `AXIS_TO_INDEX_KEY` is one-to-one, and `IndexKeyToAxis` is its inverse on both sides |
| Lattice.Turn | js/core/rotation/LayerManager.js:71-107 | one rule application leaves the coordinate along the rotation axis unchanged |
| Lattice.TurnOnlyMovesPlane | js/core/rotation/LayerManager.js:72-107 | X keeps `leftRight`, Y keeps `downUp`, Z keeps `backFront`, for every direction |
| Lattice.TurnInRange | js/core/rotation/LayerManager.js:69-107 | a triple in `[0, size-1]^3` stays in range under the rule with `max = size - 1` |
| Lattice.TurnInverse | js/core/rotation/LayerManager.js:74-106 | applying a direction `> 0` and then one `<= 0` (or the reverse) restores the triple; 0 counts as counter-clockwise |
| Lattice.TwoQuarterTurnsMakeHalfTurn | js/core/rotation/LayerManager.js:72-107 | two turns in the same direction mirror both plane coordinates, whichever the direction |
| Lattice.TurnOrderFour | js/core/rotation/LayerManager.js:72-107 | four applications of the same rule restore the triple |
| Lattice.TurnTimesKeepsAxis | js/core/rotation/LayerManager.js:68-113 | the rule taken `n` times keeps the coordinate along the rotation axis; taken no times, or for a key that is none of the table's own keys, it leaves the triple untouched |
| Lattice.TurnExampleY | js/core/rotation/LayerManager.js:84-90 | size 3, Y axis, direction +1: `(0,2,0)` becomes `(0,2,2)` |
| Lattice.TurnExampleYCorner | js/core/rotation/LayerManager.js:84-90 | size 3, Y axis, direction +1: `(2,2,2)` becomes `(2,2,0)` |
| Lattice.LayerTurn | js/core/rotation/LayerManager.js:110-112 | turning one layer gives the turned triple to each triple of that layer and keeps every other triple; the length is kept |
| Lattice.LayerTurnKeepsLayer | js/core/rotation/LayerManager.js:72-107 | for every layer value, a triple lies in it after the turn iff it did before |
| Lattice.LayerTurnPreservesBijection | js/core/rotation/LayerManager.js:68-113 | turning one whole layer keeps the triple -> cubie map a bijection onto `[0, size-1]^3`, for every layer and direction |
| Lattice.LayerTurnInverse | js/core/rotation/LayerManager.js:74-106 | turning a layer and then turning it back restores every triple of the cube |
| Lattice.LayerTurnOrderFour | js/core/rotation/LayerManager.js:72-107 | turning the same layer four times in one direction restores every triple |
| Cubes.CubieMaterialsFaces | js/objects/RubikCube.js:28-46 | six slots, ordered +X, -X, +Y, -Y, +Z, -Z; slot `i` is coloured iff the cubie lies on face `i`'s boundary, and then it has that face's colour |
| Cubes.MaterialsOfOppositeFaces | js/objects/RubikCube.js:28-38 | for size at least 2, no cubie is coloured on two opposite faces, and an interior cubie has no colour at all |
| Cubes.GridIndicesBijective | js/objects/RubikCube.js:55-85 | the triples the loops produce number `size^3` (none for `size <= 0`), are lexicographically sorted, and form a bijection onto `[0, size-1]^3` |
| Cubes.RubikCube.constructor | js/objects/RubikCube.js:6-19 | an absent option takes its default (3, 1, 0.05); the cube is built as a grid satisfying the grid invariant, every cubie newly allocated (so a caller may rotate it) and carrying the materials of its triple (`CubieMaterials`) |
| Cubes.RubikCube.CreateCubies | js/objects/RubikCube.js:51-90 | the old cubies stay in place; after them come newly allocated cubies carrying the grid's triples in loop order, each painted for its triple, with meshes distinct from all others |
| Cubes.RubikCube.CreateSlab | js/objects/RubikCube.js:56-88 | the middle loop appends the `size` columns of one `leftRight` slab, in order, as newly allocated cubies with meshes distinct from all earlier cubies |
| Cubes.RubikCube.CreateColumn | js/objects/RubikCube.js:57-87 | the inner loop appends newly allocated cubies `(leftRight, downUp, 0 .. size-1)`, each painted for its triple, with meshes distinct from all earlier cubies |
| Cubes.RubikCube.Dispose | js/objects/RubikCube.js:95-107 | the cubie list is empty afterwards |
| Cubes.RubikCube.Rebuild | js/objects/RubikCube.js:112-119 | each given option overwrites the current one and each absent one keeps it; the cubies become a `size^3` grid of newly allocated cubies satisfying the grid invariant, each cubie carrying the materials of its triple, so no earlier rotation or colouring survives |
| Layers.CubiesInLayerMembers | js/core/rotation/LayerManager.js:16-26 | `getCubiesInLayer` keeps a cubie iff it is in the list and its coordinate for `AXIS_TO_INDEX_KEY[axis]` equals `layer`, and keeps it as often as the list holds it |
| Layers.CubiesInLayerConcat | js/core/rotation/LayerManager.js:24-26 | the filter keeps list order: filtering `a + b` gives the filtered `a` followed by the filtered `b` |
| Layers.CubiesInLayerSnoc | js/core/rotation/LayerManager.js:24-26 | one more cubie at the end is kept iff it is in the layer |
| Layers.FindCubie | js/core/rotation/LayerManager.js:53 | `find` returns the first cubie with the mesh, or none exactly when no cubie has that mesh |
| Layers.FindCubieOfDistinct | js/core/rotation/RaycastHelper.js:52-54 | when no two cubies share a mesh, looking up a cubie's mesh finds that cubie |
| Layers.FoundCubiesOfMeshes | js/core/rotation/LayerManager.js:47-62 | looking up the meshes of cubies taken from a list with distinct meshes gives those cubies back, in order |
| Layers.LayerManager.CreateRotationGroup | js/core/rotation/LayerManager.js:31-42 | a new group holds the meshes of exactly the layer's cubies, in cubie-list order |
| Layers.LayerManager.FinishRotationGroup | js/core/rotation/LayerManager.js:47-62 | the group is drained to empty; the result is the cubie found for each former child, in child order, skipping children with no cubie |
| Layers.LayerManager.CommitCubieIndex | js/core/rotation/LayerManager.js:68-113 | each listed cubie's triple takes the rule of `rotateAxis` (with `max = size - 1`) once per time it is listed; a key that is none of `'x'`, `'y'`, `'z'` changes nothing; only listed cubies are modified |
| Layers.LayerSelection | js/core/rotation/LayerManager.js:16-26 | over cubies with distinct meshes, the layer filter holds each cubie of the layer exactly once and no other cubie |
| Layers.CommitIsLayerTurn | js/core/rotation/LayerManager.js:110-112 | committing a selection that holds each cubie of one layer once, and nothing else, turns the list's triples into `LayerTurn` of the old ones |
| Raycast.Abs | js/core/rotation/RaycastHelper.js:60-64 | `Math.abs`: non-negative and equal to the value or its negation |
| Raycast.DominantOfThree | js/core/rotation/RaycastHelper.js:66-69 | the `reduce` over x, y, z: an entry replaces the running maximum only when strictly greater |
| Raycast.Dominant | js/core/rotation/RaycastHelper.js:66-69 | the result of the `reduce` is the seed or one of the entries, and its value is at least the seed's and every entry's |
| Raycast.FaceMap | js/core/rotation/RaycastHelper.js:71-77 | `faceMap[key]`: the axis is `key`, the face lies on it, and it is the positive face exactly when the normal's component along `key` is `> 0` |
| Raycast.GetFaceFromNormal | js/core/rotation/RaycastHelper.js:59-78 | the chosen axis has the greatest absolute component, with ties going to the earlier of x, y, z (each axis case stated as an iff); the face is the positive one iff the component is `> 0`, the negative one iff `<= 0`; `FACE_TO_AXIS[face] == axis` |
| Raycast.ZeroNormalIsLeft | js/core/rotation/RaycastHelper.js:66-75 | the zero vector gives axis x and face LEFT |
| Raycast.FaceFromNormalShape | js/core/rotation/RaycastHelper.js:59-78 | two normals whose absolute components compare alike and whose components have the same signs get the same result |
| Raycast.FaceFromNormalScaleInvariant | js/core/rotation/RaycastHelper.js:59-78 | scaling the normal by a positive factor does not change the result |
| Raycast.GetLayerFromCubie | js/core/rotation/RaycastHelper.js:83-85 | the layer returned holds the cubie (its coordinate under `AXIS_TO_INDEX_KEY[axis]`), and it lies in `[0, size-1]` whenever the triple does |
| Raycast.ExtractRotationInfo | js/core/rotation/RaycastHelper.js:37-47 | the cubie is one of the cube's, and it owns the hit mesh; face and axis are those of the normal; the layer is the picked cubie's coordinate along that axis |
| Rotation.History.Push | js/core/RotationManager.js:281-285 | the history is told of exactly one more push, of the move given |
| Rotation.History.Undo | js/core/RotationManager.js:95 | the history is asked for an undo once; its answer is returned |
| Rotation.History.Redo | js/core/RotationManager.js:102 | the history is asked for a redo once; its answer is returned |
| Rotation.QuarterTurnFrames | js/core/RotationManager.js:77-91 | in exact real arithmetic at a frame time of 1/60 s, a step is 6 degrees and a quarter turn ends on the 15th frame (the original's floating-point radians differ; see "## Left out") |
| Rotation.BelowThresholdBounds | js/core/RotationManager.js:214-218 | `_isDragBelowThreshold` holds exactly when both offsets lie strictly between `-threshold` and `threshold` |
| Rotation.DragAxisOfSigns | js/core/RotationManager.js:223-226 | the ternary gives HORIZONTAL exactly when `dx` or `-dx` exceeds both `dy` and `-dy` (that is, `|dx| > |dy|`), VERTICAL otherwise |
| Rotation.DecidedAxis | js/core/RotationManager.js:214-229 | no axis iff both `|dx| < 6` and `|dy| < 6`; HORIZONTAL iff `|dx| >= 6` and `|dx| > |dy|`; VERTICAL iff `|dy| >= 6` and `|dy| >= |dx|`, so ties go to VERTICAL |
| Rotation.DecidedAxisIgnoresSigns | js/core/RotationManager.js:214-229 | the decision depends only on the sizes of the offsets |
| Rotation.DecidedAxisSwap | js/core/RotationManager.js:214-229 | away from a tie, swapping the offsets swaps HORIZONTAL and VERTICAL |
| Rotation.Replayed | js/core/RotationManager.js:93-105 | replaying no move keeps every triple; replaying a move changes only triples in the move's layer, and a bijection onto `[0, size-1]^3` stays one |
| Rotation.RotationManager.constructor | js/core/RotationManager.js:12-58 | disabled, unlocked and idle, with nothing picked and no drag; the manager's invariant holds iff the cube's does |
| Rotation.RotationManager.Enable | js/core/RotationManager.js:64-68 | enabled afterwards and nothing else changes, so it is idempotent; the invariant is kept |
| Rotation.RotationManager.Disable | js/core/RotationManager.js:70-75 | disabled afterwards; a disabled manager is left unchanged, so it is idempotent; an enabled one has its gesture reset |
| Rotation.RotationManager.ResetState | js/core/RotationManager.js:294-308 | nothing picked (direction back to 1), no drag, no drag axis, zero offsets, unlocked; the start point and the vectors stay |
| Rotation.RotationManager.PointerDown | js/core/RotationManager.js:123-156 | ignored (nothing changes) when disabled, rotating, locked or on a miss; otherwise the hit cubie, face, axis, layer, normal and camera vectors are picked, the drag starts at the pointer, and the manager locks |
| Rotation.RotationManager.Pick | js/core/RotationManager.js:135-148 | the state changes of a successful pick, for the rotation info read off the hit |
| Rotation.RotationManager.PointerMove | js/core/RotationManager.js:158-172 | outside an active drag nothing changes; during one the offsets from the start point are updated and an undecided axis is decided by `DecidedAxis`; an axis already decided is never changed |
| Rotation.RotationManager.DetermineDragAxis | js/core/RotationManager.js:220-229 | below the threshold nothing changes; otherwise the axis becomes `DecidedAxis` of the offsets |
| Rotation.RotationManager.PointerUp | js/core/RotationManager.js:174-182 | ignored when disabled or rotating; with no picked face or no drag axis the state is reset and no rotation starts; otherwise the planned rotation starts with a fresh group |
| Rotation.RotationManager.StartRotation | js/core/RotationManager.js:231-262 | the resolver's axis and direction, the picked cubie's layer along that axis, angle 0, target 90, speed 360; the group holds exactly that layer's meshes; the drag ends and the pick is kept |
| Rotation.RotationManager.Animate | js/core/RotationManager.js:250-261 | the state changes of `_startRotation` once the layer is grouped; the invariant is kept |
| Rotation.RotationManager.Update | js/core/RotationManager.js:77-91 | nothing changes unless rotating with a rotation record; below the target the angle grows by `|speed * delta * direction|` and nothing else changes; at or past it, exactly one move is pushed, the layer's triples take `LayerTurn`, the animation ends and the gesture is reset |
| Rotation.RotationManager.Advance | js/core/RotationManager.js:83-90 | an angle short of the target is recorded, and the invariant is kept |
| Rotation.RotationManager.FinishRotation | js/core/RotationManager.js:268-292 | exactly one `{axis, layer, direction}` is pushed; the triples take `LayerTurn` of that layer; no group, no rotation, not rotating, unlocked, gesture reset; the grid stays a bijection |
| Rotation.RotationManager.EndAnimation | js/core/RotationManager.js:287-291 | no group, no rotation, not rotating, and the gesture reset |
| Rotation.RotationManager.CommitAndRecord | js/core/RotationManager.js:275-285 | the group's layer takes the turn and the move is pushed once; the grid stays a bijection |
| Rotation.RotationManager.Undo | js/core/RotationManager.js:93-98 | while rotating nothing changes; otherwise the history is asked once, and the triples are replayed with its answer (so they are unchanged when there is none); nothing is pushed |
| Rotation.RotationManager.Redo | js/core/RotationManager.js:100-105 | as `Undo`, with a redo request |
| Rotation.RotationManager.ApplyInstantRotation | js/core/RotationManager.js:310-317 | the move's layer takes the turn at once, the grid stays a bijection, and only the cubies change (no history push) |
| Rotation.RotationManager.TurnGroup | js/core/RotationManager.js:275-279 | draining a group of exactly one layer's meshes and committing its cubies turns exactly that layer (`LayerTurn`) and keeps the bijection |
| Rotation.RotationManager.Drain | js/core/RotationManager.js:275-277 | `finishRotationGroup` on a group of one layer gives back exactly that layer's cubies and empties the group |
| Rotation.RotationManager.Commit | js/core/RotationManager.js:279 | `commitCubieIndex` on exactly one layer's cubies turns exactly that layer and keeps the bijection |

## Left out

- Three.js scene-graph operations are not modelled: `group.add`, `applyMatrix4`, `scene.add`/`remove`, `updateMatrixWorld`, and `rotationGroup.rotation[axis]` with its `Math.round` snap. Only which meshes a group holds is modelled.
- Rotation.RotationManager.Update: the accumulated angle is an exact real, not a floating-point number of radians, so the model can reach the target one call earlier or later than the original (at the default 1/60 s the original needs 16 calls in doubles, the model 15). The default argument `delta = 1/60` is not modelled; every call passes `delta`.
- Ray casting, the pixel -> NDC conversion, `transformDirection` and `_updateCameraVectors` are float geometry inside library calls. The hit mesh, the world-space normal and the camera's right and up vectors are parameters of `PointerDown`. `cameraForward` is not kept.
- `CameraDragResolver`, `FaceHighlightHelper` and `HistoryManager` are not part of this model. The resolver is an abstract function. The history is a recorder of calls whose answers are an abstract function of those calls, so no undo inversion and no drag sign convention is claimed.
- The hover highlight (`_handleHoverHighlight`, `faceHighlighter.show/hide`), the DOM listeners (`_addEvents`, `_removeEvents`) and `console.log` are left out, because they are side effects outside the model.
- Rotation.RotationManager.PointerDown: requires that a hit mesh belongs to a cubie of the cube. The ray is cast against the cubies' meshes only, so every hit satisfies this.
- Rotation.RotationManager.StartRotation: the resolver's `rotateAxis` is taken to be one of the three axes. The resolver's code is not part of this model.
- Raycast.GetLayerFromCubie: the `?? null` fallback is not modelled; for one of the three axes the looked-up key always exists.
- Rotation.RotationManager.FinishRotation: the manager's own fields are cleared before the cubies and the history are updated; the source does it the other way round. The two parts touch disjoint state, so the final state is the same.
- Rotation.RotationManager.Update: the group's visual rotation by `step` is not modelled. Only the angle is.
- Constants.AxisFromName: the rotation rule table is a plain object literal, so `rotationLogic[key]` also finds names inherited from `Object.prototype`; `__proto__`, `__defineGetter__` and `__defineSetter__` then throw, and names like `constructor` or `toString` call a function that leaves the triple unchanged. The model treats every string other than `'x'`, `'y'`, `'z'` as absent. The core only passes the value of an `AXES` entry.
- `getCubiesInLayer` is modelled as the function `Layers.CubiesInLayer` over the cube's cubie list, not as a method of `LayerManager`.
- js/main.js (bootstrap, render loop, the patched `history.push`, and `rebuildCube` calling a `reset()` that `RotationManager` lacks), the UI files, js/objects/Cube.js and js/constants/colors.js are not part of this model. Colours are an enum.
- `INTERACT_MODE` in js/constants/index.js is not used by the modelled core and is left out.
