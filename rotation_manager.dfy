/**
 * `RotationManager`: the interaction state machine that turns a pointer
 * gesture on a face into an animated layer rotation, commits the rotation to
 * the cubies' triples when the animation reaches its target, records it in
 * the move history, and replays history moves instantly for undo and redo.
 *
 * The animation angle is kept in degrees (a quarter turn is 90, the speed 360
 * per second) and as exact reals, where the original accumulates radians in
 * floating point; see the README for what that changes. The drag
 * resolver and the history manager are abstract collaborators.
 */
module Rotation {

  import opened Wrappers
  import opened Constants
  import opened Lattice
  import opened Cubes
  import opened Layers
  import opened Raycast

  /** A quarter turn, in degrees (`Math.PI / 2`). */
  const Target: real := 90.0
  /** Degrees per second (`Math.PI * 2`). */
  const Speed: real := 360.0
  /** The default frame time of `update`, in seconds. */
  const DefaultDelta: real := 1.0 / 60.0
  /** Pixels a drag must reach along one axis before its axis is decided. */
  const Threshold: real := 6.0

  /** One history entry: `{ axis, layer, direction }`. */
  datatype Move = Move(axis: Axis, layer: int, direction: int)

  /** A request made to the history manager. */
  datatype HistoryCall = Pushed(move: Move) | UndoAsked | RedoAsked

  /**
   * The history manager seen from the rotation manager: it is told of every
   * finished rotation and asked for undo and redo moves. What it answers is
   * left abstract: some fixed function of everything it has been told and
   * asked so far.
   */
  class History {
    var calls: seq<HistoryCall>
    const answer: seq<HistoryCall> -> Option<Move>

    constructor (answer: seq<HistoryCall> -> Option<Move>)
      ensures calls == [] && this.answer == answer
    {
      calls := [];
      this.answer := answer;
    }

    /** `history.push(move)` */
    method Push(move: Move)
      modifies this
      ensures calls == old(calls) + [Pushed(move)]
    {
      calls := calls + [Pushed(move)];
    }

    /** `history.undo()`: the move to replay, if any. */
    method Undo() returns (move: Option<Move>)
      modifies this
      ensures calls == old(calls) + [UndoAsked]
      ensures move == answer(calls)
    {
      calls := calls + [UndoAsked];
      move := answer(calls);
    }

    /** `history.redo()`: the move to replay, if any. */
    method Redo() returns (move: Option<Move>)
      modifies this
      ensures calls == old(calls) + [RedoAsked]
      ensures move == answer(calls)
    {
      calls := calls + [RedoAsked];
      move := answer(calls);
    }
  }

  /** What the drag resolver is given. */
  datatype DragQuery = DragQuery(dx: real, dy: real, faceNormal: Option<Vec3>, cameraRight: Option<Vec3>, cameraUp: Option<Vec3>)

  /** What the drag resolver answers: the axis to turn about and the direction. */
  datatype Resolution = Resolution(rotateAxis: Axis, direction: int)

  /** A ray hit on a cubie mesh, with the face normal already in world space. */
  datatype Hit = Hit(mesh: Mesh, normal: Vec3)

  /** The camera's right and up directions in world space. */
  datatype CameraFrame = CameraFrame(right: Vec3, up: Vec3)

  /** The `active` record: what the current gesture picked. */
  datatype Active = Active(
    cubie: Cubie?, face: Option<Face>, axis: Option<Axis>, layer: Option<int>, direction: int,
    faceNormal: Option<Vec3>, cameraRight: Option<Vec3>, cameraUp: Option<Vec3>)

  /** The `drag` record. */
  datatype Drag = Drag(startX: real, startY: real, dx: real, dy: real, dragging: bool, axis: Option<DragAxis>)

  /** The `rotation` record of an animation in progress. */
  datatype RotationState = RotationState(axis: Axis, direction: int, layer: int, angle: real, target: real, speed: real)

  /** `_resetState` on the `active` record; the normal and camera vectors stay. */
  function ClearedActive(a: Active): Active {
    a.(cubie := null, face := None, axis := None, layer := None, direction := 1)
  }

  /** `_resetState` on the `drag` record; the start point stays. */
  function ClearedDrag(d: Drag): Drag {
    d.(dragging := false, axis := None, dx := 0.0, dy := 0.0)
  }

  /** The signed angle one `update` call animates: `speed * delta * direction`. */
  function Step(speed: real, delta: real, direction: int): real {
    speed * delta * direction as real
  }

  /**
   * In exact real arithmetic, at the default frame time of 1/60 s each frame
   * turns 6 degrees and a quarter turn ends on the 15th frame.
   */
  lemma QuarterTurnFrames(direction: int)
    requires direction == 1 || direction == -1
    ensures Abs(Step(Speed, DefaultDelta, direction)) == 6.0
    ensures 14.0 * Abs(Step(Speed, DefaultDelta, direction)) < Target <= 15.0 * Abs(Step(Speed, DefaultDelta, direction))
  {
  }

  /** `_isDragBelowThreshold`: both offsets strictly inside the threshold. */
  predicate IsDragBelowThreshold(dx: real, dy: real, threshold: real) {
    Abs(dx) < threshold && Abs(dy) < threshold
  }

  /** The ternary of `_determineDragAxis`: horizontal only when `|dx|` is strictly greater. */
  function DragAxisOf(dx: real, dy: real): DragAxis {
    if Abs(dx) > Abs(dy) then Horizontal else Vertical
  }

  /** Below the threshold means both offsets lie strictly between `-threshold` and `threshold`. */
  lemma BelowThresholdBounds(dx: real, dy: real, threshold: real)
    ensures IsDragBelowThreshold(dx, dy, threshold) <==> -threshold < dx < threshold && -threshold < dy < threshold
  {
  }

  /** The drag is horizontal exactly when `dx` or `-dx` exceeds both `dy` and `-dy`. */
  lemma DragAxisOfSigns(dx: real, dy: real)
    ensures DragAxisOf(dx, dy) == Horizontal <==> (dx > dy && dx > -dy) || (-dx > dy && -dx > -dy)
  {
  }

  /**
   * The axis a drag by `(dx, dy)` decides, if any: none while both offsets are
   * inside the threshold; otherwise horizontal iff `|dx| > |dy|`, ties going
   * to vertical. The decided axis is one along which the drag reached the
   * threshold.
   */
  function DecidedAxis(dx: real, dy: real): (r: Option<DragAxis>)
    ensures r.None? <==> Abs(dx) < Threshold && Abs(dy) < Threshold
    ensures r == Some(Horizontal) <==> Abs(dx) >= Threshold && Abs(dx) > Abs(dy)
    ensures r == Some(Vertical) <==> Abs(dy) >= Threshold && Abs(dy) >= Abs(dx)
  {
    if IsDragBelowThreshold(dx, dy, Threshold) then None else Some(DragAxisOf(dx, dy))
  }

  /** The decision depends only on the sizes of the offsets, not on their signs. */
  lemma DecidedAxisIgnoresSigns(dx: real, dy: real)
    ensures DecidedAxis(-dx, dy) == DecidedAxis(dx, dy)
    ensures DecidedAxis(dx, -dy) == DecidedAxis(dx, dy)
  {
    assert Abs(-dx) == Abs(dx) && Abs(-dy) == Abs(dy);
  }

  /** Swapping the offsets swaps the decided axis, except on a tie. */
  lemma DecidedAxisSwap(dx: real, dy: real)
    requires Abs(dx) != Abs(dy)
    ensures DecidedAxis(dx, dy).None? <==> DecidedAxis(dy, dx).None?
    ensures DecidedAxis(dx, dy) == Some(Horizontal) <==> DecidedAxis(dy, dx) == Some(Vertical)
  {
  }

  /**
   * The triples after a history move is replayed, or as they were when there
   * is none: only the cubies of the move's layer change, and a bijection onto
   * the lattice stays one.
   */
  ghost function Replayed(s: seq<Index>, move: Option<Move>, size: int): (r: seq<Index>)
    ensures |r| == |s|
    ensures move.None? ==> r == s
    ensures move.Some? ==> forall i :: 0 <= i < |s| && !InLayer(s[i], move.value.axis, move.value.layer) ==> r[i] == s[i]
    ensures Bijective(s, size) ==> Bijective(r, size)
  {
    match move
    case None => s
    case Some(m) =>
      if Bijective(s, size) then
        LayerTurnPreservesBijection(s, m.axis, m.layer, m.direction, size);
        LayerTurn(s, m.axis, m.layer, m.direction, size - 1)
      else
        LayerTurn(s, m.axis, m.layer, m.direction, size - 1)
  }

  /** The triples `now` are `before` with the layer of rotation `r` turned once in its direction. */
  ghost predicate TurnedBy(now: seq<Index>, before: seq<Index>, r: RotationState, size: int) {
    now == LayerTurn(before, r.axis, r.layer, r.direction, size - 1)
  }

  /**
   * The gesture records agree: a decided axis belongs to a drag, a drag to a
   * locked pick made while no rotation runs, a pick to a cubie of the cube.
   */
  ghost predicate GestureValid(drag: Drag, locked: bool, active: Active, isRotating: bool, cubies: seq<Cubie>) {
    && (drag.axis.Some? ==> drag.dragging)
    && (drag.dragging ==> locked && active.face.Some? && !isRotating)
    && (active.face.Some? ==> active.cubie != null && active.cubie in cubies)
  }

  /**
   * An animation exists exactly while `isRotating`; its group holds the
   * meshes of exactly the cubies of its layer, and its angle has not yet
   * reached the target.
   */
  ghost predicate AnimationValid(isRotating: bool, rotation: Option<RotationState>, group: RotationGroup?, cubies: seq<Cubie>)
    reads group, cubies
  {
    && (isRotating <==> rotation.Some?)
    && (isRotating <==> group != null)
    && (rotation.Some? && group != null ==>
          var r := rotation.value;
          && r.target == Target && r.speed == Speed && 0.0 <= r.angle < r.target
          && group.children == Meshes(CubiesInLayer(cubies, r.axis, r.layer)))
  }

  /** `RotationManager` */
  class RotationManager {
    const rubik: RubikCube
    const history: History
    const layerManager: LayerManager
    /** `CameraDragResolver.resolve` */
    const resolve: DragQuery -> Resolution

    var locked: bool
    var enabled: bool
    var isRotating: bool
    var active: Active
    var drag: Drag
    var rotationGroup: RotationGroup?
    var rotation: Option<RotationState>

    /** The manager's invariant, which includes the cube's grid invariant. */
    ghost predicate Valid()
      reads this, rubik, rubik.cubies, rotationGroup
    {
      && layerManager.rubik == rubik && rubik.Valid()
      && GestureValid(drag, locked, active, isRotating, rubik.cubies)
      && AnimationValid(isRotating, rotation, rotationGroup, rubik.cubies)
    }

    /** The state after construction: disabled, unlocked, idle, nothing picked. */
    constructor (rubik: RubikCube, history: History, resolve: DragQuery -> Resolution)
      ensures this.rubik == rubik && this.history == history && this.resolve == resolve
      ensures !locked && !enabled && !isRotating
      ensures active == Active(null, None, None, None, 1, None, None, None)
      ensures drag == Drag(0.0, 0.0, 0.0, 0.0, false, None)
      ensures rotationGroup == null && rotation == None
      ensures Valid() <==> rubik.Valid()
    {
      this.rubik := rubik;
      this.history := history;
      this.resolve := resolve;
      layerManager := new LayerManager(rubik);
      locked := false;
      enabled := false;
      isRotating := false;
      active := Active(null, None, None, None, 1, None, None, None);
      drag := Drag(0.0, 0.0, 0.0, 0.0, false, None);
      rotationGroup := null;
      rotation := None;
    }

    /** `enable`: enabled afterwards, and nothing else changes, so a second call changes nothing. */
    method Enable()
      requires Valid()
      modifies this`enabled
      ensures Valid()
      ensures enabled
    {
      if enabled {
        return;
      }
      assert GestureValid(drag, locked, active, isRotating, rubik.cubies);
      assert AnimationValid(isRotating, rotation, rotationGroup, rubik.cubies);
      enabled := true;
    }

    /** `disable`: a disabled manager is left as it is; an enabled one is disabled and its gesture reset. */
    method Disable()
      requires Valid()
      modifies this`enabled, this`active, this`drag, this`locked
      ensures Valid()
      ensures !enabled
      ensures !old(enabled) ==> unchanged(this)
      ensures old(enabled) ==> active == ClearedActive(old(active)) && drag == ClearedDrag(old(drag)) && !locked
    {
      if !enabled {
        return;
      }
      enabled := false;
      ResetState();
    }

    /** `_resetState`: nothing picked, no drag, unlocked. */
    method ResetState()
      modifies this`active, this`drag, this`locked
      ensures active == ClearedActive(old(active))
      ensures drag == ClearedDrag(old(drag))
      ensures !locked
    {
      active := ClearedActive(active);
      drag := ClearedDrag(drag);
      locked := false;
    }

    /**
     * `_onPointerDown`: ignored while disabled, rotating or locked, and on a
     * miss; otherwise the hit cubie, its face, axis and layer are picked, the
     * drag starts at the pointer and the manager locks.
     */
    method PointerDown(hit: Option<Hit>, clientX: real, clientY: real, camera: CameraFrame)
      requires Valid()
      requires hit.Some? ==> hit.value.mesh in Meshes(rubik.cubies)
      modifies this`active, this`drag, this`locked
      ensures Valid()
      ensures !old(enabled) || old(isRotating) || old(locked) || hit.None? ==> unchanged(this)
      ensures old(enabled) && !old(isRotating) && !old(locked) && hit.Some? ==>
        var info := ExtractRotationInfo(rubik.cubies, hit.value.mesh, hit.value.normal);
        && active == old(active).(cubie := info.cubie, face := Some(info.face), axis := Some(info.axis), layer := Some(info.layer),
                                  faceNormal := Some(hit.value.normal), cameraRight := Some(camera.right), cameraUp := Some(camera.up))
        && drag == old(drag).(startX := clientX, startY := clientY, dragging := true)
        && locked
    {
      if !enabled || isRotating || locked || hit.None? {
        return;
      }
      var info := ExtractRotationInfo(rubik.cubies, hit.value.mesh, hit.value.normal);
      Pick(info, hit.value.normal, clientX, clientY, camera);
    }

    /**
     * The state changes of a successful `_onPointerDown`, for the rotation
     * info read off the hit; a part of `_onPointerDown` kept apart to keep
     * its proof small, not a function of the original.
     */
    method Pick(info: RotationInfo, normal: Vec3, clientX: real, clientY: real, camera: CameraFrame)
      requires Valid() && !isRotating && info.cubie in rubik.cubies
      modifies this`active, this`drag, this`locked
      ensures Valid()
      ensures active == old(active).(cubie := info.cubie, face := Some(info.face), axis := Some(info.axis), layer := Some(info.layer),
                                     faceNormal := Some(normal), cameraRight := Some(camera.right), cameraUp := Some(camera.up))
      ensures drag == old(drag).(startX := clientX, startY := clientY, dragging := true)
      ensures locked
    {
      active := active.(cubie := info.cubie, face := Some(info.face), axis := Some(info.axis), layer := Some(info.layer),
                        faceNormal := Some(normal));
      active := active.(cameraRight := Some(camera.right), cameraUp := Some(camera.up));
      drag := drag.(startX := clientX, startY := clientY, dragging := true);
      locked := true;
    }

    /**
     * `_onPointerMove`: during a drag, the offsets from the start point are
     * updated and, while no axis is decided, the axis is decided from them;
     * a decided axis is never decided again within the gesture.
     */
    method PointerMove(clientX: real, clientY: real)
      requires Valid()
      modifies this`drag
      ensures Valid()
      ensures !old(enabled) || old(isRotating) || !old(drag.dragging) || old(active.face).None? ==> drag == old(drag)
      ensures old(enabled) && !old(isRotating) && old(drag.dragging) && old(active.face).Some? ==>
        var dx, dy := clientX - old(drag.startX), clientY - old(drag.startY);
        drag == old(drag).(dx := dx, dy := dy, axis := if old(drag.axis).Some? then old(drag.axis) else DecidedAxis(dx, dy))
      ensures old(drag.axis).Some? ==> drag.axis == old(drag.axis)
    {
      if !enabled || isRotating {
        return;
      }
      if !drag.dragging || active.face.None? {
        return;
      }
      drag := drag.(dx := clientX - drag.startX, dy := clientY - drag.startY);
      if drag.axis.None? {
        DetermineDragAxis();
      }
    }

    /** `_determineDragAxis`: below the threshold nothing changes; otherwise the axis is decided. */
    method DetermineDragAxis()
      modifies this`drag
      ensures drag == old(drag).(axis := if DecidedAxis(old(drag.dx), old(drag.dy)).None? then old(drag.axis) else DecidedAxis(old(drag.dx), old(drag.dy)))
    {
      if IsDragBelowThreshold(drag.dx, drag.dy, Threshold) {
        return;
      }
      drag := drag.(axis := Some(DragAxisOf(drag.dx, drag.dy)));
    }

    /** The resolver's answer for the current drag. */
    function Resolved(): Resolution
      reads this
    {
      resolve(DragQuery(drag.dx, drag.dy, active.faceNormal, active.cameraRight, active.cameraUp))
    }

    /** The animation `_startRotation` sets up for the current gesture. */
    function PlannedRotation(): RotationState
      requires active.cubie != null
      reads this, active.cubie
    {
      var res := Resolved();
      RotationState(res.rotateAxis, res.direction, GetLayerFromCubie(active.cubie, res.rotateAxis), 0.0, Target, Speed)
    }

    /**
     * `_onPointerUp`: ignored while disabled or rotating; without a picked
     * face or a decided axis the gesture is reset and no rotation starts;
     * otherwise the rotation starts.
     */
    method PointerUp()
      requires Valid()
      modifies this
      ensures Valid()
      ensures !old(enabled) || old(isRotating) ==> unchanged(this)
      ensures old(enabled) && !old(isRotating) && (old(active.face).None? || old(drag.axis).None?) ==>
        && active == ClearedActive(old(active)) && drag == ClearedDrag(old(drag)) && !locked
        && !isRotating && rotation == None && enabled
      ensures old(enabled) && !old(isRotating) && old(active.face).Some? && old(drag.axis).Some? ==>
        && isRotating && rotation == Some(old(PlannedRotation())) && fresh(rotationGroup)
        && active == old(active) && drag == old(drag).(dragging := false, axis := None) && locked && enabled
    {
      if !enabled || isRotating {
        return;
      }
      if active.face.None? || drag.axis.None? {
        ResetState();
        return;
      }
      StartRotation();
    }

    /**
     * `_startRotation`: asks the resolver for the axis and direction, takes
     * the picked cubie's layer along that axis, groups that layer and starts
     * the animation at angle 0; the drag ends.
     */
    method StartRotation()
      requires Valid() && !isRotating && active.face.Some?
      modifies this
      ensures Valid()
      ensures isRotating && rotation == Some(old(PlannedRotation())) && fresh(rotationGroup)
      ensures rotationGroup.children == Meshes(CubiesInLayer(rubik.cubies, rotation.value.axis, rotation.value.layer))
      ensures active == old(active) && drag == old(drag).(dragging := false, axis := None)
      ensures locked == old(locked) && enabled == old(enabled)
    {
      var res := Resolved();
      var layer := GetLayerFromCubie(active.cubie, res.rotateAxis);
      var group := layerManager.CreateRotationGroup(res.rotateAxis, layer);
      Animate(group, RotationState(res.rotateAxis, res.direction, layer, 0.0, Target, Speed));
    }

    /**
     * The state changes of `_startRotation` once the layer is grouped; a part
     * of `_startRotation` kept apart for the proof, not a function of the original.
     */
    method Animate(group: RotationGroup, r: RotationState)
      requires Valid() && !isRotating && r.target == Target && r.speed == Speed && r.angle == 0.0
      requires group.children == Meshes(CubiesInLayer(rubik.cubies, r.axis, r.layer))
      modifies this
      ensures Valid()
      ensures isRotating && rotation == Some(r) && rotationGroup == group
      ensures active == old(active) && drag == old(drag).(dragging := false, axis := None)
      ensures locked == old(locked) && enabled == old(enabled)
    {
      assert AnimationValid(true, Some(r), group, rubik.cubies);
      assert GestureValid(drag.(dragging := false, axis := None), locked, active, true, rubik.cubies);
      rotationGroup := group;
      rotation := Some(r);
      isRotating := true;
      drag := drag.(dragging := false, axis := None);
    }

    /**
     * `update`: nothing happens unless a rotation is animating; otherwise the
     * angle grows by `|speed * delta * direction|`, and once it reaches the
     * target the rotation finishes: the layer's triples turn, one move is
     * pushed, the animation ends and the gesture is reset.
     */
    method Update(delta: real)
      requires Valid()
      modifies this, history, rotationGroup, rubik.cubies
      ensures Valid()
      ensures !(old(isRotating) && old(rotation).Some?) ==>
        unchanged(this) && unchanged(history) && unchanged(rubik.cubies)
      ensures old(isRotating) && old(rotation).Some? &&
              old(rotation).value.angle + Abs(Step(old(rotation).value.speed, delta, old(rotation).value.direction)) < old(rotation).value.target ==>
        var r := old(rotation).value;
        && rotation == Some(r.(angle := r.angle + Abs(Step(r.speed, delta, r.direction))))
        && isRotating && rotationGroup == old(rotationGroup)
        && active == old(active) && drag == old(drag) && locked == old(locked) && enabled == old(enabled)
        && unchanged(history) && unchanged(rubik.cubies)
      ensures old(isRotating) && old(rotation).Some? &&
              old(rotation).value.angle + Abs(Step(old(rotation).value.speed, delta, old(rotation).value.direction)) >= old(rotation).value.target ==>
        var r := old(rotation).value;
        && history.calls == old(history.calls) + [Pushed(Move(r.axis, r.layer, r.direction))]
        && TurnedBy(Indices(rubik.cubies), old(Indices(rubik.cubies)), r, rubik.size)
        && !isRotating && rotation == None && rotationGroup == null
        && active == ClearedActive(old(active)) && drag == ClearedDrag(old(drag)) && !locked && enabled == old(enabled)
    {
      if !isRotating || rotation.None? {
        return;
      }
      var r := rotation.value;
      var step := Step(r.speed, delta, r.direction);
      var angle := r.angle + Abs(step);
      if angle >= r.target {
        FinishRotation();
        return;
      }
      Advance(angle);
    }

    /**
     * The branch of `update` short of the target: the angle grows, the group
     * turns on (not modelled); kept apart for the proof, not a function of the original.
     */
    method Advance(angle: real)
      requires Valid() && rotation.Some? && rotation.value.angle <= angle < rotation.value.target
      modifies this`rotation
      ensures Valid()
      ensures rotation == Some(old(rotation).value.(angle := angle))
    {
      assert AnimationValid(isRotating, Some(rotation.value.(angle := angle)), rotationGroup, rubik.cubies);
      rotation := Some(rotation.value.(angle := angle));
    }

    /**
     * `_finishRotation`: the group's cubies take the turn, the move is
     * pushed once, the animation ends and the gesture is reset. The manager's
     * own fields are cleared first here and the cubies and history updated
     * after; the two touch disjoint state, so the outcome is the same.
     */
    method FinishRotation()
      requires Valid() && isRotating
      modifies this, history, rotationGroup, rubik.cubies
      ensures Valid()
      ensures var r := old(rotation).value;
        && history.calls == old(history.calls) + [Pushed(Move(r.axis, r.layer, r.direction))]
        && TurnedBy(Indices(rubik.cubies), old(Indices(rubik.cubies)), r, rubik.size)
      ensures !isRotating && rotation == None && rotationGroup == null
      ensures active == ClearedActive(old(active)) && drag == ClearedDrag(old(drag)) && !locked && enabled == old(enabled)
    {
      var group, r := rotationGroup, rotation.value;
      ghost var pre := Indices(rubik.cubies);
      EndAnimation();
      assert Indices(rubik.cubies) == pre;
      CommitAndRecord(group, r);
    }

    /**
     * The manager's part of `_finishRotation`: no group, no animation, and the
     * gesture reset; kept apart for the proof, not a function of the original.
     */
    method EndAnimation()
      modifies this
      ensures !isRotating && rotation == None && rotationGroup == null
      ensures active == ClearedActive(old(active)) && drag == ClearedDrag(old(drag)) && !locked && enabled == old(enabled)
    {
      rotationGroup := null;
      rotation := None;
      isRotating := false;
      ResetState();
    }

    /**
     * The cube's and the history's part of `_finishRotation`: the group's layer
     * takes the turn and the move is pushed; kept apart for the proof, not a
     * function of the original.
     */
    method CommitAndRecord(group: RotationGroup, r: RotationState)
      requires layerManager.rubik == rubik && rubik.Valid()
      requires group.children == Meshes(CubiesInLayer(rubik.cubies, r.axis, r.layer))
      modifies group, history, rubik.cubies
      ensures rubik.Valid()
      ensures history.calls == old(history.calls) + [Pushed(Move(r.axis, r.layer, r.direction))]
      ensures TurnedBy(Indices(rubik.cubies), old(Indices(rubik.cubies)), r, rubik.size)
    {
      TurnGroup(group, r.axis, r.layer, r.direction);
      ghost var post := Indices(rubik.cubies);
      history.Push(Move(r.axis, r.layer, r.direction));
      assert Indices(rubik.cubies) == post;
    }

    /** `undo`: ignored while rotating; otherwise history is asked once and its move, if any, is replayed instantly. */
    method Undo()
      requires Valid()
      modifies history, rubik.cubies
      ensures Valid()
      ensures isRotating ==> unchanged(history) && unchanged(rubik.cubies)
      ensures !isRotating ==>
        && history.calls == old(history.calls) + [UndoAsked]
        && Indices(rubik.cubies) == Replayed(old(Indices(rubik.cubies)), history.answer(history.calls), rubik.size)
    {
      if isRotating {
        return;
      }
      ghost var pre := Indices(rubik.cubies);
      var move := history.Undo();
      assert Indices(rubik.cubies) == pre;
      if move.None? {
        return;
      }
      ApplyInstantRotation(move.value);
    }

    /** `redo`: ignored while rotating; otherwise history is asked once and its move, if any, is replayed instantly. */
    method Redo()
      requires Valid()
      modifies history, rubik.cubies
      ensures Valid()
      ensures isRotating ==> unchanged(history) && unchanged(rubik.cubies)
      ensures !isRotating ==>
        && history.calls == old(history.calls) + [RedoAsked]
        && Indices(rubik.cubies) == Replayed(old(Indices(rubik.cubies)), history.answer(history.calls), rubik.size)
    {
      if isRotating {
        return;
      }
      ghost var pre := Indices(rubik.cubies);
      var move := history.Redo();
      assert Indices(rubik.cubies) == pre;
      if move.None? {
        return;
      }
      ApplyInstantRotation(move.value);
    }

    /** `_applyInstantRotation`: the move's layer takes the turn at once; nothing is pushed. */
    method ApplyInstantRotation(move: Move)
      requires Valid() && !isRotating
      modifies rubik.cubies
      ensures Valid()
      ensures Indices(rubik.cubies) == LayerTurn(old(Indices(rubik.cubies)), move.axis, move.layer, move.direction, rubik.size - 1)
    {
      ghost var pre := Indices(rubik.cubies);
      var group := layerManager.CreateRotationGroup(move.axis, move.layer);
      assert Indices(rubik.cubies) == pre;
      TurnGroup(group, move.axis, move.layer, move.direction);
    }

    /**
     * What `_finishRotation` and `_applyInstantRotation` share: a group of
     * exactly one layer's meshes is drained and its cubies' triples are
     * committed, which turns exactly that layer and keeps the grid a
     * bijection.
     */
    method TurnGroup(group: RotationGroup, axis: Axis, layer: int, direction: int)
      requires layerManager.rubik == rubik && rubik.Valid()
      requires group.children == Meshes(CubiesInLayer(rubik.cubies, axis, layer))
      modifies group, rubik.cubies
      ensures group.children == []
      ensures rubik.Valid()
      ensures Indices(rubik.cubies) == LayerTurn(old(Indices(rubik.cubies)), axis, layer, direction, rubik.size - 1)
    {
      ghost var pre := Indices(rubik.cubies);
      var rotated := Drain(group, axis, layer);
      assert Indices(rubik.cubies) == pre;
      Commit(rotated, axis, layer, direction);
    }

    /**
     * `finishRotationGroup` on a group of one layer gives back exactly that
     * layer's cubies; a step of `TurnGroup` kept apart for the proof.
     */
    method Drain(group: RotationGroup, axis: Axis, layer: int) returns (rotated: seq<Cubie>)
      requires layerManager.rubik == rubik && rubik.Valid()
      requires group.children == Meshes(CubiesInLayer(rubik.cubies, axis, layer))
      modifies group
      ensures group.children == []
      ensures rotated == CubiesInLayer(rubik.cubies, axis, layer)
    {
      ghost var sel := CubiesInLayer(rubik.cubies, axis, layer);
      CubiesInLayerMembers(rubik.cubies, axis, layer);
      FoundCubiesOfMeshes(rubik.cubies, sel);
      rotated := layerManager.FinishRotationGroup(group);
    }

    /**
     * `commitCubieIndex` on exactly one layer's cubies turns exactly that layer
     * and keeps the grid a bijection; a step of `TurnGroup` kept apart for the proof.
     */
    method Commit(rotated: seq<Cubie>, axis: Axis, layer: int, direction: int)
      requires layerManager.rubik == rubik && rubik.Valid()
      requires rotated == CubiesInLayer(rubik.cubies, axis, layer)
      modifies rubik.cubies
      ensures rubik.Valid()
      ensures Indices(rubik.cubies) == LayerTurn(old(Indices(rubik.cubies)), axis, layer, direction, rubik.size - 1)
    {
      ghost var cs, pre := rubik.cubies, Indices(rubik.cubies);
      LayerSelection(cs, axis, layer);
      assert forall i :: 0 <= i < |rotated| ==> rotated[i] in cs;
      AxisNameRoundTrip(axis);
      layerManager.CommitCubieIndex(rotated, AxisName(axis), direction);
      forall i | 0 <= i < |cs| && cs[i] in rotated
        ensures cs[i].index == TurnTimes(pre[i], Some(axis), direction, rubik.size - 1, multiset(rotated)[cs[i]])
      {
      }
      CommitIsLayerTurn(cs, pre, rotated, axis, layer, direction, rubik.size - 1);
      LayerTurnPreservesBijection(pre, axis, layer, direction, rubik.size);
    }
  }
}
