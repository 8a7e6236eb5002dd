/**
 * The frozen lookup tables of the cube puzzle: the six faces, the three world
 * axes, the two drag orientations, and the tables that link them.
 */
module Constants {

  import opened Wrappers

  /** FACES */
  datatype Face = Right | Left | Up | Down | Front | Back

  /** AXES; the string values are the keys the rotation code dispatches on. */
  datatype Axis = X | Y | Z

  /** DRAG_AXIS */
  datatype DragAxis = Horizontal | Vertical

  /** The three fields of a cubie's index triple. */
  datatype IndexKey = LeftRight | DownUp | BackFront

  /** The string value of an AXES entry. */
  function AxisName(a: Axis): string {
    match a
    case X => "x"
    case Y => "y"
    case Z => "z"
  }

  /**
   * Looks a string up among the AXES values, the own keys of the rotation
   * rule table; `None` for any other string.
   */
  function AxisFromName(s: string): (r: Option<Axis>)
    ensures r.Some? ==> AxisName(r.value) == s
    ensures r.None? ==> forall a: Axis :: AxisName(a) != s
  {
    if s == "x" then Some(X)
    else if s == "y" then Some(Y)
    else if s == "z" then Some(Z)
    else None
  }

  /** FACE_TO_AXIS; `FaceSignsPerAxis` shows each face is one end of its axis. */
  function FaceToAxis(f: Face): Axis {
    match f
    case Right => X
    case Left => X
    case Up => Y
    case Down => Y
    case Front => Z
    case Back => Z
  }

  /** FACE_TO_SIGN; `FaceSignsPerAxis` shows `+1` marks the positive end of an axis, `-1` the negative one. */
  function FaceToSign(f: Face): int {
    match f
    case Right => 1
    case Left => -1
    case Up => 1
    case Down => -1
    case Front => 1
    case Back => -1
  }

  /** AXIS_TO_INDEX_KEY; `AxisToIndexKeyBijective` shows it is one-to-one and onto. */
  function AxisToIndexKey(a: Axis): IndexKey {
    match a
    case X => LeftRight
    case Y => DownUp
    case Z => BackFront
  }

  /** The face on the positive (`+1`) end of an axis. */
  function PositiveFace(a: Axis): Face {
    match a
    case X => Right
    case Y => Up
    case Z => Front
  }

  /** The face on the negative (`-1`) end of an axis. */
  function NegativeFace(a: Axis): Face {
    match a
    case X => Left
    case Y => Down
    case Z => Back
  }

  /** The face opposite a face. */
  function Opposite(f: Face): Face {
    match f
    case Right => Left
    case Left => Right
    case Up => Down
    case Down => Up
    case Front => Back
    case Back => Front
  }

  /** Every axis value, every drag orientation and every face. */
  const AllAxes: set<Axis> := {X, Y, Z}
  const AllDragAxes: set<DragAxis> := {Horizontal, Vertical}

  /** AXES has exactly three values, each named by a distinct string. */
  lemma AxesAreThree()
    ensures forall a: Axis :: a in AllAxes
    ensures |AllAxes| == 3
    ensures AxisName(X) != AxisName(Y) && AxisName(Y) != AxisName(Z) && AxisName(X) != AxisName(Z)
  {
    forall a: Axis ensures a in AllAxes {
      match a
      case X =>
      case Y =>
      case Z =>
    }
  }

  /** DRAG_AXIS has exactly two values. */
  lemma DragAxesAreTwo()
    ensures forall d: DragAxis :: d in AllDragAxes
    ensures |AllDragAxes| == 2
  {
    forall d: DragAxis ensures d in AllDragAxes {
      match d
      case Horizontal =>
      case Vertical =>
    }
  }

  /** Reading an axis name back through the AXES lookup gives the axis. */
  lemma AxisNameRoundTrip(a: Axis)
    ensures AxisFromName(AxisName(a)) == Some(a)
  {
  }

  /** Opposite faces lie on the same axis and carry opposite signs. */
  lemma OppositeFacesShareAxis(f: Face)
    ensures Opposite(f) != f && Opposite(Opposite(f)) == f
    ensures FaceToAxis(Opposite(f)) == FaceToAxis(f)
    ensures FaceToSign(Opposite(f)) == -FaceToSign(f)
  {
  }

  /**
   * Each axis has exactly one `+1` face and one `-1` face: a face is on
   * axis `a` with sign `+1` iff it is `PositiveFace(a)`, with sign `-1` iff
   * it is `NegativeFace(a)`.
   */
  lemma FaceSignsPerAxis(a: Axis, f: Face)
    ensures FaceToAxis(f) == a && FaceToSign(f) == 1 <==> f == PositiveFace(a)
    ensures FaceToAxis(f) == a && FaceToSign(f) == -1 <==> f == NegativeFace(a)
    ensures FaceToSign(f) == 1 || FaceToSign(f) == -1
  {
  }

  /** The axis whose coordinate an index field holds (AXIS_TO_INDEX_KEY read backwards). */
  function IndexKeyToAxis(k: IndexKey): (a: Axis)
    ensures AxisToIndexKey(a) == k
  {
    match k
    case LeftRight => X
    case DownUp => Y
    case BackFront => Z
  }

  /** AXIS_TO_INDEX_KEY is one-to-one, and `IndexKeyToAxis` is its inverse on both sides. */
  lemma AxisToIndexKeyBijective(a: Axis, b: Axis, k: IndexKey)
    ensures AxisToIndexKey(a) == AxisToIndexKey(b) ==> a == b
    ensures IndexKeyToAxis(AxisToIndexKey(a)) == a
    ensures AxisToIndexKey(IndexKeyToAxis(k)) == k
  {
  }
}
