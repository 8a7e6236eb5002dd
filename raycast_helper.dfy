/**
 * `RaycastHelper`, without the ray casting itself: which face and axis a
 * world-space face normal points along, which layer a picked cubie lies in
 * along an axis, and the rotation info read off a hit.
 */
module Raycast {

  import opened Wrappers
  import opened Constants
  import opened Lattice
  import opened Cubes
  import opened Layers

  /** A direction in world space (`THREE.Vector3`). */
  datatype Vec3 = Vec3(x: real, y: real, z: real)

  /** `Math.abs` */
  function Abs(r: real): (a: real)
    ensures a >= 0.0 && (a == r || a == -r)
  {
    if r < 0.0 then -r else r
  }

  /** The component of `v` along `axis`. */
  function Component(v: Vec3, axis: Axis): real {
    match axis
    case X => v.x
    case Y => v.y
    case Z => v.z
  }

  /** An entry of `faceMap`: an axis and the face of that axis the normal points to. */
  datatype FaceInfo = FaceInfo(axis: Axis, face: Face)

  /**
   * The `reduce` over the entries `x, y, z` of the absolute components: an
   * entry replaces the running maximum only when it is strictly greater.
   */
  function Dominant(entries: seq<(Axis, real)>, best: (Axis, real)): (r: (Axis, real))
    ensures r == best || r in entries
    ensures r.1 >= best.1 && forall i :: 0 <= i < |entries| ==> r.1 >= entries[i].1
  {
    if |entries| == 0 then best
    else Dominant(entries[1..], if entries[0].1 > best.1 then entries[0] else best)
  }

  /** `faceMap[key]`: the positive face when the component is `> 0`, the negative face otherwise. */
  function FaceMap(normal: Vec3, key: Axis): (r: FaceInfo)
    ensures r.axis == key && FaceToAxis(r.face) == key
    ensures r.face == PositiveFace(key) <==> Component(normal, key) > 0.0
  {
    match key
    case X => FaceInfo(X, if normal.x > 0.0 then Right else Left)
    case Y => FaceInfo(Y, if normal.y > 0.0 then Up else Down)
    case Z => FaceInfo(Z, if normal.z > 0.0 then Front else Back)
  }

  /** The `reduce` over `x, y, z` written out: y beats x only if strictly greater, z beats the winner only if strictly greater. */
  lemma DominantOfThree(ax: real, ay: real, az: real)
    ensures Dominant([(X, ax), (Y, ay), (Z, az)], (X, ax)) ==
      var xy := if ay > ax then (Y, ay) else (X, ax);
      if az > xy.1 then (Z, az) else xy
  {
    var e := [(X, ax), (Y, ay), (Z, az)];
    var e1, e2 := [(Y, ay), (Z, az)], [(Z, az)];
    assert e[1..] == e1 && e1[1..] == e2 && e2[1..] == [];
    var b2 := if ay > ax then (Y, ay) else (X, ax);
    var b3 := if az > b2.1 then (Z, az) else b2;
    assert Dominant(e, (X, ax)) == Dominant(e1, (X, ax));
    assert Dominant(e1, (X, ax)) == Dominant(e2, b2);
    assert Dominant(e2, b2) == Dominant([], b3);
  }

  /**
   * `getFaceFromNormal`: the axis of greatest absolute component, ties going
   * to the earlier key in the order x, y, z, and the face of that axis on the
   * side the component points to (zero counting as negative).
   */
  function GetFaceFromNormal(normal: Vec3): (r: FaceInfo)
    ensures FaceToAxis(r.face) == r.axis
    ensures forall a :: Abs(Component(normal, a)) <= Abs(Component(normal, r.axis))
    ensures r.axis == X <==> Abs(normal.x) >= Abs(normal.y) && Abs(normal.x) >= Abs(normal.z)
    ensures r.axis == Y <==> Abs(normal.y) > Abs(normal.x) && Abs(normal.y) >= Abs(normal.z)
    ensures r.axis == Z <==> Abs(normal.z) > Abs(normal.x) && Abs(normal.z) > Abs(normal.y)
    ensures r.face == PositiveFace(r.axis) <==> Component(normal, r.axis) > 0.0
    ensures r.face == NegativeFace(r.axis) <==> Component(normal, r.axis) <= 0.0
  {
    var ax, ay, az := Abs(normal.x), Abs(normal.y), Abs(normal.z);
    DominantOfThree(ax, ay, az);
    var dominant := Dominant([(X, ax), (Y, ay), (Z, az)], (X, ax));
    FaceMap(normal, dominant.0)
  }

  /** The zero vector is classified as the x axis and the LEFT face. */
  lemma ZeroNormalIsLeft()
    ensures GetFaceFromNormal(Vec3(0.0, 0.0, 0.0)) == FaceInfo(X, Left)
  {
  }

  /**
   * Two normals whose absolute components compare the same way, pairwise,
   * and whose components have the same signs.
   */
  predicate SameShape(n: Vec3, m: Vec3) {
    && (forall a, b :: Abs(Component(n, a)) > Abs(Component(n, b)) <==> Abs(Component(m, a)) > Abs(Component(m, b)))
    && (forall a :: Component(n, a) > 0.0 <==> Component(m, a) > 0.0)
  }

  /** The classification reads nothing of a normal but its shape. */
  lemma FaceFromNormalShape(n: Vec3, m: Vec3)
    requires SameShape(n, m)
    ensures GetFaceFromNormal(n) == GetFaceFromNormal(m)
  {
    assert Abs(Component(n, Y)) > Abs(Component(n, X)) <==> Abs(Component(m, Y)) > Abs(Component(m, X));
    assert Abs(Component(n, Z)) > Abs(Component(n, X)) <==> Abs(Component(m, Z)) > Abs(Component(m, X));
    assert Abs(Component(n, Z)) > Abs(Component(n, Y)) <==> Abs(Component(m, Z)) > Abs(Component(m, Y));
    assert Abs(Component(n, X)) > Abs(Component(n, Y)) <==> Abs(Component(m, X)) > Abs(Component(m, Y));
    assert Abs(Component(n, X)) > Abs(Component(n, Z)) <==> Abs(Component(m, X)) > Abs(Component(m, Z));
    assert Abs(Component(n, Y)) > Abs(Component(n, Z)) <==> Abs(Component(m, Y)) > Abs(Component(m, Z));
    var r, s := GetFaceFromNormal(n), GetFaceFromNormal(m);
    assert r.axis == s.axis;
    assert Component(n, r.axis) > 0.0 <==> Component(m, r.axis) > 0.0;
  }

  /**
   * The classification depends only on the direction of the normal: scaling
   * it by a positive factor gives the same axis and face.
   */
  lemma FaceFromNormalScaleInvariant(normal: Vec3, k: real)
    requires k > 0.0
    ensures GetFaceFromNormal(Vec3(k * normal.x, k * normal.y, k * normal.z)) == GetFaceFromNormal(normal)
  {
    var scaled := Vec3(k * normal.x, k * normal.y, k * normal.z);
    forall a ensures Component(scaled, a) > 0.0 <==> Component(normal, a) > 0.0 {
      ScaledComponent(normal, scaled, k, a);
    }
    forall a, b ensures Abs(Component(normal, a)) > Abs(Component(normal, b)) <==>
                        Abs(Component(scaled, a)) > Abs(Component(scaled, b)) {
      ScaledPair(normal, scaled, k, a, b);
    }
    FaceFromNormalShape(normal, scaled);
  }

  lemma ScaledPair(normal: Vec3, scaled: Vec3, k: real, a: Axis, b: Axis)
    requires k > 0.0 && scaled == Vec3(k * normal.x, k * normal.y, k * normal.z)
    ensures Abs(Component(normal, a)) > Abs(Component(normal, b)) <==> Abs(Component(scaled, a)) > Abs(Component(scaled, b))
  {
    ScaledComponent(normal, scaled, k, a);
    ScaledComponent(normal, scaled, k, b);
    ScaleOrder(Abs(Component(normal, a)), Abs(Component(normal, b)),
               Abs(Component(scaled, a)), Abs(Component(scaled, b)), k);
  }

  lemma ScaledComponent(normal: Vec3, scaled: Vec3, k: real, a: Axis)
    requires k > 0.0 && scaled == Vec3(k * normal.x, k * normal.y, k * normal.z)
    ensures Abs(Component(scaled, a)) == k * Abs(Component(normal, a))
    ensures Component(scaled, a) > 0.0 <==> Component(normal, a) > 0.0
  {
    assert Component(scaled, a) == k * Component(normal, a);
    ScaleAbs(Component(normal, a), k);
  }

  lemma ScaleAbs(v: real, k: real)
    requires k > 0.0
    ensures Abs(k * v) == k * Abs(v) && (k * v > 0.0 <==> v > 0.0)
  {
    if v < 0.0 {
      assert k * v < 0.0;
    } else {
      assert k * v >= 0.0;
    }
  }

  lemma ScaleOrder(x: real, y: real, kx: real, ky: real, k: real)
    requires k > 0.0 && kx == k * x && ky == k * y
    ensures kx > ky <==> x > y
  {
    assert kx - ky == k * (x - y);
  }

  /**
   * `getLayerFromCubie`: the cubie's coordinate along the axis, so the cubie
   * lies in the layer returned, and the layer is in `[0, size-1]` whenever
   * the cubie's triple is.
   */
  function GetLayerFromCubie(cubie: Cubie, axis: Axis): (layer: int)
    reads cubie
    ensures IsInLayer(cubie, axis, layer)
    ensures forall size :: InRange(cubie.index, size) ==> 0 <= layer < size
  {
    Coordinate(cubie.index, AxisToIndexKey(axis))
  }

  /** What `extractRotationInfo` returns. */
  datatype RotationInfo = RotationInfo(cubie: Cubie, face: Face, axis: Axis, layer: int)

  /**
   * `extractRotationInfo` for a hit on `mesh` whose world-space face normal
   * is `normal`: the cubie owning the mesh (the ray is cast against the
   * cubies' meshes only, so there is one), the face and axis the normal
   * points along, and the picked cubie's layer along that axis.
   */
  function ExtractRotationInfo(cs: seq<Cubie>, mesh: Mesh, normal: Vec3): (r: RotationInfo)
    requires mesh in Meshes(cs)
    reads cs
    ensures r.cubie in cs && r.cubie.object3D == mesh
    ensures FaceInfo(r.axis, r.face) == GetFaceFromNormal(normal)
    ensures IsInLayer(r.cubie, r.axis, r.layer)
    ensures forall size :: InRange(r.cubie.index, size) ==> 0 <= r.layer < size
  {
    var cubie := FindCubie(cs, mesh).value;
    var info := GetFaceFromNormal(normal);
    RotationInfo(cubie, info.face, info.axis, GetLayerFromCubie(cubie, info.axis))
  }
}
