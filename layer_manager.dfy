/**
 * `LayerManager`: which cubies a layer holds, the temporary group that carries
 * their meshes while the layer turns, and the index update committed when the
 * turn ends.
 */
module Layers {

  import opened Wrappers
  import opened Constants
  import opened Lattice
  import opened Cubes

  /**
   * `_isInLayer`: the cubie's coordinate along `axis` (AXIS_TO_INDEX_KEY)
   * equals `layer`; a cubie lies in exactly one layer along each axis.
   */
  predicate IsInLayer(c: Cubie, axis: Axis, layer: int)
    reads c
  {
    InLayer(c.index, axis, layer)
  }

  /**
   * `getCubiesInLayer` on a cubie list (the `filter`): the cubies of `cs` in
   * the layer, in list order, each as often as it occurs in `cs`.
   */
  function CubiesInLayer(cs: seq<Cubie>, axis: Axis, layer: int): seq<Cubie>
    reads cs
  {
    if |cs| == 0 then []
    else
      var prev := CubiesInLayer(cs[..|cs| - 1], axis, layer);
      var last := cs[|cs| - 1];
      if IsInLayer(last, axis, layer) then prev + [last] else prev
  }

  /** The filter's step: one more cubie at the end of the list is kept iff it is in the layer. */
  lemma CubiesInLayerSnoc(cs: seq<Cubie>, c: Cubie, axis: Axis, layer: int)
    ensures CubiesInLayer(cs + [c], axis, layer) ==
      CubiesInLayer(cs, axis, layer) + if IsInLayer(c, axis, layer) then [c] else []
  {
    assert (cs + [c])[..|cs|] == cs;
  }

  /**
   * The filter keeps exactly the cubies of the layer: a cubie is kept iff it
   * is in the list and in the layer, and then as often as the list holds it.
   */
  lemma {:induction false} CubiesInLayerMembers(cs: seq<Cubie>, axis: Axis, layer: int)
    ensures forall c :: c in CubiesInLayer(cs, axis, layer) ==> c in cs
    ensures forall c :: c in cs ==> (c in CubiesInLayer(cs, axis, layer) <==> IsInLayer(c, axis, layer))
    ensures forall c :: c in cs ==>
      multiset(CubiesInLayer(cs, axis, layer))[c] == if IsInLayer(c, axis, layer) then multiset(cs)[c] else 0
  {
    if |cs| > 0 {
      var init := cs[..|cs| - 1];
      var last := cs[|cs| - 1];
      assert cs == init + [last];
      CubiesInLayerMembers(init, axis, layer);
      CubiesInLayerSnoc(init, last, axis, layer);
    }
  }

  /**
   * The filter keeps the list order: filtering a list made of two parts
   * gives the filtered first part followed by the filtered second part.
   */
  lemma {:induction false} CubiesInLayerConcat(a: seq<Cubie>, b: seq<Cubie>, axis: Axis, layer: int)
    ensures CubiesInLayer(a + b, axis, layer) == CubiesInLayer(a, axis, layer) + CubiesInLayer(b, axis, layer)
    decreases |b|
  {
    if |b| == 0 {
      assert a + b == a;
    } else {
      var init, last := b[..|b| - 1], b[|b| - 1];
      assert b == init + [last];
      assert a + b == (a + init) + [last];
      CubiesInLayerConcat(a, init, axis, layer);
      CubiesInLayerSnoc(a + init, last, axis, layer);
      CubiesInLayerSnoc(init, last, axis, layer);
    }
  }

  /** The meshes (`object3D`) of a cubie list, in list order. */
  function Meshes(cs: seq<Cubie>): seq<Mesh> {
    seq(|cs|, i requires 0 <= i < |cs| => cs[i].object3D)
  }

  lemma MeshesSnoc(cs: seq<Cubie>, c: Cubie)
    ensures Meshes(cs + [c]) == Meshes(cs) + [c.object3D]
  {
  }

  /** `cs[i]` is the first cubie of `cs` whose mesh is `mesh`. */
  predicate FirstWithMesh(cs: seq<Cubie>, mesh: Mesh, i: int) {
    && 0 <= i < |cs|
    && cs[i].object3D == mesh
    && forall j :: 0 <= j < i ==> cs[j].object3D != mesh
  }

  /**
   * `cubies.find((c) => c.object3D === mesh)`: the first cubie whose mesh is
   * `mesh`, or `None` when no cubie has it.
   */
  function FindCubie(cs: seq<Cubie>, mesh: Mesh): (r: Option<Cubie>)
    ensures r.None? <==> mesh !in Meshes(cs)
    ensures r.Some? ==> exists i :: FirstWithMesh(cs, mesh, i) && cs[i] == r.value
  {
    if |cs| == 0 then None
    else if cs[0].object3D == mesh then
      assert FirstWithMesh(cs, mesh, 0);
      assert Meshes(cs)[0] == mesh;
      Some(cs[0])
    else
      var r := FindCubie(cs[1..], mesh);
      assert Meshes(cs) == [cs[0].object3D] + Meshes(cs[1..]);
      if r.Some? then
        var i :| FirstWithMesh(cs[1..], mesh, i) && cs[1..][i] == r.value;
        assert FirstWithMesh(cs, mesh, i + 1);
        r
      else r
  }

  /** When no two cubies share a mesh, looking a cubie's mesh up finds that cubie. */
  lemma FindCubieOfDistinct(cs: seq<Cubie>, c: Cubie)
    requires DistinctMeshes(cs) && c in cs
    ensures FindCubie(cs, c.object3D) == Some(c)
  {
    var r := FindCubie(cs, c.object3D);
    var k :| 0 <= k < |cs| && cs[k] == c;
    assert Meshes(cs)[k] == c.object3D;
    var i :| FirstWithMesh(cs, c.object3D, i) && cs[i] == r.value;
    assert i == k;
  }

  /**
   * What the draining loop of `finishRotationGroup` collects: for each child
   * mesh in order, the cubie found for it, skipping meshes with no cubie.
   */
  function FoundCubies(cs: seq<Cubie>, meshes: seq<Mesh>): seq<Cubie> {
    if |meshes| == 0 then [] else FoundOne(cs, meshes[0]) + FoundCubies(cs, meshes[1..])
  }

  /** `if (cubie) rotatedCubies.push(cubie)` for one child mesh. */
  function FoundOne(cs: seq<Cubie>, mesh: Mesh): seq<Cubie> {
    match FindCubie(cs, mesh)
    case Some(c) => [c]
    case None => []
  }

  /** One pass of the draining loop: the first child's cubie moves from the pending part to the collected part. */
  lemma FoundCubiesStep(cs: seq<Cubie>, meshes: seq<Mesh>, collected: seq<Cubie>)
    requires |meshes| > 0
    ensures collected + FoundCubies(cs, meshes) == (collected + FoundOne(cs, meshes[0])) + FoundCubies(cs, meshes[1..])
  {
  }

  /**
   * Looking up the meshes of cubies taken from a list with distinct meshes
   * gives those cubies back, in the same order.
   */
  lemma {:induction false} FoundCubiesOfMeshes(cs: seq<Cubie>, sub: seq<Cubie>)
    requires DistinctMeshes(cs)
    requires forall c :: c in sub ==> c in cs
    ensures FoundCubies(cs, Meshes(sub)) == sub
  {
    if |sub| > 0 {
      assert Meshes(sub)[1..] == Meshes(sub[1..]);
      FindCubieOfDistinct(cs, sub[0]);
      FoundCubiesOfMeshes(cs, sub[1..]);
    }
  }

  /** In a list with distinct meshes every cubie occurs once. */
  lemma DistinctMeshesOnce(cs: seq<Cubie>, c: Cubie)
    requires DistinctMeshes(cs) && c in cs
    ensures multiset(cs)[c] == 1
  {
    var k :| 0 <= k < |cs| && cs[k] == c;
    assert cs == cs[..k] + [c] + cs[k + 1..];
    assert c !in cs[..k] by {
      forall j | 0 <= j < k ensures cs[..k][j] != c {
        assert cs[j].object3D != cs[k].object3D;
      }
    }
    var tail := cs[k + 1..];
    assert c !in tail by {
      forall j | 0 <= j < |tail| ensures tail[j] != c {
        assert tail[j] == cs[k + 1 + j];
      }
    }
  }

  /** A `THREE.Group`; only which meshes it holds is modelled. */
  class RotationGroup {
    var children: seq<Mesh>

    constructor ()
      ensures children == []
    {
      children := [];
    }
  }

  /** `LayerManager` */
  class LayerManager {
    const rubik: RubikCube

    constructor (rubik: RubikCube)
      ensures this.rubik == rubik
    {
      this.rubik := rubik;
    }

    /**
     * `createRotationGroup`: a new group holding the meshes of exactly the
     * cubies of the layer, in cubie-list order.
     */
    method CreateRotationGroup(axis: Axis, layer: int) returns (group: RotationGroup)
      ensures fresh(group)
      ensures group.children == Meshes(CubiesInLayer(rubik.cubies, axis, layer))
    {
      group := new RotationGroup();
      var cs := rubik.cubies;
      var i := 0;
      while i < |cs|
        invariant 0 <= i <= |cs|
        invariant group.children == Meshes(CubiesInLayer(cs[..i], axis, layer))
      {
        ghost var sel := CubiesInLayer(cs[..i], axis, layer);
        assert cs[..i + 1] == cs[..i] + [cs[i]];
        CubiesInLayerSnoc(cs[..i], cs[i], axis, layer);
        if IsInLayer(cs[i], axis, layer) {
          MeshesSnoc(sel, cs[i]);
          group.children := group.children + [cs[i].object3D];
        }
        i := i + 1;
      }
      assert cs[..i] == cs;
    }

    /**
     * `finishRotationGroup`: drains the group (handing a child back to the
     * scene takes it out of the group) and returns, in child order, the cubie
     * found for each child mesh.
     */
    method FinishRotationGroup(group: RotationGroup) returns (rotated: seq<Cubie>)
      modifies group
      ensures group.children == []
      ensures rotated == FoundCubies(rubik.cubies, old(group.children))
    {
      var cs := rubik.cubies;
      rotated := [];
      while |group.children| > 0
        invariant rotated + FoundCubies(cs, group.children) == FoundCubies(cs, old(group.children))
        decreases |group.children|
      {
        var child := group.children[0];
        var cubie := FindCubie(cs, child);
        FoundCubiesStep(cs, group.children, rotated);
        if cubie.Some? {
          rotated := rotated + [cubie.value];
        }
        group.children := group.children[1..];
      }
    }

    /**
     * `commitCubieIndex`: every listed cubie's triple takes the quarter-turn
     * rule of `rotateAxis` with `max = size - 1`, once per time the cubie is
     * listed; an axis key that is none of `"x"`, `"y"`, `"z"` leaves every
     * triple as it was (names the rule table inherits from the object
     * prototype are outside this model). Cubies not listed are not touched.
     */
    method CommitCubieIndex(cubies: seq<Cubie>, rotateAxis: string, direction: int)
      modifies cubies
      ensures forall c :: c in cubies ==>
        c.index == TurnTimes(old(c.index), AxisFromName(rotateAxis), direction, rubik.size - 1, multiset(cubies)[c])
    {
      var max := rubik.size - 1;
      ghost var table := AxisFromName(rotateAxis);
      var i := 0;
      while i < |cubies|
        invariant 0 <= i <= |cubies|
        invariant forall j :: 0 <= j < |cubies| ==>
          cubies[j].index == TurnTimes(old(cubies[j].index), table, direction, max, multiset(cubies[..i])[cubies[j]])
      {
        var cubie := cubies[i];
        ghost var seen := multiset(cubies[..i]);
        CountStep(cubies, i);
        var rule := AxisFromName(rotateAxis);
        if rule.Some? {
          cubie.index := Turn(cubie.index, rule.value, direction, max);
        }
        TurnTimesStep(old(cubie.index), table, direction, max, seen[cubie]);
        forall j | 0 <= j < |cubies|
          ensures cubies[j].index == TurnTimes(old(cubies[j].index), table, direction, max, multiset(cubies[..i + 1])[cubies[j]])
        {
        }
        i := i + 1;
      }
      assert cubies[..i] == cubies;
      assert max == rubik.size - 1;
    }
  }

  /** Taking one more element of a list counts that element once more and no other. */
  lemma CountStep<T>(xs: seq<T>, i: int)
    requires 0 <= i < |xs|
    ensures multiset(xs[..i + 1])[xs[i]] == multiset(xs[..i])[xs[i]] + 1
    ensures forall y :: y != xs[i] ==> multiset(xs[..i + 1])[y] == multiset(xs[..i])[y]
  {
    assert xs[..i + 1] == xs[..i] + [xs[i]];
  }

  /** `TurnTimes` one step further: one more application of the rule, if the table has one. */
  lemma TurnTimesStep(t: Index, rule: Option<Axis>, dir: int, max: int, n: nat)
    ensures TurnTimes(t, rule, dir, max, n + 1) ==
      if rule.Some? then Turn(TurnTimes(t, rule, dir, max, n), rule.value, dir, max) else TurnTimes(t, rule, dir, max, n)
  {
  }

  /**
   * In a list with distinct meshes, the filter for a layer holds each cubie
   * of the layer exactly once and no other cubie.
   */
  lemma LayerSelection(cs: seq<Cubie>, axis: Axis, layer: int)
    requires DistinctMeshes(cs)
    ensures forall c :: c in CubiesInLayer(cs, axis, layer) ==> c in cs
    ensures forall i :: 0 <= i < |cs| ==>
      (cs[i] in CubiesInLayer(cs, axis, layer) <==> InLayer(cs[i].index, axis, layer))
    ensures forall c :: c in CubiesInLayer(cs, axis, layer) ==> multiset(CubiesInLayer(cs, axis, layer))[c] == 1
  {
    CubiesInLayerMembers(cs, axis, layer);
    forall c | c in CubiesInLayer(cs, axis, layer) ensures multiset(CubiesInLayer(cs, axis, layer))[c] == 1 {
      DistinctMeshesOnce(cs, c);
    }
  }

  /**
   * Committing the turn of a selection that holds each cubie of one layer
   * once and nothing else turns the triples of that layer and keeps all
   * others: the list's triples become `LayerTurn` of the old ones.
   */
  lemma CommitIsLayerTurn(cs: seq<Cubie>, pre: seq<Index>, rotated: seq<Cubie>, axis: Axis, layer: int, dir: int, max: int)
    requires |pre| == |cs|
    requires forall i :: 0 <= i < |cs| ==> (cs[i] in rotated <==> InLayer(pre[i], axis, layer))
    requires forall c :: c in rotated ==> multiset(rotated)[c] == 1
    requires forall i :: 0 <= i < |cs| && cs[i] in rotated ==>
      cs[i].index == TurnTimes(pre[i], Some(axis), dir, max, multiset(rotated)[cs[i]])
    requires forall i :: 0 <= i < |cs| && cs[i] !in rotated ==> cs[i].index == pre[i]
    ensures Indices(cs) == LayerTurn(pre, axis, layer, dir, max)
  {
    var post := Indices(cs);
    forall i | 0 <= i < |cs| ensures post[i] == LayerTurn(pre, axis, layer, dir, max)[i] {
      if InLayer(pre[i], axis, layer) {
        assert TurnTimes(pre[i], Some(axis), dir, max, 1) == Turn(pre[i], axis, dir, max);
      }
    }
  }

}
