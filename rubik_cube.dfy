/**
 * The puzzle object: `size^3` cubies, each with its index triple, its mesh
 * and its six face colours, built in three nested loops; `dispose` and
 * `rebuild` discard them and build a fresh grid.
 */
module Cubes {

  import opened Wrappers
  import opened Constants
  import opened Lattice

  /** A render mesh (`cubie.object3D`); only its identity is modelled. */
  class Mesh {
    constructor () {}
  }

  /** RUBIK_COLORS: the colour of a face, or NONE for an inner or hidden face. */
  datatype Colour = FaceColour(face: Face) | NoColour

  /** The material slots of a box, in order: +X, -X, +Y, -Y, +Z, -Z. */
  const MaterialFaces: seq<Face> := [Right, Left, Up, Down, Front, Back]

  /** A cubie at triple `t` lies on face `f` of a cube whose largest coordinate is `max`. */
  predicate OnBoundary(f: Face, t: Index, max: int) {
    match f
    case Right => t.leftRight == max
    case Left => t.leftRight == 0
    case Up => t.downUp == max
    case Down => t.downUp == 0
    case Front => t.backFront == max
    case Back => t.backFront == 0
  }

  /**
   * `_createCubieMaterials`: material slot `i` takes the colour of face
   * `MaterialFaces[i]` exactly when the cubie lies on that face, and NONE
   * otherwise.
   */
  function CubieMaterials(size: int, leftRight: int, downUp: int, backFront: int): seq<Colour> {
    var max := size - 1;
    [ if leftRight == max then FaceColour(Right) else NoColour,
      if leftRight == 0 then FaceColour(Left) else NoColour,
      if downUp == max then FaceColour(Up) else NoColour,
      if downUp == 0 then FaceColour(Down) else NoColour,
      if backFront == max then FaceColour(Front) else NoColour,
      if backFront == 0 then FaceColour(Back) else NoColour ]
  }

  /**
   * The six slots of `CubieMaterials`: slot `i` is coloured exactly when the
   * cubie lies on face `MaterialFaces[i]`, and then it has that face's colour.
   */
  lemma CubieMaterialsFaces(size: int, t: Index)
    ensures var m := CubieMaterials(size, t.leftRight, t.downUp, t.backFront);
      && |m| == 6
      && (forall i :: 0 <= i < 6 ==> (m[i] != NoColour <==> OnBoundary(MaterialFaces[i], t, size - 1)))
      && (forall i :: 0 <= i < 6 && m[i] != NoColour ==> m[i] == FaceColour(MaterialFaces[i]))
  {
  }

  /**
   * On a cube of side at least 2, no cubie is coloured on two opposite faces,
   * and a cubie strictly inside the cube is not coloured at all.
   */
  lemma MaterialsOfOppositeFaces(size: int, t: Index)
    requires size >= 2
    ensures var m := CubieMaterials(size, t.leftRight, t.downUp, t.backFront);
      && (m[0] == NoColour || m[1] == NoColour)
      && (m[2] == NoColour || m[3] == NoColour)
      && (m[4] == NoColour || m[5] == NoColour)
    ensures (forall k: IndexKey :: 0 < Coordinate(t, k) < size - 1) ==>
      forall i :: 0 <= i < 6 ==> CubieMaterials(size, t.leftRight, t.downUp, t.backFront)[i] == NoColour
  {
    var m := CubieMaterials(size, t.leftRight, t.downUp, t.backFront);
    CubieMaterialsFaces(size, t);
    if forall k: IndexKey :: 0 < Coordinate(t, k) < size - 1 {
      assert 0 < Coordinate(t, LeftRight) < size - 1;
      assert 0 < Coordinate(t, DownUp) < size - 1;
      assert 0 < Coordinate(t, BackFront) < size - 1;
      forall i | 0 <= i < 6 ensures m[i] == NoColour {
        assert !OnBoundary(MaterialFaces[i], t, size - 1);
      }
    }
  }

  /** A cubie (`Cube` with its `index` record). */
  class Cubie {
    var index: Index
    const object3D: Mesh
    const materials: seq<Colour>

    constructor (index: Index, materials: seq<Colour>)
      ensures this.index == index && this.materials == materials && fresh(object3D)
    {
      this.index := index;
      this.materials := materials;
      this.object3D := new Mesh();
    }
  }

  /** The index triples of a list of cubies, in list order. */
  ghost function Indices(cs: seq<Cubie>): seq<Index>
    reads cs
  {
    seq(|cs|, i reads cs requires 0 <= i < |cs| => cs[i].index)
  }

  /** No two cubies of the list share a mesh (so no cubie occurs twice). */
  ghost predicate DistinctMeshes(cs: seq<Cubie>) {
    forall i, j :: 0 <= i < j < |cs| ==> cs[i].object3D != cs[j].object3D
  }

  /** Every cubie from position `from` on carries the materials of its own triple. */
  ghost predicate PaintedFrom(cs: seq<Cubie>, from: int, size: int)
    reads cs
  {
    forall i :: 0 <= from <= i < |cs| ==>
      cs[i].materials == CubieMaterials(size, cs[i].index.leftRight, cs[i].index.downUp, cs[i].index.backFront)
  }

  /**
   * `cs` is the list `before` followed by new cubies whose triples are
   * `added`, in order, each carrying the materials of its triple.
   */
  ghost predicate Appended(before: seq<Cubie>, cs: seq<Cubie>, added: seq<Index>, size: int)
    reads cs
  {
    && |cs| == |before| + |added|
    && cs[..|before|] == before
    && (forall i :: |before| <= i < |cs| ==> cs[i].index == added[i - |before|])
    && PaintedFrom(cs, |before|, size)
  }

  lemma AppendedPush(before: seq<Cubie>, cs: seq<Cubie>, added: seq<Index>, size: int, c: Cubie)
    requires Appended(before, cs, added, size)
    requires c.materials == CubieMaterials(size, c.index.leftRight, c.index.downUp, c.index.backFront)
    ensures Appended(before, cs + [c], added + [c.index], size)
  {
    var cs' := cs + [c];
    assert cs'[..|before|] == cs[..|before|];
  }

  /** Cubies appended to an empty list have exactly the appended triples. */
  lemma AppendedToEmpty(cs: seq<Cubie>, added: seq<Index>, size: int)
    requires Appended([], cs, added, size)
    ensures Indices(cs) == added
  {
  }

  /** No cubie from position `from` on shares its mesh with any cubie before it. */
  ghost predicate MeshesDistinctFrom(cs: seq<Cubie>, from: int) {
    forall i, j :: 0 <= i < j < |cs| && from <= j ==> cs[i].object3D != cs[j].object3D
  }

  /** A cubie whose mesh is new keeps the meshes from `from` on distinct. */
  lemma MeshesDistinctPush(cs: seq<Cubie>, from: int, c: Cubie)
    requires MeshesDistinctFrom(cs, from)
    requires forall i :: 0 <= i < |cs| ==> cs[i].object3D != c.object3D
    ensures MeshesDistinctFrom(cs + [c], from)
  {
  }

  lemma MeshesDistinctFromTrans(cs: seq<Cubie>, mid: seq<Cubie>, from: int)
    requires from <= |mid| <= |cs| && cs[..|mid|] == mid
    requires MeshesDistinctFrom(mid, from) && MeshesDistinctFrom(cs, |mid|)
    ensures MeshesDistinctFrom(cs, from)
  {
    forall i, j | 0 <= i < j < |cs| && from <= j ensures cs[i].object3D != cs[j].object3D {
      if j < |mid| {
        assert cs[i] == mid[i] && cs[j] == mid[j];
      }
    }
  }

  lemma AppendedTrans(before: seq<Cubie>, mid: seq<Cubie>, a1: seq<Index>,
                      cs: seq<Cubie>, a2: seq<Index>, size: int)
    requires Appended(before, mid, a1, size)
    requires Appended(mid, cs, a2, size)
    ensures Appended(before, cs, a1 + a2, size)
  {
    assert cs[..|before|] == mid[..|before|];
    forall i | |before| <= i < |mid| ensures cs[i] == mid[i] {
      assert cs[..|mid|][i] == mid[i];
    }
  }

  /* ---------------------------------------------------------------------- */
  /* The triples `_createCubies` produces, loop level by loop level.         */

  /** Innermost loop: `(leftRight, downUp, 0) .. (leftRight, downUp, m-1)`. */
  ghost function Column(leftRight: int, downUp: int, m: int): seq<Index>
    decreases m
  {
    if m <= 0 then [] else Column(leftRight, downUp, m - 1) + [Index(leftRight, downUp, m - 1)]
  }

  /** Middle loop: the columns `downUp = 0 .. m-1` of slab `leftRight`, each of length `n`. */
  ghost function Slab(n: int, leftRight: int, m: int): seq<Index>
    decreases m
  {
    if m <= 0 then [] else Slab(n, leftRight, m - 1) + Column(leftRight, m - 1, n)
  }

  /** Outer loop: the slabs `leftRight = 0 .. m-1`, each `n` by `n`. */
  ghost function Block(n: int, m: int): seq<Index>
    decreases m
  {
    if m <= 0 then [] else Block(n, m - 1) + Slab(n, m - 1, n)
  }

  /** The triples of a freshly built cube of side `size`, in the order they are appended. */
  ghost function GridIndices(size: int): seq<Index> {
    Block(size, size)
  }

  /** Strict lexicographic order: `leftRight` first, then `downUp`, then `backFront`. */
  predicate LexLess(a: Index, b: Index) {
    || a.leftRight < b.leftRight
    || (a.leftRight == b.leftRight && a.downUp < b.downUp)
    || (a.leftRight == b.leftRight && a.downUp == b.downUp && a.backFront < b.backFront)
  }

  ghost predicate LexSorted(s: seq<Index>) {
    forall i, j :: 0 <= i < j < |s| ==> LexLess(s[i], s[j])
  }

  lemma LexSortedConcat(a: seq<Index>, b: seq<Index>)
    requires LexSorted(a) && LexSorted(b)
    requires forall x, y :: x in a && y in b ==> LexLess(x, y)
    ensures LexSorted(a + b)
  {
    var s := a + b;
    forall i, j | 0 <= i < j < |s| ensures LexLess(s[i], s[j]) {
      if j < |a| {
        assert s[i] == a[i] && s[j] == a[j];
      } else if i >= |a| {
        assert s[i] == b[i - |a|] && s[j] == b[j - |a|];
      } else {
        assert s[i] in a && s[j] in b;
      }
    }
  }

  lemma {:induction false} ColumnLength(leftRight: int, downUp: int, m: int)
    requires m >= 0
    ensures |Column(leftRight, downUp, m)| == m
  {
    if m > 0 {
      ColumnLength(leftRight, downUp, m - 1);
    }
  }

  lemma {:induction false} SlabLength(n: int, leftRight: int, m: int)
    requires n >= 0 && m >= 0
    ensures |Slab(n, leftRight, m)| == m * n
  {
    if m > 0 {
      SlabLength(n, leftRight, m - 1);
      ColumnLength(leftRight, m - 1, n);
      assert |Slab(n, leftRight, m)| == (m - 1) * n + n;
    }
  }

  lemma {:induction false} ColumnMember(leftRight: int, downUp: int, m: int, t: Index)
    requires m >= 0
    ensures t in Column(leftRight, downUp, m) <==>
      t.leftRight == leftRight && t.downUp == downUp && 0 <= t.backFront < m
  {
    if m > 0 {
      var k := m - 1;
      assert Column(leftRight, downUp, m) == Column(leftRight, downUp, k) + [Index(leftRight, downUp, k)];
      ColumnMember(leftRight, downUp, k, t);
    }
  }

  lemma {:induction false} ColumnSorted(leftRight: int, downUp: int, m: int)
    requires m >= 0
    ensures LexSorted(Column(leftRight, downUp, m))
  {
    if m > 0 {
      var k := m - 1;
      var prev := Column(leftRight, downUp, k);
      var last := Index(leftRight, downUp, k);
      assert Column(leftRight, downUp, m) == prev + [last];
      ColumnSorted(leftRight, downUp, k);
      forall x | x in prev ensures LexLess(x, last) {
        ColumnMember(leftRight, downUp, k, x);
      }
      LexSortedConcat(prev, [last]);
    }
  }

  lemma {:induction false} SlabMember(n: int, leftRight: int, m: int, t: Index)
    requires n >= 0 && m >= 0
    ensures t in Slab(n, leftRight, m) <==>
      t.leftRight == leftRight && 0 <= t.downUp < m && 0 <= t.backFront < n
  {
    if m > 0 {
      var k := m - 1;
      assert Slab(n, leftRight, m) == Slab(n, leftRight, k) + Column(leftRight, k, n);
      SlabMember(n, leftRight, k, t);
      ColumnMember(leftRight, k, n, t);
    }
  }

  lemma {:induction false} SlabSorted(n: int, leftRight: int, m: int)
    requires n >= 0 && m >= 0
    ensures LexSorted(Slab(n, leftRight, m))
  {
    if m > 0 {
      var k := m - 1;
      var prev := Slab(n, leftRight, k);
      var col := Column(leftRight, k, n);
      assert Slab(n, leftRight, m) == prev + col;
      SlabSorted(n, leftRight, k);
      ColumnSorted(leftRight, k, n);
      forall x, y | x in prev && y in col ensures LexLess(x, y) {
        SlabMember(n, leftRight, k, x);
        ColumnMember(leftRight, k, n, y);
      }
      LexSortedConcat(prev, col);
    }
  }

  lemma {:induction false} BlockLength(n: int, m: int)
    requires n >= 0 && m >= 0
    ensures |Block(n, m)| == m * (n * n)
  {
    if m > 0 {
      BlockLength(n, m - 1);
      SlabLength(n, m - 1, n);
      var k := n * n;
      assert |Block(n, m)| == (m - 1) * k + k;
    }
  }

  /** One step of `BlockMember`, stated over abstract sequences so that no grid function unfolds. */
  lemma BlockStepMember(prev: seq<Index>, slab: seq<Index>, n: int, m: int, t: Index)
    requires m > 0
    requires t in prev <==> 0 <= t.leftRight < m - 1 && 0 <= t.downUp < n && 0 <= t.backFront < n
    requires t in slab <==> t.leftRight == m - 1 && 0 <= t.downUp < n && 0 <= t.backFront < n
    ensures t in prev + slab <==> 0 <= t.leftRight < m && 0 <= t.downUp < n && 0 <= t.backFront < n
  {
  }

  lemma {:induction false} BlockMember(n: int, m: int, t: Index)
    requires n >= 0 && m >= 0
    ensures t in Block(n, m) <==> 0 <= t.leftRight < m && 0 <= t.downUp < n && 0 <= t.backFront < n
  {
    if m > 0 {
      var k := m - 1;
      assert Block(n, m) == Block(n, k) + Slab(n, k, n);
      BlockMember(n, k, t);
      SlabMember(n, k, n, t);
      BlockStepMember(Block(n, k), Slab(n, k, n), n, m, t);
    }
  }

  lemma {:induction false} BlockSorted(n: int, m: int)
    requires n >= 0 && m >= 0
    ensures LexSorted(Block(n, m))
  {
    if m > 0 {
      var k := m - 1;
      var prev := Block(n, k);
      var slab := Slab(n, k, n);
      assert Block(n, m) == prev + slab;
      BlockSorted(n, k);
      SlabSorted(n, k, n);
      forall x, y | x in prev && y in slab ensures LexLess(x, y) {
        BlockMember(n, k, x);
        SlabMember(n, k, n, y);
      }
      LexSortedConcat(prev, slab);
    }
  }

  /**
   * A freshly built cube of side `size` has `size^3` cubies (none when
   * `size <= 0`, as the loops then do not run), appended in lexicographic
   * order, and its triples form a bijection onto `[0, size-1]^3`.
   */
  lemma GridIndicesBijective(size: int)
    ensures |GridIndices(size)| == if size > 0 then size * size * size else 0
    ensures LexSorted(GridIndices(size))
    ensures Bijective(GridIndices(size), size)
  {
    var g := GridIndices(size);
    if size > 0 {
      BlockLength(size, size);
      MulAssoc(size);
      BlockSorted(size, size);
      LexSortedDistinct(g);
      forall t | InRange(t, size) ensures t in g {
        BlockMember(size, size, t);
      }
      forall i | 0 <= i < |g| ensures InRange(g[i], size) {
        BlockMember(size, size, g[i]);
      }
    }
  }

  lemma MulAssoc(n: int)
    ensures n * (n * n) == n * n * n
  {
  }

  lemma LexSortedDistinct(s: seq<Index>)
    requires LexSorted(s)
    ensures Distinct(s)
  {
    forall i, j | 0 <= i < j < |s| ensures s[i] != s[j] {
      assert LexLess(s[i], s[j]);
    }
  }

  /** One pass of the middle loop: the column `downUp` extends the slab built so far. */
  lemma SlabStep(before: seq<Cubie>, was: seq<Cubie>, cs: seq<Cubie>,
                 size: int, leftRight: int, downUp: int)
    requires 0 <= downUp
    requires Appended(before, was, Slab(size, leftRight, downUp), size)
    requires Appended(was, cs, Column(leftRight, downUp, size), size)
    ensures Appended(before, cs, Slab(size, leftRight, downUp + 1), size)
  {
    AppendedTrans(before, was, Slab(size, leftRight, downUp), cs, Column(leftRight, downUp, size), size);
    assert Slab(size, leftRight, downUp + 1) == Slab(size, leftRight, downUp) + Column(leftRight, downUp, size);
  }

  /** One pass of the outer loop: the slab `leftRight` extends the block built so far. */
  lemma BlockStep(before: seq<Cubie>, was: seq<Cubie>, cs: seq<Cubie>,
                  size: int, leftRight: int)
    requires 0 <= leftRight
    requires Appended(before, was, Block(size, leftRight), size)
    requires Appended(was, cs, Slab(size, leftRight, size), size)
    ensures Appended(before, cs, Block(size, leftRight + 1), size)
  {
    AppendedTrans(before, was, Block(size, leftRight), cs, Slab(size, leftRight, size), size);
    assert Block(size, leftRight + 1) == Block(size, leftRight) + Slab(size, leftRight, size);
  }

  /** One pass of the inner loop: cubie `backFront` extends the column built so far. */
  lemma ColumnStep(before: seq<Cubie>, cs: seq<Cubie>, size: int,
                   leftRight: int, downUp: int, backFront: int, c: Cubie)
    requires 0 <= backFront
    requires Appended(before, cs, Column(leftRight, downUp, backFront), size)
    requires c.index == Index(leftRight, downUp, backFront)
    requires c.materials == CubieMaterials(size, leftRight, downUp, backFront)
    ensures Appended(before, cs + [c], Column(leftRight, downUp, backFront + 1), size)
  {
    AppendedPush(before, cs, Column(leftRight, downUp, backFront), size, c);
    assert Column(leftRight, downUp, backFront + 1) == Column(leftRight, downUp, backFront) + [c.index];
  }

  lemma GridIndicesUnfold(size: int, m: int)
    requires 0 <= m && (size > 0 ==> m == size) && (size <= 0 ==> m == 0)
    ensures Block(size, m) == GridIndices(size)
  {
  }

  /** Options of the constructor and of `rebuild`; an absent field is `undefined`. */
  datatype CubeOptions = CubeOptions(size: Option<int>, cubieSize: Option<real>, gap: Option<real>)

  /** `RubikCube` */
  class RubikCube {
    var size: int
    var cubieSize: real
    var gap: real
    var cubies: seq<Cubie>

    /** The grid invariant: distinct cubies whose triples are a bijection onto `[0, size-1]^3`. */
    ghost predicate Valid()
      reads this, cubies
    {
      DistinctMeshes(cubies) && Bijective(Indices(cubies), size)
    }

    /** Defaults: size 3, cubie size 1, gap 0.05. */
    constructor (options: CubeOptions)
      ensures size == options.size.GetOr(3)
      ensures cubieSize == options.cubieSize.GetOr(1.0)
      ensures gap == options.gap.GetOr(0.05)
      ensures Valid() && Indices(cubies) == GridIndices(size)
      ensures PaintedFrom(cubies, 0, size)
      ensures forall i :: 0 <= i < |cubies| ==> fresh(cubies[i])
    {
      size := options.size.GetOr(3);
      cubieSize := options.cubieSize.GetOr(1.0);
      gap := options.gap.GetOr(0.05);
      cubies := [];
      new;
      ghost var options' := (size, cubieSize, gap);
      CreateCubies();
      assert (size, cubieSize, gap) == options';
      AppendedToEmpty(cubies, GridIndices(size), size);
      GridIndicesBijective(size);
    }

    /**
     * `_createCubies`: appends one fresh cubie per triple of `[0, size-1]^3`,
     * `leftRight` outermost, then `downUp`, then `backFront`, each coloured by
     * `_createCubieMaterials`. The two inner loops are `CreateSlab` and
     * `CreateColumn`.
     */
    method CreateCubies()
      modifies this`cubies
      ensures Appended(old(cubies), cubies, GridIndices(size), size)
      ensures MeshesDistinctFrom(cubies, |old(cubies)|)
      ensures forall i :: |old(cubies)| <= i < |cubies| ==> fresh(cubies[i])
    {
      ghost var before := cubies;
      var leftRight := 0;
      while leftRight < size
        invariant 0 <= leftRight <= if size > 0 then size else 0
        invariant Appended(before, cubies, Block(size, leftRight), size)
        invariant MeshesDistinctFrom(cubies, |before|)
        invariant forall i :: |before| <= i < |cubies| ==> fresh(cubies[i])
      {
        ghost var was := cubies;
        AddSlab(before, leftRight);
        forall i | |before| <= i < |cubies| ensures fresh(cubies[i]) {
          if i < |was| {
            assert cubies[..|was|][i] == was[i];
          }
        }
        leftRight := leftRight + 1;
      }
      GridIndicesUnfold(size, leftRight);
    }

    /**
     * One pass of the outer loop of `_createCubies`: slab `leftRight` extends
     * the block built so far; the loop body kept apart for the proof, not a
     * function of the original.
     */
    method AddSlab(ghost before: seq<Cubie>, leftRight: int)
      requires 0 <= leftRight
      requires Appended(before, cubies, Block(size, leftRight), size)
      requires MeshesDistinctFrom(cubies, |before|)
      modifies this`cubies
      ensures Appended(before, cubies, Block(size, leftRight + 1), size)
      ensures MeshesDistinctFrom(cubies, |before|)
      ensures cubies[..|old(cubies)|] == old(cubies)
      ensures forall i :: |old(cubies)| <= i < |cubies| ==> fresh(cubies[i])
    {
      ghost var was := cubies;
      CreateSlab(leftRight);
      BlockStep(before, was, cubies, size, leftRight);
      MeshesDistinctFromTrans(cubies, was, |before|);
    }

    /** The middle loop of `_createCubies`: the `size` columns of slab `leftRight`. */
    method CreateSlab(leftRight: int)
      modifies this`cubies
      ensures Appended(old(cubies), cubies, Slab(size, leftRight, size), size)
      ensures MeshesDistinctFrom(cubies, |old(cubies)|)
      ensures forall i :: |old(cubies)| <= i < |cubies| ==> fresh(cubies[i])
    {
      ghost var before := cubies;
      var downUp := 0;
      while downUp < size
        invariant 0 <= downUp <= if size > 0 then size else 0
        invariant Appended(before, cubies, Slab(size, leftRight, downUp), size)
        invariant MeshesDistinctFrom(cubies, |before|)
        invariant forall i :: |before| <= i < |cubies| ==> fresh(cubies[i])
      {
        ghost var was := cubies;
        CreateColumn(leftRight, downUp);
        SlabStep(before, was, cubies, size, leftRight, downUp);
        MeshesDistinctFromTrans(cubies, was, |before|);
        forall i | |before| <= i < |cubies| ensures fresh(cubies[i]) {
          if i < |was| {
            assert cubies[..|was|][i] == was[i];
          }
        }
        downUp := downUp + 1;
      }
    }

    /** The innermost loop of `_createCubies`: the `size` cubies of column `(leftRight, downUp)`. */
    method CreateColumn(leftRight: int, downUp: int)
      modifies this`cubies
      ensures Appended(old(cubies), cubies, Column(leftRight, downUp, size), size)
      ensures MeshesDistinctFrom(cubies, |old(cubies)|)
      ensures forall i :: |old(cubies)| <= i < |cubies| ==> fresh(cubies[i])
    {
      ghost var before := cubies;
      var backFront := 0;
      while backFront < size
        invariant 0 <= backFront <= if size > 0 then size else 0
        invariant Appended(before, cubies, Column(leftRight, downUp, backFront), size)
        invariant MeshesDistinctFrom(cubies, |before|)
        invariant forall i :: |before| <= i < |cubies| ==> fresh(cubies[i])
      {
        var materials := CubieMaterials(size, leftRight, downUp, backFront);
        var cubie := new Cubie(Index(leftRight, downUp, backFront), materials);
        ColumnStep(before, cubies, size, leftRight, downUp, backFront, cubie);
        MeshesDistinctPush(cubies, |before|, cubie);
        ghost var was := cubies;
        cubies := cubies + [cubie];
        forall i | |before| <= i < |cubies| ensures fresh(cubies[i]) {
          if i < |was| {
            assert cubies[..|was|][i] == was[i];
          }
        }
        backFront := backFront + 1;
      }
    }

    /** `dispose`: the cubie list is emptied; the options are kept. */
    method Dispose()
      modifies this`cubies
      ensures cubies == []
    {
      cubies := [];
    }

    /**
     * `rebuild`: each option that is given overwrites the current one; then
     * every old cubie is discarded and a fresh `size^3` grid is built, so no
     * earlier rotation survives.
     */
    method Rebuild(options: CubeOptions)
      modifies this
      ensures size == options.size.GetOr(old(size))
      ensures cubieSize == options.cubieSize.GetOr(old(cubieSize))
      ensures gap == options.gap.GetOr(old(gap))
      ensures Valid() && Indices(cubies) == GridIndices(size)
      ensures PaintedFrom(cubies, 0, size)
      ensures forall i :: 0 <= i < |cubies| ==> fresh(cubies[i])
    {
      if options.size.Some? { size := options.size.value; }
      if options.cubieSize.Some? { cubieSize := options.cubieSize.value; }
      if options.gap.Some? { gap := options.gap.value; }
      Dispose();
      CreateCubies();
      AppendedToEmpty(cubies, GridIndices(size), size);
      GridIndicesBijective(size);
    }
  }
}
