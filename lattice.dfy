/**
 * The integer lattice a cube of side `size` lives on: the index triple every
 * cubie carries, the quarter-turn rule that `commitCubieIndex` applies to it
 * (one rule per axis and per sign of the direction), and the bijection
 * between cubies and triples that every committed rotation must preserve.
 */
module Lattice {

  import opened Wrappers
  import opened Constants

  /** A cubie's `index` record: `(leftRight, downUp, backFront)`. */
  datatype Index = Index(leftRight: int, downUp: int, backFront: int)

  /** `index[key]` */
  function Coordinate(t: Index, k: IndexKey): int {
    match k
    case LeftRight => t.leftRight
    case DownUp => t.downUp
    case BackFront => t.backFront
  }

  /** `index[AXIS_TO_INDEX_KEY[axis]]`: the coordinate of a triple along an axis. */
  function AxisCoordinate(t: Index, axis: Axis): int {
    Coordinate(t, AxisToIndexKey(axis))
  }

  /** `_isInLayer` on an index triple. */
  predicate InLayer(t: Index, axis: Axis, layer: int) {
    AxisCoordinate(t, axis) == layer
  }

  /** Every coordinate lies in `[0, size-1]`. */
  predicate InRange(t: Index, size: int) {
    && 0 <= t.leftRight < size
    && 0 <= t.downUp < size
    && 0 <= t.backFront < size
  }

  /**
   * One quarter turn of a triple about `axis`, as `rotationLogic[axis](idx, dir)`
   * does it with `max = size - 1`: a direction `> 0` takes the clockwise rule,
   * every other direction (0 included) the counter-clockwise one. Both new
   * coordinates are computed from the old pair (the rule destructures the
   * pair before writing).
   */
  function Turn(t: Index, axis: Axis, dir: int, max: int): (r: Index)
    ensures AxisCoordinate(r, axis) == AxisCoordinate(t, axis)
  {
    match axis
    case X =>
      if dir > 0 then t.(downUp := max - t.backFront, backFront := t.downUp)
      else t.(downUp := t.backFront, backFront := max - t.downUp)
    case Y =>
      if dir > 0 then t.(leftRight := t.backFront, backFront := max - t.leftRight)
      else t.(leftRight := max - t.backFront, backFront := t.leftRight)
    case Z =>
      if dir > 0 then t.(leftRight := max - t.downUp, downUp := t.leftRight)
      else t.(leftRight := t.downUp, downUp := max - t.leftRight)
  }

  /** A direction on the other side of zero from `dir`. */
  function Reverse(dir: int): (r: int)
    ensures (r > 0) != (dir > 0)
  {
    if dir > 0 then -1 else 1
  }

  /**
   * The rule applied `n` times in a row; an axis key that is not one of the
   * table's own keys (`None`) leaves the triple untouched, as the optional
   * call `?.()` does.
   */
  function TurnTimes(t: Index, axis: Option<Axis>, dir: int, max: int, n: nat): Index {
    if n == 0 || axis.None? then t else Turn(TurnTimes(t, axis, dir, max, n - 1), axis.value, dir, max)
  }

  /**
   * However often the rule is taken, the coordinate along the rotation axis
   * is kept; taken no times, or for no rule, the triple is untouched.
   */
  lemma {:induction false} TurnTimesKeepsAxis(t: Index, axis: Option<Axis>, dir: int, max: int, n: nat)
    ensures n == 0 || axis.None? ==> TurnTimes(t, axis, dir, max, n) == t
    ensures axis.Some? ==> AxisCoordinate(TurnTimes(t, axis, dir, max, n), axis.value) == AxisCoordinate(t, axis.value)
  {
    if n > 0 && axis.Some? {
      TurnTimesKeepsAxis(t, axis, dir, max, n - 1);
    }
  }

  /** Each rule keeps a triple of `[0, size-1]^3` inside it. */
  lemma TurnInRange(t: Index, axis: Axis, dir: int, size: int)
    requires InRange(t, size)
    ensures InRange(Turn(t, axis, dir, size - 1), size)
  {
  }

  /** A rotation about an axis moves only the two coordinates of that axis's plane. */
  lemma TurnOnlyMovesPlane(t: Index, dir: int, max: int)
    ensures Turn(t, X, dir, max).leftRight == t.leftRight
    ensures Turn(t, Y, dir, max).downUp == t.downUp
    ensures Turn(t, Z, dir, max).backFront == t.backFront
  {
  }

  /** The two directions undo each other, in either order. */
  lemma TurnInverse(t: Index, axis: Axis, d1: int, d2: int, max: int)
    requires (d1 > 0) != (d2 > 0)
    ensures Turn(Turn(t, axis, d1, max), axis, d2, max) == t
  {
  }

  /** Two quarter turns in the same direction are the half turn, whichever that direction is. */
  lemma TwoQuarterTurnsMakeHalfTurn(t: Index, axis: Axis, dir: int, max: int)
    ensures Turn(Turn(t, axis, dir, max), axis, dir, max) == HalfTurn(t, axis, max)
  {
  }

  /** The 180-degree turn: both plane coordinates mirrored, the axis coordinate kept. */
  function HalfTurn(t: Index, axis: Axis, max: int): Index {
    match axis
    case X => t.(downUp := max - t.downUp, backFront := max - t.backFront)
    case Y => t.(leftRight := max - t.leftRight, backFront := max - t.backFront)
    case Z => t.(leftRight := max - t.leftRight, downUp := max - t.downUp)
  }

  /** Each rule has order 4. */
  lemma {:induction false} TurnOrderFour(t: Index, axis: Axis, dir: int, max: int)
    ensures TurnTimes(t, Some(axis), dir, max, 4) == t
  {
    var a := Some(axis);
    var h := HalfTurn(t, axis, max);
    TwoQuarterTurnsMakeHalfTurn(t, axis, dir, max);
    assert TurnTimes(t, a, dir, max, 1) == Turn(t, axis, dir, max);
    assert TurnTimes(t, a, dir, max, 2) == h;
    assert TurnTimes(t, a, dir, max, 3) == Turn(h, axis, dir, max);
    TwoQuarterTurnsMakeHalfTurn(h, axis, dir, max);
    assert TurnTimes(t, a, dir, max, 4) == Turn(Turn(h, axis, dir, max), axis, dir, max);
  }

  /** Size 3, Y axis, direction +1: `(0,2,0)` goes to `(0,2,2)`. */
  lemma TurnExampleY()
    ensures Turn(Index(0, 2, 0), Y, 1, 2) == Index(0, 2, 2)
  {
  }

  /** Size 3, Y axis, direction +1: `(2,2,2)` goes to `(2,2,0)`. */
  lemma TurnExampleYCorner()
    ensures Turn(Index(2, 2, 2), Y, 1, 2) == Index(2, 2, 0)
  {
  }

  /* ---------------------------------------------------------------------- */
  /* Whole-cube view: the triples of all cubies, in the order of `cubies`.   */

  /** No value occurs twice. */
  ghost predicate Distinct<T>(s: seq<T>) {
    forall i, j :: 0 <= i < j < |s| ==> s[i] != s[j]
  }

  /**
   * The triple -> cubie map is a bijection onto `[0, size-1]^3`: every triple
   * is in range, no two cubies share one, and every triple in range is taken.
   */
  ghost predicate Bijective(s: seq<Index>, size: int) {
    AllInRange(s, size) && Distinct(s) && Covers(s, size)
  }

  /** Every triple of `s` lies in `[0, size-1]^3`. */
  ghost predicate AllInRange(s: seq<Index>, size: int) {
    forall i :: 0 <= i < |s| ==> InRange(s[i], size)
  }

  /** Every triple of `[0, size-1]^3` occurs in `s`. */
  ghost predicate Covers(s: seq<Index>, size: int) {
    forall t :: InRange(t, size) ==> t in s
  }

  /**
   * The triples after one layer is turned: the cubies whose coordinate along
   * `axis` equals `layer` take one quarter turn, simultaneously; every other
   * cubie keeps its triple.
   */
  function LayerTurn(s: seq<Index>, axis: Axis, layer: int, dir: int, max: int): (r: seq<Index>)
    ensures |r| == |s|
    ensures forall i :: 0 <= i < |s| && !InLayer(s[i], axis, layer) ==> r[i] == s[i]
    ensures forall i :: 0 <= i < |s| && InLayer(s[i], axis, layer) ==> r[i] == Turn(s[i], axis, dir, max)
  {
    seq(|s|, i requires 0 <= i < |s| => if InLayer(s[i], axis, layer) then Turn(s[i], axis, dir, max) else s[i])
  }

  /** A turned layer is the same layer: the cubies in it before are exactly the cubies in it after. */
  lemma LayerTurnKeepsLayer(s: seq<Index>, axis: Axis, layer: int, dir: int, max: int, other: int)
    ensures forall i :: 0 <= i < |s| ==>
      (InLayer(LayerTurn(s, axis, layer, dir, max)[i], axis, other) <==> InLayer(s[i], axis, other))
  {
  }

  /**
   * Turning one whole layer keeps the triple -> cubie map a bijection onto
   * `[0, size-1]^3`, for every layer value and every direction.
   */
  lemma LayerTurnPreservesBijection(s: seq<Index>, axis: Axis, layer: int, dir: int, size: int)
    requires Bijective(s, size)
    ensures Bijective(LayerTurn(s, axis, layer, dir, size - 1), size)
  {
    LayerTurnInRange(s, axis, layer, dir, size);
    LayerTurnDistinct(s, axis, layer, dir, size - 1);
    LayerTurnOnto(s, axis, layer, dir, size);
  }

  lemma LayerTurnInRange(s: seq<Index>, axis: Axis, layer: int, dir: int, size: int)
    requires AllInRange(s, size)
    ensures AllInRange(LayerTurn(s, axis, layer, dir, size - 1), size)
  {
    var r := LayerTurn(s, axis, layer, dir, size - 1);
    forall i | 0 <= i < |r| ensures InRange(r[i], size) {
      if InLayer(s[i], axis, layer) {
        TurnInRange(s[i], axis, dir, size);
      }
    }
  }

  lemma LayerTurnDistinct(s: seq<Index>, axis: Axis, layer: int, dir: int, max: int)
    requires Distinct(s)
    ensures Distinct(LayerTurn(s, axis, layer, dir, max))
  {
    var r := LayerTurn(s, axis, layer, dir, max);
    forall i, j | 0 <= i < j < |r| ensures r[i] != r[j] {
      if InLayer(s[i], axis, layer) && InLayer(s[j], axis, layer) {
        TurnInverse(s[i], axis, dir, Reverse(dir), max);
        TurnInverse(s[j], axis, dir, Reverse(dir), max);
      }
    }
  }

  lemma LayerTurnOnto(s: seq<Index>, axis: Axis, layer: int, dir: int, size: int)
    requires Covers(s, size)
    ensures Covers(LayerTurn(s, axis, layer, dir, size - 1), size)
  {
    var max := size - 1;
    var r := LayerTurn(s, axis, layer, dir, max);
    forall t | InRange(t, size) ensures t in r {
      if InLayer(t, axis, layer) {
        var u := Turn(t, axis, Reverse(dir), max);
        TurnInRange(t, axis, Reverse(dir), size);
        assert u in s;
        var k :| 0 <= k < |s| && s[k] == u;
        TurnInverse(t, axis, Reverse(dir), dir, max);
        assert r[k] == t;
      } else {
        var k :| 0 <= k < |s| && s[k] == t;
        assert r[k] == t;
      }
    }
  }

  /** Turning a layer and then turning it back restores every triple of the cube. */
  lemma LayerTurnInverse(s: seq<Index>, axis: Axis, layer: int, d1: int, d2: int, max: int)
    requires (d1 > 0) != (d2 > 0)
    ensures LayerTurn(LayerTurn(s, axis, layer, d1, max), axis, layer, d2, max) == s
  {
    var r := LayerTurn(s, axis, layer, d1, max);
    var q := LayerTurn(r, axis, layer, d2, max);
    forall i | 0 <= i < |s| ensures q[i] == s[i] {
      if InLayer(s[i], axis, layer) {
        TurnInverse(s[i], axis, d1, d2, max);
      }
    }
  }

  /** Turning the same layer four times in the same direction restores every triple of the cube. */
  lemma LayerTurnOrderFour(s: seq<Index>, axis: Axis, layer: int, dir: int, max: int)
    ensures LayerTurn(LayerTurn(LayerTurn(LayerTurn(s, axis, layer, dir, max), axis, layer, dir, max),
                                axis, layer, dir, max), axis, layer, dir, max) == s
  {
    var s1 := LayerTurn(s, axis, layer, dir, max);
    var s2 := LayerTurn(s1, axis, layer, dir, max);
    var s3 := LayerTurn(s2, axis, layer, dir, max);
    var s4 := LayerTurn(s3, axis, layer, dir, max);
    forall i | 0 <= i < |s| ensures s4[i] == s[i] {
      if InLayer(s[i], axis, layer) {
        TurnOrderFour(s[i], axis, dir, max);
      }
    }
  }
}
