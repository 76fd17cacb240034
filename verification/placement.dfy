/** `place_gizmo`: the gizmo sits at the centroid of the selected transformable entities. */
module Placement {
  import opened Wrappers
  import opened Vectors
  import opened GizmoTypes

  /** An entity the gizmo is placed over: selected and marked `GizmoTransformable`. */
  predicate Placed(e: SceneEntity) {
    Selected(e) && e.transformable
  }

  /** The point an entity contributes: its global position plus its pivot offset, rotated. */
  function Position(e: SceneEntity): (p: Vec3)
    // without a pivot offset the entity contributes its own position
    ensures e.rotationOffset.None? ==> p == e.global.translation
    // with one, its position is displaced by the offset turned into world space
    ensures e.rotationOffset.Some? ==> Sub(p, e.global.translation) == Rotate(e.global.rotation, e.rotationOffset.value)
  {
    Add(e.global.translation,
        if e.rotationOffset.Some? then Rotate(e.global.rotation, e.rotationOffset.value) else Zero)
  }

  /** The scene indices of the placed entities. */
  function PlacedIndices(scene: seq<SceneEntity>): set<int> {
    set k | 0 <= k < |scene| && Placed(scene[k])
  }

  /** Appending an entity adds its index to the placed ones exactly when it is placed. */
  lemma PlacedIndicesSnoc(scene: seq<SceneEntity>)
    requires scene != []
    ensures var n := |scene| - 1;
      n !in PlacedIndices(scene[..n]) &&
      PlacedIndices(scene) == PlacedIndices(scene[..n]) + (if Placed(scene[n]) then {n} else {})
  {
  }

  /** The positions of the placed entities, in scene order. */
  function PlacedPositions(scene: seq<SceneEntity>): (ps: seq<Vec3>)
    ensures |ps| <= |scene|
    ensures |ps| == 0 <==> forall k :: 0 <= k < |scene| ==> !Placed(scene[k])
    ensures forall j :: 0 <= j < |ps| ==> exists k :: 0 <= k < |scene| && Placed(scene[k]) && ps[j] == Position(scene[k])
    decreases |scene|
  {
    if scene == [] then []
    else
      var rest := PlacedPositions(scene[..|scene| - 1]);
      var last := scene[|scene| - 1];
      if Placed(last) then rest + [Position(last)] else rest
  }

  /** There is one position per placed entity. */
  lemma {:induction false} PlacedPositionsCount(scene: seq<SceneEntity>)
    ensures |PlacedPositions(scene)| == |PlacedIndices(scene)|
    decreases |scene|
  {
    if scene != [] {
      var n := |scene| - 1;
      PlacedPositionsCount(scene[..n]);
      PlacedIndicesSnoc(scene);
      if Placed(scene[n]) {
        assert |PlacedIndices(scene)| == |PlacedIndices(scene[..n])| + 1;
      } else {
        assert PlacedIndices(scene) == PlacedIndices(scene[..n]);
      }
    } else {
      assert PlacedIndices(scene) == {};
    }
  }

  /** Every placed entity contributes its position: the centroid is over the whole selection. */
  lemma {:induction false} PlacedPositionsComplete(scene: seq<SceneEntity>)
    ensures forall k :: 0 <= k < |scene| && Placed(scene[k]) ==> Position(scene[k]) in PlacedPositions(scene)
    decreases |scene|
  {
    if scene != [] {
      var n := |scene| - 1;
      var rest := PlacedPositions(scene[..n]);
      PlacedPositionsComplete(scene[..n]);
      assert PlacedPositions(scene) == if Placed(scene[n]) then rest + [Position(scene[n])] else rest;
      forall k | 0 <= k < |scene| && Placed(scene[k])
        ensures Position(scene[k]) in PlacedPositions(scene)
      {
        if k < n {
          assert scene[..n][k] == scene[k];
          assert Position(scene[k]) in rest;
        }
      }
    }
  }

  /** The left fold of vector addition from zero. */
  function Sum(ps: seq<Vec3>): (s: Vec3)
    ensures ps == [] ==> s == Zero
    ensures |ps| == 1 ==> s == ps[0]
    decreases |ps|
  {
    if ps == [] then Zero else Add(Sum(ps[..|ps| - 1]), ps[|ps| - 1])
  }

  /** The fold adds up piecewise: the sum of two runs of points is the sum of their sums. */
  lemma {:induction false} SumAppend(a: seq<Vec3>, b: seq<Vec3>)
    ensures Sum(a + b) == Add(Sum(a), Sum(b))
    decreases |b|
  {
    if b != [] {
      var b' := b[..|b| - 1];
      SumAppend(a, b');
      assert (a + b)[..|a + b| - 1] == a + b';
    } else {
      assert a + b == a;
    }
  }

  /** The gizmo components `place_gizmo` writes. */
  datatype Placement = Placement(global: Transform, local: Transform, visible: bool)

  /**
   * One run of `place_gizmo`. With nothing placed the source divides zero by zero; the model
   * keeps the old translation in that case (the gizmo is hidden then).
   */
  function PlaceStep(scene: seq<SceneEntity>, alignment: Quat, p: Placement): (r: Placement)
    // the gizmo shows exactly when some selected transformable entity exists
    ensures r.visible <==> exists k :: 0 <= k < |scene| && Placed(scene[k])
    // it takes the alignment rotation and keeps its scale
    ensures r.global.rotation == alignment && r.local.rotation == alignment
    ensures r.global.scale == p.global.scale && r.local.scale == p.local.scale
    // its translation is the centroid: scaled back by the count it gives the sum
    ensures r.visible ==>
      r.global.translation == r.local.translation &&
      Scale(r.global.translation, |PlacedPositions(scene)| as real) == Sum(PlacedPositions(scene))
    ensures !r.visible ==>
      r.global.translation == p.global.translation && r.local.translation == p.local.translation
  {
    var ps := PlacedPositions(scene);
    if |ps| == 0 then
      Placement(p.global.(rotation := alignment), p.local.(rotation := alignment), false)
    else
      var centroid := Div(Sum(ps), |ps| as real);
      ScaleDivCancels(Sum(ps), |ps| as real);
      Placement(p.global.(translation := centroid, rotation := alignment),
                p.local.(translation := centroid, rotation := alignment), true)
  }

  /** Each entity's contribution to the sum: its position when placed, zero otherwise. */
  function Contributions(scene: seq<SceneEntity>): (cs: seq<Vec3>)
    ensures |cs| == |scene|
  {
    seq(|scene|, k requires 0 <= k < |scene| => if Placed(scene[k]) then Position(scene[k]) else Zero)
  }

  /**
   * The positions sum to the same as one term per scene entity, each placed entity counted
   * exactly once and every other entity as zero: duplicates in the selection all count.
   */
  lemma {:induction false} PlacedSumCountsEachOnce(scene: seq<SceneEntity>)
    ensures Sum(PlacedPositions(scene)) == Sum(Contributions(scene))
    decreases |scene|
  {
    if scene != [] {
      var n := |scene| - 1;
      PlacedSumCountsEachOnce(scene[..n]);
      ContributionsSnoc(scene);
      SumSnoc(Contributions(scene[..n]), Contributions(scene)[n]);
      if Placed(scene[n]) {
        SumSnoc(PlacedPositions(scene[..n]), Position(scene[n]));
      }
    }
  }

  /** The contributions of a scene are those of all but its last entity, then the last's. */
  lemma ContributionsSnoc(scene: seq<SceneEntity>)
    requires scene != []
    ensures Contributions(scene) == Contributions(scene[..|scene| - 1]) + [Contributions(scene)[|scene| - 1]]
  {
  }

  /** Appending a point adds it to the sum. */
  lemma SumSnoc(ps: seq<Vec3>, p: Vec3)
    ensures Sum(ps + [p]) == Add(Sum(ps), p)
  {
    assert (ps + [p])[..|ps|] == ps;
  }

  /** The sum of `n` copies of one point is that point scaled by `n`. */
  lemma {:induction false} SumOfCopies(ps: seq<Vec3>, p: Vec3)
    requires forall j :: 0 <= j < |ps| ==> ps[j] == p
    ensures Sum(ps) == Scale(p, |ps| as real)
    decreases |ps|
  {
    if ps != [] {
      SumOfCopies(ps[..|ps| - 1], p);
    }
  }

  /** When every placed entity sits at the same point, the gizmo is placed exactly there. */
  lemma CoincidentSelectionPlacesThere(scene: seq<SceneEntity>, alignment: Quat, p: Placement, q: Vec3)
    requires exists k :: 0 <= k < |scene| && Placed(scene[k])
    requires forall k :: 0 <= k < |scene| && Placed(scene[k]) ==> Position(scene[k]) == q
    ensures PlaceStep(scene, alignment, p).global.translation == q
  {
    var ps := PlacedPositions(scene);
    forall j | 0 <= j < |ps|
      ensures ps[j] == q
    {
      var k :| 0 <= k < |scene| && Placed(scene[k]) && ps[j] == Position(scene[k]);
    }
    SumOfCopies(ps, q);
    DivScaleCancels(q, |ps| as real);
  }

  /** A selected transformable entity at `(x, 0, 0)` with no pivot offset. */
  function OnXAxis(t: Transform, x: real): SceneEntity {
    SceneEntity(Some(true), t, t.(translation := Vec3(x, 0.0, 0.0)), None, None, true)
  }

  /** Three selected points on the x axis: the gizmo shows, at the middle one. */
  lemma ThreePointsExample(alignment: Quat, p: Placement, t: Transform)
    ensures var r := PlaceStep([OnXAxis(t, 0.0), OnXAxis(t, 2.0), OnXAxis(t, 4.0)], alignment, p);
      r.visible && r.global.translation == Vec3(2.0, 0.0, 0.0)
  {
    var scene := [OnXAxis(t, 0.0), OnXAxis(t, 2.0), OnXAxis(t, 4.0)];
    assert scene[..2] == [OnXAxis(t, 0.0), OnXAxis(t, 2.0)];
    assert scene[..2][..1] == [OnXAxis(t, 0.0)];
    assert scene[..2][..1][..0] == [];
    assert PlacedPositions(scene[..2][..1]) == [Vec3(0.0, 0.0, 0.0)];
    assert PlacedPositions(scene[..2]) == [Vec3(0.0, 0.0, 0.0), Vec3(2.0, 0.0, 0.0)];
    var ps := PlacedPositions(scene);
    assert ps == [Vec3(0.0, 0.0, 0.0), Vec3(2.0, 0.0, 0.0), Vec3(4.0, 0.0, 0.0)];
    assert ps[..2] == [ps[0], ps[1]];
    assert ps[..2][..1] == [ps[0]];
    assert ps[..2][..1][..0] == [];
    assert Sum(ps[..2][..1][..0]) == Zero;
    assert Sum(ps[..2][..1]) == Vec3(0.0, 0.0, 0.0);
    assert Sum(ps[..2]) == Vec3(2.0, 0.0, 0.0);
    assert Sum(ps) == Vec3(6.0, 0.0, 0.0);
  }
}
