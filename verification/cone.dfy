/** The cone mesh of the arrow tips: its vertex attributes and its triangle index buffer. */
module ConeMesh {
  import opened Vectors

  /** The `u32` index type of the index buffer. */
  newtype u32 = x: int | 0 <= x < 0x1_0000_0000

  /** Rust's `as u32` on a `usize`: the value modulo 2^32. */
  function AsU32(n: nat): (r: u32)
    ensures r as int <= n
    ensures n < 0x1_0000_0000 ==> r as int == n
  {
    (n % 0x1_0000_0000) as u32
  }

  datatype Cone = Cone(radius: real, height: real, subdivisions: nat)

  /** `Cone::default()`. */
  const DefaultCone := Cone(1.0, 1.0, 32)

  /**
   * The values of `cos` and `sin` at each ring vertex's angle, and the normal computed there;
   * the floating-point geometry is not modelled.
   */
  datatype RingTrig = RingTrig(cos: nat -> real, sin: nat -> real, normal: nat -> Vec3)

  /** The two triangles of ring point `p`: the side `(0, p+1, p)` and the base `(1, p, p+1)`. */
  function Fan(p: nat): (r: seq<u32>)
    ensures |r| == 6
    // a fan only reaches the two centres and ring points p and p + 1
    ensures forall k :: 0 <= k < 6 ==> r[k] as int <= p + 1
  {
    [AsU32(0), AsU32(p + 1), AsU32(p), AsU32(1), AsU32(p), AsU32(p + 1)]
  }

  /** The index buffer for `n` subdivisions: the fans of ring points 2 to n + 1, in order. */
  function ConeIndices(n: nat): (r: seq<u32>)
    ensures |r| == 6 * n
    // every index names one of the n + 3 vertices
    ensures forall k :: 0 <= k < |r| ==> r[k] as int < n + 3
  {
    if n == 0 then [] else ConeIndices(n - 1) + Fan(n + 1)
  }

  /** Triangles `2t` and `2t + 1` of the buffer are the fan of ring point `t + 2`. */
  lemma {:induction false} FanAt(n: nat, t: nat)
    requires t < n
    ensures ConeIndices(n)[6 * t .. 6 * t + 6] == Fan(t + 2)
  {
    if t < n - 1 {
      FanAt(n - 1, t);
      assert ConeIndices(n)[..6 * (n - 1)] == ConeIndices(n - 1);
    } else {
      assert ConeIndices(n)[6 * t..] == Fan(t + 2);
    }
  }

  /**
   * The side and base triangles of a fan wind oppositely: the base uses the bottom centre
   * and the two ring vertices in reverse order. Below 2^32 vertices no index wraps.
   */
  lemma OppositeWinding(p: nat)
    requires p + 1 < 0x1_0000_0000
    ensures Fan(p)[0] as int == 0 && Fan(p)[3] as int == 1
    ensures Fan(p)[1] as int == p + 1 && Fan(p)[2] as int == p
    ensures Fan(p)[4] == Fan(p)[2] && Fan(p)[5] == Fan(p)[1]
  {
  }

  /**
   * The default cone has 64 triangles over its 35 vertices, all within range, and its last
   * fan reaches the last ring vertex, 34.
   */
  lemma DefaultConeSizes()
    ensures ConeIndices(DefaultCone.subdivisions)[186..192] == Fan(33)
    ensures Fan(33)[1] as int == 34
    ensures |ConeIndices(DefaultCone.subdivisions)| == 192
    ensures forall k :: 0 <= k < 192 ==> ConeIndices(DefaultCone.subdivisions)[k] as int < 35
  {
  }

  /** `Mesh::from(Cone)`: the vertex attribute buffers and the index buffer. */
  method ConeToMesh(cone: Cone, trig: RingTrig)
    returns (positions: seq<Vec3>, normals: seq<Vec3>, uvs: seq<Vec2>, indices: seq<u32>)
    // the tip, the bottom centre, and subdivisions + 1 ring vertices (the seam twice)
    ensures |positions| == |normals| == |uvs| == cone.subdivisions + 3
    ensures positions[0] == Vec3(0.0, cone.height, 0.0) && normals[0] == UnitY && uvs[0] == Vec2(0.0, 1.0)
    ensures positions[1] == Zero && normals[1] == Vec3(0.0, -1.0, 0.0) && uvs[1] == Vec2(0.0, -1.0)
    // the ring lies in the base plane, at the given angles, with v = 0 and u running 0 to 1
    ensures forall s :: 0 <= s <= cone.subdivisions ==>
      positions[s + 2] == Vec3(trig.cos(s) * cone.radius, 0.0, trig.sin(s) * cone.radius) &&
      normals[s + 2] == trig.normal(s) && uvs[s + 2].y == 0.0
    ensures cone.subdivisions > 0 ==> forall i :: 2 <= i < |uvs| ==>
      uvs[i].x == (i - 2) as real / cone.subdivisions as real
    // two triangles per subdivision, all indices in range
    ensures indices == ConeIndices(cone.subdivisions)
  {
    positions := [Vec3(0.0, cone.height, 0.0)];
    normals := [UnitY];
    uvs := [Vec2(0.0, 1.0)];
    positions := positions + [Zero];
    normals := normals + [Vec3(0.0, -1.0, 0.0)];
    uvs := uvs + [Vec2(0.0, -1.0)];

    for side := 0 to cone.subdivisions + 1
      invariant |positions| == |normals| == |uvs| == side + 2
      invariant positions[0] == Vec3(0.0, cone.height, 0.0) && normals[0] == UnitY && uvs[0] == Vec2(0.0, 1.0)
      invariant positions[1] == Zero && normals[1] == Vec3(0.0, -1.0, 0.0) && uvs[1] == Vec2(0.0, -1.0)
      invariant forall s :: 0 <= s < side ==>
        positions[s + 2] == Vec3(trig.cos(s) * cone.radius, 0.0, trig.sin(s) * cone.radius) &&
        normals[s + 2] == trig.normal(s) && uvs[s + 2].y == 0.0
      invariant cone.subdivisions > 0 ==> forall i :: 2 <= i < |uvs| ==>
        uvs[i].x == (i - 2) as real / cone.subdivisions as real
    {
      var x := trig.cos(side) * cone.radius;
      var z := trig.sin(side) * cone.radius;
      positions := positions + [Vec3(x, 0.0, z)];
      normals := normals + [trig.normal(side)];
      var u := if cone.subdivisions == 0 then 0.0 else side as real / cone.subdivisions as real;
      uvs := uvs + [Vec2(u, 0.0)];
    }

    indices := [];
    for point := 2 to cone.subdivisions + 2
      invariant indices == ConeIndices(point - 2)
    {
      var top := 0;
      var bottom := 1;
      var left := point + 1;
      var right := point;
      indices := indices + [AsU32(top), AsU32(left), AsU32(right)];
      indices := indices + [AsU32(bottom), AsU32(right), AsU32(left)];
    }
  }
}
