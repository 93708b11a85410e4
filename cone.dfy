/** The unit cone along the Y axis: apex at (0, 1, 0), base circle of radius 1
    at y = 0 split into nslices sectors, and optionally a flat base disc. */
module ConeMesh {
  import opened Mesh
  import Gl

  /** math.sqrt, which the model takes as a given function: on a non-negative
      argument it returns the non-negative square root. */
  ghost predicate IsSqrt(sqrt: real -> real)
  {
    forall q :: 0.0 <= q ==> 0.0 <= sqrt(q) && sqrt(q) * sqrt(q) == q
  }

  // ---------------------------------------------------------------------
  // Totals computed before allocation
  // ---------------------------------------------------------------------

  /** body_vertices + base_vertices */
  function TotalVertices(nslices: nat, withBase: bool): nat
  {
    1 + (nslices + 1) + (if withBase then 1 + (nslices + 1) else 0)
  }

  /** body_indices + base_indices */
  function TotalIndices(nslices: nat, withBase: bool): nat
  {
    nslices * 3 + (if withBase then nslices * 3 else 0)
  }

  // ---------------------------------------------------------------------
  // The vertex list, in the order the loops write it
  // ---------------------------------------------------------------------

  /** The apex: at (0, 1, 0), normal straight up, texcoord (0.5, 1). */
  function Apex(): Vertex
  {
    Vertex(Vec3(0.0, 1.0, 0.0), Vec3(0.0, 1.0, 0.0), Vec2(0.5, 1.0))
  }

  lemma SquaresNonNegative(x: real, z: real)
    ensures 0.0 <= x * x && 0.0 <= z * z
  {
    if x < 0.0 {
      assert x * x == (-x) * (-x);
    }
    if z < 0.0 {
      assert z * z == (-z) * (-z);
    }
  }

  /** length = sqrt(nx^2 + ny^2 + nz^2) for the side normal (nx, 1, nz): never 0,
      since the sum is at least 1. */
  function SlantLength(sqrt: real -> real, nx: real, nz: real): (len: real)
    requires IsSqrt(sqrt)
    ensures 0.0 < len && len * len == nx * nx + 1.0 + nz * nz
  {
    SquaresNonNegative(nx, nz);
    sqrt(nx * nx + 1.0 * 1.0 + nz * nz)
  }

  /** Side vertex `slice` of the base circle: at angle Theta(slice) on the
      unit circle at y = 0, normal (x, 1, z) normalized, texcoord (slice / nslices, 0). */
  function LateralVertex(trig: Trig, sqrt: real -> real, nslices: nat, slice: nat): Vertex
    requires 0 < nslices && IsSqrt(sqrt)
  {
    var x := trig.cos(Theta(slice, nslices));
    var z := trig.sin(Theta(slice, nslices));
    var len := SlantLength(sqrt, x, z);
    Vertex(Vec3(x, 0.0, z), Vec3(x / len, 1.0 / len, z / len), Vec2(Fraction(slice, nslices), 0.0))
  }

  /** The first k side vertices. */
  function LateralRing(trig: Trig, sqrt: real -> real, nslices: nat, k: nat): (r: seq<Vertex>)
    requires 0 < nslices && IsSqrt(sqrt)
    ensures |r| == k
  {
    if k == 0 then []
    else LateralRing(trig, sqrt, nslices, k - 1) + [LateralVertex(trig, sqrt, nslices, k - 1)]
  }

  /** The base disc (y = 0, normal down), if enabled. */
  function BaseVertices(trig: Trig, nslices: nat, withBase: bool): (r: seq<Vertex>)
    requires 0 < nslices
    ensures |r| == if withBase then 1 + (nslices + 1) else 0
  {
    if withBase then Cap(trig, nslices, 0.0, -1.0) else []
  }

  /** Every vertex the constructor writes: the apex, the nslices + 1 side
      vertices, then the base disc if enabled. Its length is the total
      computed in advance. */
  function ConeVertices(trig: Trig, sqrt: real -> real, nslices: nat, withBase: bool): (r: seq<Vertex>)
    requires 0 < nslices && IsSqrt(sqrt)
    ensures |r| == TotalVertices(nslices, withBase)
  {
    [Apex()] + LateralRing(trig, sqrt, nslices, nslices + 1) + BaseVertices(trig, nslices, withBase)
  }

  // ---------------------------------------------------------------------
  // The index list, in the order the loops write it
  // ---------------------------------------------------------------------

  /** The base fan around vertex `center`, if enabled. */
  function BaseIndices(center: nat, nslices: nat, withBase: bool): (r: seq<nat>)
    ensures |r| == if withBase then nslices * 3 else 0
  {
    if withBase then Fan(center, center + 1, nslices) else []
  }

  /** The index list as the source writes it: the side fan [apex, base_start +
      slice, base_start + slice + 1] around the apex (vertex 0) over the side
      vertices 1 .. nslices + 1, then the base fan around the base centre
      (vertex nslices + 2) if enabled. Its side triangles face inwards (see
      SourceConeSideFacesInward). */
  function SourceConeIndices(nslices: nat, withBase: bool): (r: seq<nat>)
    ensures |r| == TotalIndices(nslices, withBase)
  {
    Fan(0, 1, nslices) + BaseIndices(nslices + 2, nslices, withBase)
  }

  /** Every index the constructor writes, with the side winding corrected:
      the side fan [apex, base_start + slice + 1, base_start + slice], then
      the base fan as in the source. Its length is the total computed in
      advance, and it differs from the source's list exactly in the order of
      the last two indices of each side triangle. */
  function ConeIndices(nslices: nat, withBase: bool): (r: seq<nat>)
    ensures |r| == TotalIndices(nslices, withBase)
  {
    ReverseFan(0, 1, nslices) + BaseIndices(nslices + 2, nslices, withBase)
  }

  // ---------------------------------------------------------------------
  // Lemmas about the vertex list
  // ---------------------------------------------------------------------

  lemma {:induction false} LateralRingAt(trig: Trig, sqrt: real -> real, nslices: nat, k: nat, i: nat)
    requires 0 < nslices && IsSqrt(sqrt) && i < k
    ensures LateralRing(trig, sqrt, nslices, k)[i] == LateralVertex(trig, sqrt, nslices, i)
  {
    if i < k - 1 {
      LateralRingAt(trig, sqrt, nslices, k - 1, i);
    }
  }

  /** Side vertex `slice` has id 1 + slice, right after the apex. */
  lemma ConeSideAt(trig: Trig, sqrt: real -> real, nslices: nat, withBase: bool, slice: nat)
    requires 0 < nslices && IsSqrt(sqrt) && slice <= nslices
    ensures ConeVertices(trig, sqrt, nslices, withBase)[1 + slice] == LateralVertex(trig, sqrt, nslices, slice)
  {
    var ring := LateralRing(trig, sqrt, nslices, nslices + 1);
    var base := BaseVertices(trig, nslices, withBase);
    assert ConeVertices(trig, sqrt, nslices, withBase) == [Apex()] + (ring + base);
    LateralRingAt(trig, sqrt, nslices, nslices + 1, slice);
    assert (ring + base)[slice] == ring[slice];
  }

  /** The side normal (x / len, 1 / len, z / len) is the positive multiple
      1 / len of (x, 1, z). */
  lemma SlantNormalDirection(sqrt: real -> real, x: real, z: real)
    requires IsSqrt(sqrt)
    ensures var len := SlantLength(sqrt, x, z);
      0.0 < 1.0 / len && x / len == x * (1.0 / len) && z / len == z * (1.0 / len)
  {
  }

  /** Vertex 0 is the apex; side vertex `slice` has id 1 + slice, lies at
      angle Theta(slice) on the unit circle at y = 0, has a normal that is the
      positive multiple of (x, 1, z), and texcoord (slice / nslices, 0). */
  lemma ConeBodyVertices(trig: Trig, sqrt: real -> real, nslices: nat, withBase: bool, slice: nat)
    requires 0 < nslices && IsSqrt(sqrt) && slice <= nslices
    ensures var vs := ConeVertices(trig, sqrt, nslices, withBase);
      vs[0] == Vertex(Vec3(0.0, 1.0, 0.0), Vec3(0.0, 1.0, 0.0), Vec2(0.5, 1.0))
    ensures var v := ConeVertices(trig, sqrt, nslices, withBase)[1 + slice];
      var x := trig.cos(Theta(slice, nslices));
      var z := trig.sin(Theta(slice, nslices));
      v.pos == Vec3(x, 0.0, z) &&
      0.0 < v.normal.y && v.normal.x == x * v.normal.y && v.normal.z == z * v.normal.y &&
      v.tex == Vec2(slice as real / nslices as real, 0.0)
  {
    ConeSideAt(trig, sqrt, nslices, withBase, slice);
    var t := Theta(slice, nslices);
    SlantNormalDirection(sqrt, trig.cos(t), trig.sin(t));
  }

  /** The seam: the first and last side vertices are the samples at angles 0
      and 2 pi, with u = 0 and u = 1; if a full turn returns cos and sin to
      their starting values the two share their position and normal. */
  lemma ConeSeam(trig: Trig, sqrt: real -> real, nslices: nat, withBase: bool)
    requires 0 < nslices && IsSqrt(sqrt)
    ensures var vs := ConeVertices(trig, sqrt, nslices, withBase);
      var first := vs[1];
      var last := vs[1 + nslices];
      first.tex == Vec2(0.0, 0.0) && last.tex == Vec2(1.0, 0.0) &&
      first.pos == Vec3(trig.cos(0.0), 0.0, trig.sin(0.0)) &&
      last.pos == Vec3(trig.cos(2.0 * Pi), 0.0, trig.sin(2.0 * Pi)) &&
      (FullTurn(trig) ==> first.pos == last.pos && first.normal == last.normal)
  {
    var ring := LateralRing(trig, sqrt, nslices, nslices + 1);
    var base := BaseVertices(trig, nslices, withBase);
    assert ConeVertices(trig, sqrt, nslices, withBase) == [Apex()] + ring + base;
    LateralRingAt(trig, sqrt, nslices, nslices + 1, 0);
    LateralRingAt(trig, sqrt, nslices, nslices + 1, nslices);
    assert ([Apex()] + ring + base)[1] == ring[0];
    assert ([Apex()] + ring + base)[1 + nslices] == ring[nslices];
  }

  /** A unit vector along (x, 1, z) where x^2 + z^2 = 1: it has length 1 and
      makes 45 degrees with the axis (its y component squared is 1/2). */
  lemma SlantNormalUnit(sqrt: real -> real, x: real, z: real)
    requires IsSqrt(sqrt) && x * x + z * z == 1.0
    ensures var len := SlantLength(sqrt, x, z);
      var a, b, c := x / len, 1.0 / len, z / len;
      a * a + b * b + c * c == 1.0 && b * b == 0.5
  {
    var len := SlantLength(sqrt, x, z);
    var a, b, c := x / len, 1.0 / len, z / len;
    assert a * len == x && b * len == 1.0 && c * len == z;
    assert len * len == 2.0;
    assert (a * a) * (len * len) == x * x;
    assert (b * b) * (len * len) == 1.0;
    assert (c * c) * (len * len) == z * z;
    assert (a * a + b * b + c * c) * 2.0 == 2.0;
  }

  /** When cos and sin describe the unit circle, every side vertex lies on the
      unit circle at y = 0 and its normal has length 1 and points 45 degrees
      up from the horizontal, as for a cone of height 1 and radius 1. */
  lemma ConeSideNormals(trig: Trig, sqrt: real -> real, nslices: nat, withBase: bool, slice: nat)
    requires 0 < nslices && IsSqrt(sqrt) && UnitCircle(trig) && slice <= nslices
    ensures var v := ConeVertices(trig, sqrt, nslices, withBase)[1 + slice];
      v.pos.x * v.pos.x + v.pos.z * v.pos.z == 1.0 && v.pos.y == 0.0 &&
      v.normal.x * v.normal.x + v.normal.y * v.normal.y + v.normal.z * v.normal.z == 1.0 &&
      v.normal.y * v.normal.y == 0.5
  {
    ConeSideAt(trig, sqrt, nslices, withBase, slice);
    LateralVertexUnit(trig, sqrt, nslices, slice);
  }

  /** The side vertex of ConeSideNormals on its own, away from the list. */
  lemma LateralVertexUnit(trig: Trig, sqrt: real -> real, nslices: nat, slice: nat)
    requires 0 < nslices && IsSqrt(sqrt) && UnitCircle(trig)
    ensures var v := LateralVertex(trig, sqrt, nslices, slice);
      v.pos.x * v.pos.x + v.pos.z * v.pos.z == 1.0 && v.pos.y == 0.0 &&
      v.normal.x * v.normal.x + v.normal.y * v.normal.y + v.normal.z * v.normal.z == 1.0 &&
      v.normal.y * v.normal.y == 0.5
  {
    var t := Theta(slice, nslices);
    assert trig.cos(t) * trig.cos(t) + trig.sin(t) * trig.sin(t) == 1.0;
    SlantNormalUnit(sqrt, trig.cos(t), trig.sin(t));
  }

  /** With the base, vertex nslices + 2 is its centre at the origin with normal
      down and texcoord (0.5, 0.5), followed by its nslices + 1 rim vertices
      at y = 0 with normal down and the circular texcoord. */
  lemma ConeBaseVertices(trig: Trig, sqrt: real -> real, nslices: nat, slice: nat)
    requires 0 < nslices && IsSqrt(sqrt) && slice <= nslices
    ensures var vs := ConeVertices(trig, sqrt, nslices, true);
      var center := nslices + 2;
      var x := trig.cos(Theta(slice, nslices));
      var z := trig.sin(Theta(slice, nslices));
      vs[center] == Vertex(Vec3(0.0, 0.0, 0.0), Vec3(0.0, -1.0, 0.0), Vec2(0.5, 0.5)) &&
      vs[center + 1 + slice] == Vertex(Vec3(x, 0.0, z), Vec3(0.0, -1.0, 0.0), Vec2(0.5 + 0.5 * x, 0.5 + 0.5 * z))
  {
    var body := [Apex()] + LateralRing(trig, sqrt, nslices, nslices + 1);
    var base := Cap(trig, nslices, 0.0, -1.0);
    assert ConeVertices(trig, sqrt, nslices, true) == body + base;
    CapAttributes(trig, nslices, 0.0, -1.0, slice);
  }

  // ---------------------------------------------------------------------
  // Lemmas about the index list
  // ---------------------------------------------------------------------

  /** In the source's list, side triangle `slice` occupies slots 3 * slice ..
      3 * slice + 2 and is [apex, 1 + slice, 2 + slice]. */
  lemma SourceConeSideTriangle(nslices: nat, withBase: bool, slice: nat)
    requires slice < nslices
    ensures SourceConeIndices(nslices, withBase)[3 * slice..3 * slice + 3] == [0, 1 + slice, 2 + slice]
  {
    FanAt(0, 1, nslices, slice);
    SliceLeft(Fan(0, 1, nslices), BaseIndices(nslices + 2, nslices, withBase), 3 * slice, 3 * slice + 3);
  }

  /** In the corrected list, side triangle `slice` occupies the same slots and
      is [apex, 2 + slice, 1 + slice]. */
  lemma ConeSideTriangle(nslices: nat, withBase: bool, slice: nat)
    requires slice < nslices
    ensures ConeIndices(nslices, withBase)[3 * slice..3 * slice + 3] == [0, 2 + slice, 1 + slice]
  {
    ReverseFanAt(0, 1, nslices, slice);
    SliceLeft(ReverseFan(0, 1, nslices), BaseIndices(nslices + 2, nslices, withBase), 3 * slice, 3 * slice + 3);
  }

  /** Both lists write the same base triangles after the same number of side
      indices, and the same side triangles up to the order of their last two
      indices. */
  lemma SourceConeIndicesAgree(nslices: nat, withBase: bool, slice: nat)
    requires slice < nslices
    ensures var src := SourceConeIndices(nslices, withBase);
      var fixed := ConeIndices(nslices, withBase);
      src[3 * nslices..] == fixed[3 * nslices..] &&
      src[3 * slice] == fixed[3 * slice] &&
      src[3 * slice + 1] == fixed[3 * slice + 2] && src[3 * slice + 2] == fixed[3 * slice + 1]
  {
    SourceConeSideTriangle(nslices, withBase, slice);
    ConeSideTriangle(nslices, withBase, slice);
    var base := BaseIndices(nslices + 2, nslices, withBase);
    assert (Fan(0, 1, nslices) + base)[3 * nslices..] == base;
    assert (ReverseFan(0, 1, nslices) + base)[3 * nslices..] == base;
  }

  /** With the base, triangle `slice` of the base fan follows the 3 * nslices
      side indices and is [center, center + 1 + slice, center + 2 + slice]
      around the base centre nslices + 2. */
  lemma ConeBaseTriangle(nslices: nat, slice: nat)
    requires slice < nslices
    ensures var center := nslices + 2;
      ConeIndices(nslices, true)[3 * nslices + 3 * slice..3 * nslices + 3 * slice + 3] ==
      [center, center + 1 + slice, center + 2 + slice]
  {
    var center := nslices + 2;
    FanAt(center, center + 1, nslices, slice);
    SliceRight(ReverseFan(0, 1, nslices), Fan(center, center + 1, nslices), 3 * nslices + 3 * slice, 3 * nslices + 3 * slice + 3);
  }

  /** Every index is below the vertex total; the side fan uses only the apex
      and the side vertices, the base fan only the base centre and its rim. */
  lemma ConeIndicesInRange(nslices: nat, withBase: bool)
    ensures forall e :: e in ConeIndices(nslices, withBase) ==> e < TotalVertices(nslices, withBase)
    ensures Within(ReverseFan(0, 1, nslices), 0, nslices + 2)
    ensures var center := nslices + 2;
      Within(Fan(center, center + 1, nslices), center, center + nslices + 2)
  {
    var center := nslices + 2;
    ReverseFanBounds(0, 1, nslices);
    FanBounds(center, center + 1, nslices);
  }

  /** The same holds for the index list as the source writes it: every index
      is below the vertex total and its side fan uses only the apex and the
      side vertices. */
  lemma SourceConeIndicesInRange(nslices: nat, withBase: bool)
    ensures forall e :: e in SourceConeIndices(nslices, withBase) ==> e < TotalVertices(nslices, withBase)
    ensures Within(Fan(0, 1, nslices), 0, nslices + 2)
  {
    FanBounds(0, 1, nslices);
    FanBounds(nslices + 2, nslices + 3, nslices);
  }

  // ---------------------------------------------------------------------
  // Lemmas about orientation
  // ---------------------------------------------------------------------

  /** The face normal of a side triangle against the outward direction
      (ci, 1, si) of rim vertex i: [apex, rim_i, rim_j] gives -2 * step and
      [apex, rim_j, rim_i] gives 2 * step. */
  lemma SideTriangleNormals(ci: real, si: real, cj: real, sj: real)
    ensures Dot(FaceNormal(Vec3(0.0, 1.0, 0.0), Vec3(ci, 0.0, si), Vec3(cj, 0.0, sj)), Vec3(ci, 1.0, si)) ==
            -2.0 * (ci * sj - si * cj)
    ensures Dot(FaceNormal(Vec3(0.0, 1.0, 0.0), Vec3(cj, 0.0, sj), Vec3(ci, 0.0, si)), Vec3(ci, 1.0, si)) ==
            2.0 * (ci * sj - si * cj)
  {
  }

  /** Scaling the second vector of a dot product by k scales the product. */
  lemma DotScaled(f: Vec3, x: real, z: real, k: real)
    ensures Dot(f, Vec3(x * k, k, z * k)) == k * Dot(f, Vec3(x, 1.0, z))
  {
  }

  /** The stored normal of side vertex `slice` is k * (x, 1, z) with k > 0. */
  lemma SideNormalScaled(trig: Trig, sqrt: real -> real, nslices: nat, withBase: bool, slice: nat)
    requires 0 < nslices && IsSqrt(sqrt) && slice <= nslices
    ensures var v := ConeVertices(trig, sqrt, nslices, withBase)[1 + slice];
      var x := trig.cos(Theta(slice, nslices));
      var z := trig.sin(Theta(slice, nslices));
      v.pos == Vec3(x, 0.0, z) && 0.0 < v.normal.y && v.normal == Vec3(x * v.normal.y, v.normal.y, z * v.normal.y)
  {
    ConeBodyVertices(trig, sqrt, nslices, withBase, slice);
  }

  /** For a positive step and a positive scale k, [apex, rim_i, rim_j] faces
      against k * (ci, 1, si) and [apex, rim_j, rim_i] faces along it. */
  lemma SideTriangleSigns(ci: real, si: real, cj: real, sj: real, k: real)
    requires 0.0 < k && 0.0 < ci * sj - si * cj
    ensures Dot(FaceNormal(Vec3(0.0, 1.0, 0.0), Vec3(ci, 0.0, si), Vec3(cj, 0.0, sj)), Vec3(ci * k, k, si * k)) < 0.0
    ensures 0.0 < Dot(FaceNormal(Vec3(0.0, 1.0, 0.0), Vec3(cj, 0.0, sj), Vec3(ci, 0.0, si)), Vec3(ci * k, k, si * k))
  {
    SideTriangleNormals(ci, si, cj, sj);
    DotScaled(FaceNormal(Vec3(0.0, 1.0, 0.0), Vec3(ci, 0.0, si), Vec3(cj, 0.0, sj)), ci, si, k);
    DotScaled(FaceNormal(Vec3(0.0, 1.0, 0.0), Vec3(cj, 0.0, sj), Vec3(ci, 0.0, si)), ci, si, k);
    PositiveProduct(k, 2.0 * (ci * sj - si * cj));
  }

  /** The apex, the two rim vertices of side triangle `slice` and the stored
      normal of the first, as plain reals: the rim vertices sit at (ci, 0, si)
      and (cj, 0, sj), the step is ci * sj - si * cj, and the normal is
      k * (ci, 1, si) with k > 0. */
  lemma SideTriangleValues(trig: Trig, sqrt: real -> real, nslices: nat, withBase: bool, slice: nat)
    returns (ci: real, si: real, cj: real, sj: real, k: real)
    requires 0 < nslices && IsSqrt(sqrt) && slice < nslices
    ensures var vs := ConeVertices(trig, sqrt, nslices, withBase);
      vs[0].pos == Vec3(0.0, 1.0, 0.0) && vs[1 + slice].pos == Vec3(ci, 0.0, si) &&
      vs[2 + slice].pos == Vec3(cj, 0.0, sj) && vs[1 + slice].normal == Vec3(ci * k, k, si * k) &&
      0.0 < k && ci * sj - si * cj == Step(trig, nslices, slice)
  {
    assert ConeVertices(trig, sqrt, nslices, withBase)[0] == Apex();
    SideNormalScaled(trig, sqrt, nslices, withBase, slice);
    SideNormalScaled(trig, sqrt, nslices, withBase, slice + 1);
    var ti, tj := Theta(slice, nslices), Theta(slice + 1, nslices);
    ci, si, cj, sj := trig.cos(ti), trig.sin(ti), trig.cos(tj), trig.sin(tj);
    k := ConeVertices(trig, sqrt, nslices, withBase)[1 + slice].normal.y;
  }

  /** As the source winds it, side triangle `slice` [apex, 1 + slice, 2 +
      slice] is front-facing on the side opposite to the stored normal of its
      rim vertex 1 + slice: with the default counter-clockwise front face
      and back-face culling, the outside of the cone is culled. */
  lemma SourceConeSideFacesInward(trig: Trig, sqrt: real -> real, nslices: nat, withBase: bool, slice: nat)
    requires 0 < nslices && IsSqrt(sqrt) && slice < nslices
    requires 0.0 < Step(trig, nslices, slice)
    ensures SourceConeIndices(nslices, withBase)[3 * slice..3 * slice + 3] == [0, 1 + slice, 2 + slice]
    ensures var vs := ConeVertices(trig, sqrt, nslices, withBase);
      Dot(FaceNormal(vs[0].pos, vs[1 + slice].pos, vs[2 + slice].pos), vs[1 + slice].normal) < 0.0
  {
    SourceConeSideTriangle(nslices, withBase, slice);
    var ci, si, cj, sj, k := SideTriangleValues(trig, sqrt, nslices, withBase, slice);
    SideTriangleSigns(ci, si, cj, sj, k);
  }

  /** With the corrected winding, side triangle `slice` [apex, 2 + slice, 1 +
      slice] is front-facing on the side its rim vertex's stored normal
      points to, as the body and cap triangles of both shapes are. */
  lemma ConeSideFacesOutward(trig: Trig, sqrt: real -> real, nslices: nat, withBase: bool, slice: nat)
    requires 0 < nslices && IsSqrt(sqrt) && slice < nslices
    requires 0.0 < Step(trig, nslices, slice)
    ensures ConeIndices(nslices, withBase)[3 * slice..3 * slice + 3] == [0, 2 + slice, 1 + slice]
    ensures var vs := ConeVertices(trig, sqrt, nslices, withBase);
      0.0 < Dot(FaceNormal(vs[0].pos, vs[2 + slice].pos, vs[1 + slice].pos), vs[1 + slice].normal)
  {
    ConeSideTriangle(nslices, withBase, slice);
    var ci, si, cj, sj, k := SideTriangleValues(trig, sqrt, nslices, withBase, slice);
    SideTriangleSigns(ci, si, cj, sj, k);
  }

  /** With the base, base triangle `slice` [center, center + 1 + slice, center
      + 2 + slice] faces down, the way the base normal points. */
  lemma ConeBaseFacesDown(trig: Trig, sqrt: real -> real, nslices: nat, slice: nat)
    requires 0 < nslices && IsSqrt(sqrt) && slice < nslices
    requires 0.0 < Step(trig, nslices, slice)
    ensures var vs := ConeVertices(trig, sqrt, nslices, true);
      var center := nslices + 2;
      0.0 < Dot(FaceNormal(vs[center].pos, vs[center + 1 + slice].pos, vs[center + 2 + slice].pos), vs[center].normal)
  {
    ConeBaseVertices(trig, sqrt, nslices, slice);
    ConeBaseVertices(trig, sqrt, nslices, slice + 1);
    var ti, tj := Theta(slice, nslices), Theta(slice + 1, nslices);
    CapTriangleNormal(0.0, trig.cos(ti), trig.sin(ti), trig.cos(tj), trig.sin(tj));
  }

  // ---------------------------------------------------------------------
  // The generator loops
  // ---------------------------------------------------------------------

  /** One pass of the side loop: the vertex at angle Theta(slice) with its
      slanted normal. */
  method EmitLateralVertex(mesh: MeshData, trig: Trig, sqrt: real -> real, nslices: nat, slice: nat)
    requires mesh.Valid() && 0 < nslices && IsSqrt(sqrt) && mesh.vid < mesh.vertexCapacity
    modifies mesh`vid, mesh`cid, mesh`nid, mesh`tid, mesh`Vertices, mesh.coords, mesh.normals, mesh.texcoords
    ensures mesh.Valid() && mesh.vid == old(mesh.vid) + 1
    ensures mesh.Vertices == old(mesh.Vertices) + [LateralVertex(trig, sqrt, nslices, slice)]
  {
    var theta := Theta(slice, nslices);
    var x := trig.cos(theta);
    var z := trig.sin(theta);
    var u := Fraction(slice, nslices);
    var nx, ny, nz := x, 1.0, z;
    var length := sqrt(nx * nx + ny * ny + nz * nz);
    assert length == SlantLength(sqrt, x, z);
    mesh.PutVertex(Vertex(Vec3(x, 0.0, z), Vec3(nx / length, ny / length, nz / length), Vec2(u, 0.0)));
  }

  /** The apex, then the side loop over nslices + 1 samples. Returns the
      apex's id (vertex_top) and the first side vertex's id (base_start). */
  method EmitLateralVertices(mesh: MeshData, trig: Trig, sqrt: real -> real, nslices: nat)
    returns (vertexTop: nat, baseStart: nat)
    requires mesh.Valid() && 0 < nslices && IsSqrt(sqrt) && mesh.vid + 1 + (nslices + 1) <= mesh.vertexCapacity
    modifies mesh`vid, mesh`cid, mesh`nid, mesh`tid, mesh`Vertices, mesh.coords, mesh.normals, mesh.texcoords
    ensures mesh.Valid() && vertexTop == old(mesh.vid) && baseStart == vertexTop + 1
    ensures mesh.vid == baseStart + (nslices + 1)
    ensures mesh.Vertices == old(mesh.Vertices) + [Apex()] + LateralRing(trig, sqrt, nslices, nslices + 1)
  {
    vertexTop := mesh.vid;
    mesh.PutVertex(Vertex(Vec3(0.0, 1.0, 0.0), Vec3(0.0, 1.0, 0.0), Vec2(0.5, 1.0)));
    baseStart := mesh.vid;
    ghost var start := mesh.Vertices;
    var slice := 0;
    while slice < nslices + 1
      invariant 0 <= slice <= nslices + 1
      invariant mesh.Valid() && mesh.vid == baseStart + slice
      invariant mesh.Vertices == start + LateralRing(trig, sqrt, nslices, slice)
    {
      EmitLateralVertex(mesh, trig, sqrt, nslices, slice);
      assert LateralRing(trig, sqrt, nslices, slice + 1) ==
             LateralRing(trig, sqrt, nslices, slice) + [LateralVertex(trig, sqrt, nslices, slice)];
      AppendAssoc(start, LateralRing(trig, sqrt, nslices, slice), [LateralVertex(trig, sqrt, nslices, slice)]);
      slice := slice + 1;
    }
  }

  /** The side of the cone: apex and side vertices, then the side fan loop,
      wound [vertex_top, base_start + slice + 1, base_start + slice] so that
      the side faces outwards. */
  method EmitBody(mesh: MeshData, trig: Trig, sqrt: real -> real, nslices: nat)
    requires mesh.Valid() && 0 < nslices && IsSqrt(sqrt) && mesh.vid == 0 && mesh.iid == 0
    requires 1 + (nslices + 1) <= mesh.vertexCapacity && nslices * 3 <= mesh.indices.Length
    modifies mesh`vid, mesh`cid, mesh`nid, mesh`tid, mesh`Vertices, mesh.coords, mesh.normals, mesh.texcoords,
             mesh`iid, mesh`Indices, mesh.indices
    ensures mesh.Valid() && mesh.vid == 1 + (nslices + 1) && mesh.iid == nslices * 3
    ensures mesh.Vertices == [Apex()] + LateralRing(trig, sqrt, nslices, nslices + 1)
    ensures mesh.Indices == ReverseFan(0, 1, nslices)
  {
    var vertexTop, baseStart := EmitLateralVertices(mesh, trig, sqrt, nslices);
    EmitReverseFan(mesh, vertexTop, baseStart, nslices);
  }

  /** The base, if enabled: centre and rim at y = 0 with normal down, then
      the fan around the centre. */
  method EmitBase(mesh: MeshData, trig: Trig, nslices: nat, withBase: bool)
    requires mesh.Valid() && 0 < nslices
    requires mesh.vid + (if withBase then 1 + (nslices + 1) else 0) == mesh.vertexCapacity
    requires mesh.iid + (if withBase then nslices * 3 else 0) == mesh.indices.Length
    modifies mesh`vid, mesh`cid, mesh`nid, mesh`tid, mesh`Vertices, mesh.coords, mesh.normals, mesh.texcoords,
             mesh`iid, mesh`Indices, mesh.indices
    ensures mesh.Valid() && mesh.vid == mesh.vertexCapacity && mesh.iid == mesh.indices.Length
    ensures mesh.Vertices == old(mesh.Vertices) + BaseVertices(trig, nslices, withBase)
    ensures mesh.Indices == old(mesh.Indices) + BaseIndices(old(mesh.vid), nslices, withBase)
  {
    if withBase {
      var centerBase := EmitBottomCap(mesh, trig, nslices);
    } else {
      assert old(mesh.Vertices) + [] == old(mesh.Vertices);
      assert old(mesh.Indices) + [] == old(mesh.Indices);
    }
  }

  // ---------------------------------------------------------------------
  // The shape
  // ---------------------------------------------------------------------

  class Cone {
    const nslices: nat
    const withBase: bool
    const disableCulling: bool
    /** The generated streams (uploaded to the GPU by the source). */
    const mesh: MeshData
    /** The number of indices Draw renders. */
    const nind: nat

    /** Computes the totals, allocates the streams, and fills them with the
        apex, the side vertices and the side fan, then the base if enabled.
        Every slot of every stream is written exactly once. The side fan is
        the corrected, outward-facing `ConeIndices` rather than the source's
        `SourceConeIndices`; the two differ only in the order of each side
        triangle's last two indices (SourceConeIndicesAgree). The defaults
        are the source's: 32 slices, base on, culling left alone. */
    constructor (trig: Trig, sqrt: real -> real, nslices: nat := 32, withBase: bool := true, disableCulling: bool := false)
      requires 0 < nslices && IsSqrt(sqrt)
      ensures this.nslices == nslices && this.withBase == withBase && this.disableCulling == disableCulling
      ensures fresh(mesh) && fresh(mesh.coords) && fresh(mesh.normals) && fresh(mesh.texcoords) && fresh(mesh.indices)
      ensures mesh.Valid()
      ensures mesh.vertexCapacity == TotalVertices(nslices, withBase)
      ensures mesh.indices.Length == TotalIndices(nslices, withBase)
      ensures mesh.vid == mesh.vertexCapacity && mesh.iid == mesh.indices.Length
      ensures mesh.cid == 3 * mesh.vid && mesh.nid == 3 * mesh.vid && mesh.tid == 2 * mesh.vid
      ensures mesh.Vertices == ConeVertices(trig, sqrt, nslices, withBase)
      ensures mesh.Indices == ConeIndices(nslices, withBase)
      ensures nind == TotalIndices(nslices, withBase)
    {
      this.nslices := nslices;
      this.withBase := withBase;
      this.disableCulling := disableCulling;
      var totalVertices := TotalVertices(nslices, withBase);
      var totalIndices := TotalIndices(nslices, withBase);
      var m := new MeshData(totalVertices, totalIndices);
      mesh := m;
      EmitBody(m, trig, sqrt, nslices);
      EmitBase(m, trig, nslices, withBase);
      nind := m.indices.Length;
    }

    /** Draws nind indices, with face culling suspended for this one call when
        disableCulling is set; the culling flag ends as it began. */
    method Draw(ctx: Gl.Context)
      requires ctx.Valid()
      modifies ctx
      ensures ctx.Valid() && ctx.cullFace == old(ctx.cullFace)
      ensures ctx.calls == old(ctx.calls) + DrawCalls(nind, disableCulling, old(ctx.cullFace))
    {
      DrawIndexed(ctx, nind, disableCulling);
    }
  }
}
