/** The unit cylinder along the Y axis: radius 1, bottom at y = 0, top at
    y = 1, nstacks bands of nslices quads, and optionally a flat cap at each
    end. */
module CylinderMesh {
  import opened Mesh
  import Gl

  // ---------------------------------------------------------------------
  // Totals computed before allocation
  // ---------------------------------------------------------------------

  function BodyVertexCount(nslices: nat, nstacks: nat): nat
  {
    (nstacks + 1) * (nslices + 1)
  }

  /** body_vertices + cap_vertices */
  function TotalVertices(nslices: nat, nstacks: nat, withCaps: bool): nat
  {
    BodyVertexCount(nslices, nstacks) + (if withCaps then 2 * (1 + nslices + 1) else 0)
  }

  /** body_indices + cap_indices */
  function TotalIndices(nslices: nat, nstacks: nat, withCaps: bool): nat
  {
    nstacks * nslices * 6 + (if withCaps then 2 * nslices * 3 else 0)
  }

  // ---------------------------------------------------------------------
  // The vertex list, in the order the loops write it
  // ---------------------------------------------------------------------

  /** Body vertex (stack, slice): on the unit circle at angle Theta(slice) and
      height stack / nstacks, radial normal, texcoord (slice / nslices, stack / nstacks). */
  function BodyVertex(trig: Trig, nslices: nat, nstacks: nat, stack: nat, slice: nat): Vertex
    requires 0 < nslices && 0 < nstacks
  {
    var x := trig.cos(Theta(slice, nslices));
    var z := trig.sin(Theta(slice, nslices));
    var y := Fraction(stack, nstacks);
    Vertex(Vec3(x, y, z), Vec3(x, 0.0, z), Vec2(Fraction(slice, nslices), Fraction(stack, nstacks)))
  }

  /** The first k vertices of row `stack`. */
  function BodyRow(trig: Trig, nslices: nat, nstacks: nat, stack: nat, k: nat): (r: seq<Vertex>)
    requires 0 < nslices && 0 < nstacks
    ensures |r| == k
  {
    if k == 0 then []
    else BodyRow(trig, nslices, nstacks, stack, k - 1) + [BodyVertex(trig, nslices, nstacks, stack, k - 1)]
  }

  /** The first `rows` rows of nslices + 1 vertices each. */
  function BodyGrid(trig: Trig, nslices: nat, nstacks: nat, rows: nat): (r: seq<Vertex>)
    requires 0 < nslices && 0 < nstacks
    ensures |r| == rows * (nslices + 1)
  {
    if rows == 0 then []
    else BodyGrid(trig, nslices, nstacks, rows - 1) + BodyRow(trig, nslices, nstacks, rows - 1, nslices + 1)
  }

  /** Every vertex the constructor writes: the body grid, then the bottom cap
      (y = 0, normal down) and the top cap (y = 1, normal up) if enabled.
      Its length is the total computed in advance. */
  function CylinderVertices(trig: Trig, nslices: nat, nstacks: nat, withCaps: bool): (r: seq<Vertex>)
    requires 0 < nslices && 0 < nstacks
    ensures |r| == TotalVertices(nslices, nstacks, withCaps)
  {
    BodyGrid(trig, nslices, nstacks, nstacks + 1) + CapsVertices(trig, nslices, withCaps)
  }

  /** The bottom cap (y = 0, normal down) then the top cap (y = 1, normal up), if enabled. */
  function CapsVertices(trig: Trig, nslices: nat, withCaps: bool): (r: seq<Vertex>)
    requires 0 < nslices
    ensures |r| == if withCaps then 2 * (1 + nslices + 1) else 0
  {
    if withCaps then Cap(trig, nslices, 0.0, -1.0) + Cap(trig, nslices, 1.0, 1.0) else []
  }

  // ---------------------------------------------------------------------
  // The index list, in the order the loops write it
  // ---------------------------------------------------------------------

  /** The two triangles of quad (stack, slice): [v0, v2, v1] then [v1, v2, v3]. */
  function Quad(nslices: nat, stack: nat, slice: nat): seq<nat>
  {
    var v0 := stack * (nslices + 1) + slice;
    var v1 := v0 + 1;
    var v2 := v0 + (nslices + 1);
    var v3 := v2 + 1;
    [v0, v2, v1, v1, v2, v3]
  }

  /** The quads of slices 0 .. k-1 of band `stack`. */
  function QuadRow(nslices: nat, stack: nat, k: nat): (r: seq<nat>)
    ensures |r| == 6 * k
  {
    if k == 0 then [] else QuadRow(nslices, stack, k - 1) + Quad(nslices, stack, k - 1)
  }

  /** The quads of bands 0 .. rows-1. */
  function QuadGrid(nslices: nat, rows: nat): (r: seq<nat>)
    ensures |r| == rows * nslices * 6
  {
    if rows == 0 then [] else QuadGrid(nslices, rows - 1) + QuadRow(nslices, rows - 1, nslices)
  }

  /** Every index the constructor writes: the body quads, then the bottom fan
      and the reversed top fan if caps are enabled. Its length is the total
      computed in advance. */
  function CylinderIndices(nslices: nat, nstacks: nat, withCaps: bool): (r: seq<nat>)
    ensures |r| == TotalIndices(nslices, nstacks, withCaps)
  {
    QuadGrid(nslices, nstacks) + CapsIndices(BodyVertexCount(nslices, nstacks), nslices, withCaps)
  }

  /** The bottom fan around vertex `bottom` and the reversed top fan around
      the top centre nslices + 2 vertices later, if enabled. */
  function CapsIndices(bottom: nat, nslices: nat, withCaps: bool): (r: seq<nat>)
    ensures |r| == if withCaps then 2 * nslices * 3 else 0
  {
    var top := bottom + (nslices + 2);
    if withCaps then Fan(bottom, bottom + 1, nslices) + ReverseFan(top, top + 1, nslices) else []
  }

  // ---------------------------------------------------------------------
  // Lemmas about the vertex list
  // ---------------------------------------------------------------------

  lemma {:induction false} BodyRowAt(trig: Trig, nslices: nat, nstacks: nat, stack: nat, k: nat, i: nat)
    requires 0 < nslices && 0 < nstacks && i < k
    ensures BodyRow(trig, nslices, nstacks, stack, k)[i] == BodyVertex(trig, nslices, nstacks, stack, i)
  {
    if i < k - 1 {
      BodyRowAt(trig, nslices, nstacks, stack, k - 1, i);
    }
  }

  lemma {:induction false} BodyGridAt(trig: Trig, nslices: nat, nstacks: nat, rows: nat, stack: nat, slice: nat)
    requires 0 < nslices && 0 < nstacks && stack < rows && slice <= nslices
    ensures stack * (nslices + 1) + slice < rows * (nslices + 1)
    ensures BodyGrid(trig, nslices, nstacks, rows)[stack * (nslices + 1) + slice] ==
            BodyVertex(trig, nslices, nstacks, stack, slice)
  {
    var prev := BodyGrid(trig, nslices, nstacks, rows - 1);
    var row := BodyRow(trig, nslices, nstacks, rows - 1, nslices + 1);
    assert BodyGrid(trig, nslices, nstacks, rows) == prev + row;
    if stack == rows - 1 {
      BodyRowAt(trig, nslices, nstacks, stack, nslices + 1, slice);
      assert |prev| == stack * (nslices + 1);
    } else {
      BodyGridAt(trig, nslices, nstacks, rows - 1, stack, slice);
      assert |prev| + nslices + 1 == rows * (nslices + 1);
    }
  }

  /** Body vertex (stack, slice) of the whole vertex list. */
  lemma CylinderBodyAt(trig: Trig, nslices: nat, nstacks: nat, withCaps: bool, stack: nat, slice: nat)
    requires 0 < nslices && 0 < nstacks && stack <= nstacks && slice <= nslices
    ensures stack * (nslices + 1) + slice < BodyVertexCount(nslices, nstacks)
    ensures CylinderVertices(trig, nslices, nstacks, withCaps)[stack * (nslices + 1) + slice] ==
            BodyVertex(trig, nslices, nstacks, stack, slice)
  {
    BodyGridAt(trig, nslices, nstacks, nstacks + 1, stack, slice);
  }

  /** Body vertex (stack, slice) has id stack * (nslices + 1) + slice, lies on
      the unit circle at angle Theta(slice) and height stack / nstacks, has a
      radial normal with zero y and texcoord (slice / nslices, stack / nstacks). */
  lemma CylinderBodyVertex(trig: Trig, nslices: nat, nstacks: nat, withCaps: bool, stack: nat, slice: nat)
    requires 0 < nslices && 0 < nstacks && stack <= nstacks && slice <= nslices
    ensures stack * (nslices + 1) + slice < BodyVertexCount(nslices, nstacks)
    ensures var v := CylinderVertices(trig, nslices, nstacks, withCaps)[stack * (nslices + 1) + slice];
      var x := trig.cos(Theta(slice, nslices));
      var z := trig.sin(Theta(slice, nslices));
      v.pos == Vec3(x, stack as real / nstacks as real, z) &&
      v.normal == Vec3(x, 0.0, z) &&
      v.tex == Vec2(slice as real / nslices as real, stack as real / nstacks as real)
  {
    CylinderBodyAt(trig, nslices, nstacks, withCaps, stack, slice);
  }

  /** The seam: the first and last vertex of every row are the samples at
      angles 0 and 2 pi, with u = 0 and u = 1; if a full turn returns cos and
      sin to their starting values the two share their position and normal. */
  lemma CylinderSeam(trig: Trig, nslices: nat, nstacks: nat, withCaps: bool, stack: nat)
    requires 0 < nslices && 0 < nstacks && stack <= nstacks
    ensures stack * (nslices + 1) + nslices < BodyVertexCount(nslices, nstacks)
    ensures var vs := CylinderVertices(trig, nslices, nstacks, withCaps);
      var first := vs[stack * (nslices + 1)];
      var last := vs[stack * (nslices + 1) + nslices];
      first.tex.u == 0.0 && last.tex.u == 1.0 && first.tex.v == last.tex.v &&
      first.pos == Vec3(trig.cos(0.0), first.pos.y, trig.sin(0.0)) &&
      last.pos == Vec3(trig.cos(2.0 * Pi), first.pos.y, trig.sin(2.0 * Pi)) &&
      (FullTurn(trig) ==> first.pos == last.pos && first.normal == last.normal)
  {
    CylinderBodyVertex(trig, nslices, nstacks, withCaps, stack, 0);
    CylinderBodyVertex(trig, nslices, nstacks, withCaps, stack, nslices);
  }

  /** With caps, vertex BodyVertexCount is the bottom centre (origin, normal
      down, texcoord (0.5, 0.5)), followed by its nslices + 1 rim vertices at
      y = 0 with normal down; then the top centre at (0, 1, 0) with normal up,
      followed by its rim at y = 1 with normal up. */
  lemma CylinderCapVertices(trig: Trig, nslices: nat, nstacks: nat, slice: nat)
    requires 0 < nslices && 0 < nstacks && slice <= nslices
    ensures var vs := CylinderVertices(trig, nslices, nstacks, true);
      var bottom := BodyVertexCount(nslices, nstacks);
      var top := bottom + nslices + 2;
      var x := trig.cos(Theta(slice, nslices));
      var z := trig.sin(Theta(slice, nslices));
      vs[bottom] == Vertex(Vec3(0.0, 0.0, 0.0), Vec3(0.0, -1.0, 0.0), Vec2(0.5, 0.5)) &&
      vs[bottom + 1 + slice] == Vertex(Vec3(x, 0.0, z), Vec3(0.0, -1.0, 0.0), Vec2(0.5 + 0.5 * x, 0.5 + 0.5 * z)) &&
      vs[top] == Vertex(Vec3(0.0, 1.0, 0.0), Vec3(0.0, 1.0, 0.0), Vec2(0.5, 0.5)) &&
      vs[top + 1 + slice] == Vertex(Vec3(x, 1.0, z), Vec3(0.0, 1.0, 0.0), Vec2(0.5 + 0.5 * x, 0.5 + 0.5 * z))
  {
    var body := BodyGrid(trig, nslices, nstacks, nstacks + 1);
    var lower := Cap(trig, nslices, 0.0, -1.0);
    var upper := Cap(trig, nslices, 1.0, 1.0);
    CapAttributes(trig, nslices, 0.0, -1.0, slice);
    CapAttributes(trig, nslices, 1.0, 1.0, slice);
    assert CylinderVertices(trig, nslices, nstacks, true) == body + lower + upper;
  }

  /** When cos and sin describe the unit circle, every body vertex lies on the
      unit cylinder x^2 + z^2 = 1 and its normal has length 1. */
  lemma CylinderOnUnitSurface(trig: Trig, nslices: nat, nstacks: nat, withCaps: bool, stack: nat, slice: nat)
    requires 0 < nslices && 0 < nstacks && stack <= nstacks && slice <= nslices
    requires UnitCircle(trig)
    ensures stack * (nslices + 1) + slice < BodyVertexCount(nslices, nstacks)
    ensures var v := CylinderVertices(trig, nslices, nstacks, withCaps)[stack * (nslices + 1) + slice];
      v.pos.x * v.pos.x + v.pos.z * v.pos.z == 1.0 &&
      v.normal.x * v.normal.x + v.normal.y * v.normal.y + v.normal.z * v.normal.z == 1.0 &&
      0.0 <= v.pos.y <= 1.0
  {
    CylinderBodyAt(trig, nslices, nstacks, withCaps, stack, slice);
    var t := Theta(slice, nslices);
    assert trig.cos(t) * trig.cos(t) + trig.sin(t) * trig.sin(t) == 1.0;
    FractionInUnit(stack, nstacks);
  }

  // ---------------------------------------------------------------------
  // Lemmas about the index list
  // ---------------------------------------------------------------------

  lemma {:induction false} QuadRowAt(nslices: nat, stack: nat, k: nat, slice: nat)
    requires slice < k
    ensures QuadRow(nslices, stack, k)[6 * slice..6 * slice + 6] == Quad(nslices, stack, slice)
  {
    var prev := QuadRow(nslices, stack, k - 1);
    var last := Quad(nslices, stack, k - 1);
    assert QuadRow(nslices, stack, k) == prev + last;
    if slice < k - 1 {
      QuadRowAt(nslices, stack, k - 1, slice);
      SliceLeft(prev, last, 6 * slice, 6 * slice + 6);
    } else {
      SliceRight(prev, last, 6 * slice, 6 * slice + 6);
      assert last[0..6] == last;
    }
  }

  /** The quads of the first k bands are a prefix of those of the first `rows`. */
  lemma {:induction false} QuadGridPrefix(nslices: nat, k: nat, rows: nat)
    requires k <= rows
    ensures |QuadGrid(nslices, k)| <= |QuadGrid(nslices, rows)|
    ensures QuadGrid(nslices, rows)[..|QuadGrid(nslices, k)|] == QuadGrid(nslices, k)
  {
    if k < rows {
      var prev := QuadGrid(nslices, rows - 1);
      var row := QuadRow(nslices, rows - 1, nslices);
      assert QuadGrid(nslices, rows) == prev + row;
      QuadGridPrefix(nslices, k, rows - 1);
      SliceLeft(prev, row, 0, |QuadGrid(nslices, k)|);
    }
  }

  /** Band `stack` of the body quads follows the quads of the bands before it. */
  lemma QuadGridBand(nslices: nat, rows: nat, stack: nat)
    requires stack < rows
    ensures |QuadGrid(nslices, stack + 1)| == |QuadGrid(nslices, stack)| + 6 * nslices
    ensures |QuadGrid(nslices, stack + 1)| <= |QuadGrid(nslices, rows)|
    ensures QuadGrid(nslices, rows)[|QuadGrid(nslices, stack)|..|QuadGrid(nslices, stack + 1)|] ==
            QuadRow(nslices, stack, nslices)
  {
    var before := QuadGrid(nslices, stack);
    var band := QuadRow(nslices, stack, nslices);
    assert QuadGrid(nslices, stack + 1) == before + band;
    QuadGridPrefix(nslices, stack + 1, rows);
    SliceOfSlice(QuadGrid(nslices, rows), 0, |before| + |band|, |before|, |before| + |band|);
    SliceRight(before, band, |before|, |before| + |band|);
    assert band[0..|band|] == band;
  }

  /** Quad (stack, slice) follows the bands before it and the quads before it in its band. */
  lemma QuadGridAt(nslices: nat, rows: nat, stack: nat, slice: nat)
    requires stack < rows && slice < nslices
    ensures |QuadGrid(nslices, stack)| + 6 * slice + 6 <= |QuadGrid(nslices, rows)|
    ensures QuadGrid(nslices, rows)[|QuadGrid(nslices, stack)| + 6 * slice..|QuadGrid(nslices, stack)| + 6 * slice + 6] ==
            Quad(nslices, stack, slice)
  {
    var all := QuadGrid(nslices, rows);
    var band := QuadRow(nslices, stack, nslices);
    var b := |QuadGrid(nslices, stack)|;
    var e := |QuadGrid(nslices, stack + 1)|;
    QuadGridBand(nslices, rows, stack);
    QuadRowAt(nslices, stack, nslices, slice);
    SliceThrough(all, band, b, e, 6 * slice, 6 * slice + 6, Quad(nslices, stack, slice));
  }

  lemma {:induction false} QuadRowBounds(nslices: nat, stack: nat, k: nat)
    requires k <= nslices
    ensures forall e :: e in QuadRow(nslices, stack, k) ==> e < stack * (nslices + 1) + 2 * (nslices + 1)
  {
    if k > 0 {
      QuadRowBounds(nslices, stack, k - 1);
    }
  }

  lemma {:induction false} QuadGridBounds(nslices: nat, rows: nat)
    ensures forall e :: e in QuadGrid(nslices, rows) ==> e < (rows + 1) * (nslices + 1)
  {
    if rows > 0 {
      QuadGridBounds(nslices, rows - 1);
      QuadRowBounds(nslices, rows - 1, nslices);
      RowStep(nslices, rows - 1);
      RowStep(nslices, rows);
    }
  }

  /** One more row of nslices + 1 vertices. */
  lemma RowStep(nslices: nat, stack: nat)
    ensures (stack + 1) * (nslices + 1) == stack * (nslices + 1) + (nslices + 1)
  {
  }

  /** Body quad (stack, slice) occupies index slots 6 * (stack * nslices + slice)
      onwards and is [v0, v2, v1, v1, v2, v3] with v0 = stack * (nslices + 1) +
      slice, v1 = v0 + 1, v2 = v0 + nslices + 1 and v3 = v2 + 1. */
  lemma CylinderQuad(nslices: nat, nstacks: nat, withCaps: bool, stack: nat, slice: nat)
    requires stack < nstacks && slice < nslices
    ensures stack * nslices * 6 + 6 * slice + 6 <= nstacks * nslices * 6
    ensures var o := stack * nslices * 6 + 6 * slice;
      var v0 := stack * (nslices + 1) + slice;
      var v2 := v0 + nslices + 1;
      CylinderIndices(nslices, nstacks, withCaps)[o..o + 6] == [v0, v2, v0 + 1, v0 + 1, v2, v2 + 1]
  {
    var o := stack * nslices * 6 + 6 * slice;
    QuadGridAt(nslices, nstacks, stack, slice);
    assert |QuadGrid(nslices, stack)| == stack * nslices * 6;
    SliceLeft(QuadGrid(nslices, nstacks), CapsIndices(BodyVertexCount(nslices, nstacks), nslices, withCaps), o, o + 6);
  }

  /** Triangle `slice` of the bottom fan and of the reversed top fan. */
  lemma CapsFanAt(bottom: nat, nslices: nat, slice: nat)
    requires slice < nslices
    ensures var caps := CapsIndices(bottom, nslices, true);
      var top := bottom + nslices + 2;
      caps[3 * slice..3 * slice + 3] == [bottom, bottom + 1 + slice, bottom + 2 + slice] &&
      caps[3 * nslices + 3 * slice..3 * nslices + 3 * slice + 3] == [top, top + 2 + slice, top + 1 + slice]
  {
    var top := bottom + nslices + 2;
    var lower := Fan(bottom, bottom + 1, nslices);
    var upper := ReverseFan(top, top + 1, nslices);
    FanAt(bottom, bottom + 1, nslices, slice);
    ReverseFanAt(top, top + 1, nslices, slice);
    SliceLeft(lower, upper, 3 * slice, 3 * slice + 3);
    SliceRight(lower, upper, 3 * nslices + 3 * slice, 3 * nslices + 3 * slice + 3);
  }

  /** With caps, the index slots after the body quads hold exactly the
      bottom fan around the bottom centre followed by the reversed top fan
      around the top centre (see CapsFanAt for each triangle). */
  lemma CylinderCapFans(nslices: nat, nstacks: nat)
    ensures nstacks * nslices * 6 <= |CylinderIndices(nslices, nstacks, true)|
    ensures CylinderIndices(nslices, nstacks, true)[nstacks * nslices * 6..] ==
            CapsIndices(BodyVertexCount(nslices, nstacks), nslices, true)
  {
    var body := QuadGrid(nslices, nstacks);
    var caps := CapsIndices(BodyVertexCount(nslices, nstacks), nslices, true);
    assert (body + caps)[|body|..] == caps;
  }

  /** Every index is below the vertex total; body indices stay inside the body
      grid and each cap fan stays inside its own block of nslices + 2 vertices. */
  lemma CylinderIndicesInRange(nslices: nat, nstacks: nat, withCaps: bool)
    ensures forall e :: e in CylinderIndices(nslices, nstacks, withCaps) ==> e < TotalVertices(nslices, nstacks, withCaps)
    ensures forall e :: e in QuadGrid(nslices, nstacks) ==> e < BodyVertexCount(nslices, nstacks)
    ensures var bottom := BodyVertexCount(nslices, nstacks);
      Within(Fan(bottom, bottom + 1, nslices), bottom, bottom + nslices + 2)
    ensures var top := BodyVertexCount(nslices, nstacks) + nslices + 2;
      Within(ReverseFan(top, top + 1, nslices), top, top + nslices + 2)
  {
    var bottom := BodyVertexCount(nslices, nstacks);
    var top := bottom + nslices + 2;
    QuadGridBounds(nslices, nstacks);
    FanBounds(bottom, bottom + 1, nslices);
    ReverseFanBounds(top, top + 1, nslices);
  }

  // ---------------------------------------------------------------------
  // Lemmas about orientation
  // ---------------------------------------------------------------------

  /** The face normals of a body quad's two triangles, [p0, p2, p1] and
      [p1, p2, p3], against the radial normals at p0 and at p1. */
  lemma QuadTriangleNormals(ci: real, si: real, cj: real, sj: real, y0: real, y1: real)
    ensures Dot(FaceNormal(Vec3(ci, y0, si), Vec3(ci, y1, si), Vec3(cj, y0, sj)), Vec3(ci, 0.0, si)) ==
            (y1 - y0) * (ci * sj - si * cj)
    ensures Dot(FaceNormal(Vec3(cj, y0, sj), Vec3(ci, y1, si), Vec3(cj, y1, sj)), Vec3(cj, 0.0, sj)) ==
            (y1 - y0) * (ci * sj - si * cj)
  {
  }

  /** The orientation of quad (stack, slice), on the body vertices themselves. */
  lemma BodyQuadFacesOutward(trig: Trig, nslices: nat, nstacks: nat, stack: nat, slice: nat)
    requires 0 < nslices && 0 < nstacks && stack < nstacks && slice < nslices
    requires 0.0 < Step(trig, nslices, slice)
    ensures var p0 := BodyVertex(trig, nslices, nstacks, stack, slice);
      var p1 := BodyVertex(trig, nslices, nstacks, stack, slice + 1);
      var p2 := BodyVertex(trig, nslices, nstacks, stack + 1, slice);
      var p3 := BodyVertex(trig, nslices, nstacks, stack + 1, slice + 1);
      0.0 < Dot(FaceNormal(p0.pos, p2.pos, p1.pos), p0.normal) &&
      0.0 < Dot(FaceNormal(p1.pos, p2.pos, p3.pos), p1.normal)
  {
    var ti, tj := Theta(slice, nslices), Theta(slice + 1, nslices);
    var y0, y1 := Fraction(stack, nstacks), Fraction(stack + 1, nstacks);
    assert y1 - y0 == 1.0 / nstacks as real;
    QuadTriangleNormals(trig.cos(ti), trig.sin(ti), trig.cos(tj), trig.sin(tj), y0, y1);
    PositiveProduct(y1 - y0, Step(trig, nslices, slice));
  }

  /** Both triangles of body quad (stack, slice), with the vertex ids
      CylinderQuad places at its slots, are front-facing on the side their
      stored normal points to (outwards), when the angular step is positive. */
  lemma CylinderQuadFacesOutward(trig: Trig, nslices: nat, nstacks: nat, withCaps: bool, stack: nat, slice: nat)
    requires 0 < nslices && 0 < nstacks && stack < nstacks && slice < nslices
    requires 0.0 < Step(trig, nslices, slice)
    ensures (stack + 1) * (nslices + 1) + slice + 1 < BodyVertexCount(nslices, nstacks)
    ensures var vs := CylinderVertices(trig, nslices, nstacks, withCaps);
      var v0 := stack * (nslices + 1) + slice;
      var v1 := v0 + 1;
      var v2 := v0 + (nslices + 1);
      var v3 := v2 + 1;
      0.0 < Dot(FaceNormal(vs[v0].pos, vs[v2].pos, vs[v1].pos), vs[v0].normal) &&
      0.0 < Dot(FaceNormal(vs[v1].pos, vs[v2].pos, vs[v3].pos), vs[v1].normal)
  {
    RowStep(nslices, stack);
    CylinderBodyAt(trig, nslices, nstacks, withCaps, stack, slice);
    CylinderBodyAt(trig, nslices, nstacks, withCaps, stack, slice + 1);
    CylinderBodyAt(trig, nslices, nstacks, withCaps, stack + 1, slice);
    CylinderBodyAt(trig, nslices, nstacks, withCaps, stack + 1, slice + 1);
    BodyQuadFacesOutward(trig, nslices, nstacks, stack, slice);
  }

  /** With caps, triangle `slice` of the bottom fan faces down and triangle
      `slice` of the reversed top fan faces up: each is front-facing on the
      side its cap's normal points to, when the angular step is positive. */
  lemma CylinderCapsFaceOutward(trig: Trig, nslices: nat, nstacks: nat, slice: nat)
    requires 0 < nslices && 0 < nstacks && slice < nslices
    requires 0.0 < Step(trig, nslices, slice)
    ensures BodyVertexCount(nslices, nstacks) + 2 * (nslices + 2) == |CylinderVertices(trig, nslices, nstacks, true)|
    ensures var vs := CylinderVertices(trig, nslices, nstacks, true);
      var bottom := BodyVertexCount(nslices, nstacks);
      var top := bottom + nslices + 2;
      0.0 < Dot(FaceNormal(vs[bottom].pos, vs[bottom + 1 + slice].pos, vs[bottom + 2 + slice].pos), vs[bottom].normal) &&
      0.0 < Dot(FaceNormal(vs[top].pos, vs[top + 2 + slice].pos, vs[top + 1 + slice].pos), vs[top].normal)
  {
    CylinderCapVertices(trig, nslices, nstacks, slice);
    CylinderCapVertices(trig, nslices, nstacks, slice + 1);
    var ti, tj := Theta(slice, nslices), Theta(slice + 1, nslices);
    CapTriangleNormal(0.0, trig.cos(ti), trig.sin(ti), trig.cos(tj), trig.sin(tj));
    CapTriangleNormal(1.0, trig.cos(ti), trig.sin(ti), trig.cos(tj), trig.sin(tj));
  }

  // ---------------------------------------------------------------------
  // The generator loops
  // ---------------------------------------------------------------------

  /** The body vertex loops: for stack in 0 .. nstacks, one row of vertices. */
  method EmitBodyVertices(mesh: MeshData, trig: Trig, nslices: nat, nstacks: nat)
    requires mesh.Valid() && 0 < nslices && 0 < nstacks
    requires mesh.vid == 0 && BodyVertexCount(nslices, nstacks) <= mesh.vertexCapacity
    modifies mesh`vid, mesh`cid, mesh`nid, mesh`tid, mesh`Vertices, mesh.coords, mesh.normals, mesh.texcoords
    ensures mesh.Valid() && mesh.vid == BodyVertexCount(nslices, nstacks)
    ensures mesh.Vertices == BodyGrid(trig, nslices, nstacks, nstacks + 1)
  {
    var stack := 0;
    while stack < nstacks + 1
      invariant 0 <= stack <= nstacks + 1
      invariant mesh.Valid() && mesh.vid == stack * (nslices + 1)
      invariant mesh.Vertices == BodyGrid(trig, nslices, nstacks, stack)
    {
      RowFits(nslices, nstacks, stack);
      EmitBodyRow(mesh, trig, nslices, nstacks, stack);
      stack := stack + 1;
    }
  }

  /** The inner body vertex loop: for slice in 0 .. nslices, the vertex at
      angle Theta(slice) on row `stack`. */
  method EmitBodyRow(mesh: MeshData, trig: Trig, nslices: nat, nstacks: nat, stack: nat)
    requires mesh.Valid() && 0 < nslices && 0 < nstacks
    requires mesh.vid + (nslices + 1) <= mesh.vertexCapacity
    modifies mesh`vid, mesh`cid, mesh`nid, mesh`tid, mesh`Vertices, mesh.coords, mesh.normals, mesh.texcoords
    ensures mesh.Valid() && mesh.vid == old(mesh.vid) + (nslices + 1)
    ensures mesh.Vertices == old(mesh.Vertices) + BodyRow(trig, nslices, nstacks, stack, nslices + 1)
  {
    var y := Fraction(stack, nstacks);
    var v := Fraction(stack, nstacks);
    var slice := 0;
    while slice < nslices + 1
      invariant 0 <= slice <= nslices + 1
      invariant mesh.Valid() && mesh.vid == old(mesh.vid) + slice
      invariant mesh.Vertices == old(mesh.Vertices) + BodyRow(trig, nslices, nstacks, stack, slice)
    {
      EmitBodyVertex(mesh, trig, nslices, nstacks, stack, slice, y, v);
      assert BodyRow(trig, nslices, nstacks, stack, slice + 1) ==
             BodyRow(trig, nslices, nstacks, stack, slice) + [BodyVertex(trig, nslices, nstacks, stack, slice)];
      AppendAssoc(old(mesh.Vertices), BodyRow(trig, nslices, nstacks, stack, slice),
                  [BodyVertex(trig, nslices, nstacks, stack, slice)]);
      slice := slice + 1;
    }
  }

  /** One pass of the inner loop: the side vertex at (`stack`, `slice`). */
  method EmitBodyVertex(mesh: MeshData, trig: Trig, nslices: nat, nstacks: nat, stack: nat, slice: nat,
                        y: real, v: real)
    requires mesh.Valid() && 0 < nslices && 0 < nstacks && mesh.vid < mesh.vertexCapacity
    requires y == Fraction(stack, nstacks) && v == Fraction(stack, nstacks)
    modifies mesh`vid, mesh`cid, mesh`nid, mesh`tid, mesh`Vertices, mesh.coords, mesh.normals, mesh.texcoords
    ensures mesh.Valid() && mesh.vid == old(mesh.vid) + 1
    ensures mesh.Vertices == old(mesh.Vertices) + [BodyVertex(trig, nslices, nstacks, stack, slice)]
  {
    var theta := Theta(slice, nslices);
    var u := Fraction(slice, nslices);
    var x := trig.cos(theta);
    var z := trig.sin(theta);
    mesh.PutVertex(Vertex(Vec3(x, y, z), Vec3(x, 0.0, z), Vec2(u, v)));
  }

  /** Row `stack` of the body grid fits below the body total. */
  lemma RowFits(nslices: nat, nstacks: nat, stack: nat)
    requires stack <= nstacks
    ensures stack * (nslices + 1) + (nslices + 1) <= BodyVertexCount(nslices, nstacks)
    ensures (stack + 1) * (nslices + 1) == stack * (nslices + 1) + (nslices + 1)
  {
    MulMonotone(stack + 1, nstacks + 1, nslices + 1);
    RowStep(nslices, stack);
  }

  lemma {:induction false} MulMonotone(a: nat, b: nat, c: nat)
    requires a <= b
    ensures a * c <= b * c
  {
    if a < b {
      MulMonotone(a, b - 1, c);
    }
  }

  /** The body index loops: for stack < nstacks, the quads of that band. */
  method EmitBodyIndices(mesh: MeshData, nslices: nat, nstacks: nat)
    requires mesh.Valid() && mesh.iid == 0 && nstacks * nslices * 6 <= mesh.indices.Length
    modifies mesh`iid, mesh`Indices, mesh.indices
    ensures mesh.Valid()
    ensures mesh.Indices == QuadGrid(nslices, nstacks)
  {
    var stack := 0;
    while stack < nstacks
      invariant 0 <= stack <= nstacks
      invariant mesh.Valid()
      invariant mesh.Indices == QuadGrid(nslices, stack)
    {
      BandFits(nslices, nstacks, stack);
      EmitBand(mesh, nslices, stack);
      assert QuadGrid(nslices, stack + 1) == QuadGrid(nslices, stack) + QuadRow(nslices, stack, nslices);
      stack := stack + 1;
    }
  }

  /** The inner body index loop: for slice < nslices, the two triangles of
      quad (stack, slice). */
  method EmitBand(mesh: MeshData, nslices: nat, stack: nat)
    requires mesh.Valid() && mesh.iid + nslices * 6 <= mesh.indices.Length
    modifies mesh`iid, mesh`Indices, mesh.indices
    ensures mesh.Valid()
    ensures mesh.Indices == old(mesh.Indices) + QuadRow(nslices, stack, nslices)
  {
    ghost var start := mesh.Indices;
    var slice := 0;
    while slice < nslices
      invariant 0 <= slice <= nslices
      invariant mesh.Valid() && mesh.iid == old(mesh.iid) + 6 * slice
      invariant mesh.Indices == start + QuadRow(nslices, stack, slice)
    {
      var v0 := stack * (nslices + 1) + slice;
      var v1 := v0 + 1;
      var v2 := v0 + (nslices + 1);
      var v3 := v2 + 1;
      ghost var before := mesh.Indices;
      mesh.PutTriangle(v0, v2, v1);
      mesh.PutTriangle(v1, v2, v3);
      AppendAssoc(before, [v0, v2, v1], [v1, v2, v3]);
      assert [v0, v2, v1] + [v1, v2, v3] == Quad(nslices, stack, slice);
      AppendAssoc(start, QuadRow(nslices, stack, slice), Quad(nslices, stack, slice));
      slice := slice + 1;
    }
  }

  /** Band `stack` of the body quads fits below the body index total. */
  lemma BandFits(nslices: nat, nstacks: nat, stack: nat)
    requires stack < nstacks
    ensures stack * nslices * 6 + nslices * 6 <= nstacks * nslices * 6
  {
    MulMonotone(stack + 1, nstacks, nslices * 6);
    assert (stack + 1) * (nslices * 6) == stack * nslices * 6 + nslices * 6;
    assert nstacks * (nslices * 6) == nstacks * nslices * 6;
  }

  /** The side of the cylinder: its vertex grid, then its quads. */
  method EmitBody(mesh: MeshData, trig: Trig, nslices: nat, nstacks: nat)
    requires mesh.Valid() && 0 < nslices && 0 < nstacks && mesh.vid == 0 && mesh.iid == 0
    requires BodyVertexCount(nslices, nstacks) <= mesh.vertexCapacity
    requires nstacks * nslices * 6 <= mesh.indices.Length
    modifies mesh`vid, mesh`cid, mesh`nid, mesh`tid, mesh`Vertices, mesh.coords, mesh.normals, mesh.texcoords,
             mesh`iid, mesh`Indices, mesh.indices
    ensures mesh.Valid() && mesh.vid == BodyVertexCount(nslices, nstacks) && mesh.iid == nstacks * nslices * 6
    ensures mesh.Vertices == BodyGrid(trig, nslices, nstacks, nstacks + 1)
    ensures mesh.Indices == QuadGrid(nslices, nstacks)
  {
    EmitBodyVertices(mesh, trig, nslices, nstacks);
    EmitBodyIndices(mesh, nslices, nstacks);
  }

  /** The caps, if enabled: bottom centre and rim, bottom fan, top centre and
      rim, reversed top fan. */
  method EmitCaps(mesh: MeshData, trig: Trig, nslices: nat, withCaps: bool)
    requires mesh.Valid() && 0 < nslices
    requires mesh.vid + (if withCaps then 2 * (1 + nslices + 1) else 0) == mesh.vertexCapacity
    requires mesh.iid + (if withCaps then 2 * nslices * 3 else 0) == mesh.indices.Length
    modifies mesh`vid, mesh`cid, mesh`nid, mesh`tid, mesh`Vertices, mesh.coords, mesh.normals, mesh.texcoords,
             mesh`iid, mesh`Indices, mesh.indices
    ensures mesh.Valid() && mesh.vid == mesh.vertexCapacity && mesh.iid == mesh.indices.Length
    ensures mesh.Vertices == old(mesh.Vertices) + CapsVertices(trig, nslices, withCaps)
    ensures mesh.Indices == old(mesh.Indices) + CapsIndices(old(mesh.vid), nslices, withCaps)
  {
    if withCaps {
      ghost var v0, i0 := mesh.Vertices, mesh.Indices;
      var centerBottom, centerTop := EmitCapPair(mesh, trig, nslices);
      AppendAssoc(v0, Cap(trig, nslices, 0.0, -1.0), Cap(trig, nslices, 1.0, 1.0));
      AppendAssoc(i0, Fan(centerBottom, centerBottom + 1, nslices), ReverseFan(centerTop, centerTop + 1, nslices));
    } else {
      assert old(mesh.Vertices) + [] == old(mesh.Vertices);
      assert old(mesh.Indices) + [] == old(mesh.Indices);
    }
  }

  /** Both caps, returning the ids of the bottom and top centres. */
  method EmitCapPair(mesh: MeshData, trig: Trig, nslices: nat) returns (centerBottom: nat, centerTop: nat)
    requires mesh.Valid() && 0 < nslices
    requires mesh.vid + 2 * (nslices + 2) <= mesh.vertexCapacity && mesh.iid + 6 * nslices <= mesh.indices.Length
    modifies mesh`vid, mesh`cid, mesh`nid, mesh`tid, mesh`Vertices, mesh.coords, mesh.normals, mesh.texcoords,
             mesh`iid, mesh`Indices, mesh.indices
    ensures mesh.Valid() && centerBottom == old(mesh.vid) && centerTop == centerBottom + (nslices + 2)
    ensures mesh.vid == centerTop + (nslices + 2) && mesh.iid == old(mesh.iid) + 6 * nslices
    ensures mesh.Vertices == old(mesh.Vertices) + Cap(trig, nslices, 0.0, -1.0) + Cap(trig, nslices, 1.0, 1.0)
    ensures mesh.Indices == old(mesh.Indices) + Fan(centerBottom, centerBottom + 1, nslices) +
                                               ReverseFan(centerTop, centerTop + 1, nslices)
  {
    centerBottom := EmitBottomCap(mesh, trig, nslices);
    centerTop := EmitTopCap(mesh, trig, nslices);
  }

  /** The top cap: centre and rim at y = 1 with normal up, then its reversed
      fan, so that its triangles face up. */
  method EmitTopCap(mesh: MeshData, trig: Trig, nslices: nat) returns (center: nat)
    requires mesh.Valid() && 0 < nslices
    requires mesh.vid + (nslices + 2) <= mesh.vertexCapacity && mesh.iid + 3 * nslices <= mesh.indices.Length
    modifies mesh`vid, mesh`cid, mesh`nid, mesh`tid, mesh`Vertices, mesh.coords, mesh.normals, mesh.texcoords,
             mesh`iid, mesh`Indices, mesh.indices
    ensures mesh.Valid() && center == old(mesh.vid) && mesh.vid == center + (nslices + 2)
    ensures mesh.iid == old(mesh.iid) + 3 * nslices
    ensures mesh.Vertices == old(mesh.Vertices) + Cap(trig, nslices, 1.0, 1.0)
    ensures mesh.Indices == old(mesh.Indices) + ReverseFan(center, center + 1, nslices)
  {
    center := EmitCap(mesh, trig, nslices, 1.0, 1.0);
    EmitReverseFan(mesh, center, center + 1, nslices);
  }

  // ---------------------------------------------------------------------
  // The shape
  // ---------------------------------------------------------------------

  class Cylinder {
    const nslices: nat
    const nstacks: nat
    const withCaps: bool
    const disableCulling: bool
    /** The generated streams (uploaded to the GPU by the source). */
    const mesh: MeshData
    /** The number of indices Draw renders. */
    const nind: nat

    /** Computes the totals, allocates the streams, and fills them with the
        body, then the bottom and top caps if enabled. Every slot of every
        stream is written exactly once. The defaults are the source's: 32
        slices, one stack, caps on, culling left alone. */
    constructor (trig: Trig, nslices: nat := 32, nstacks: nat := 1, withCaps: bool := true, disableCulling: bool := false)
      requires 0 < nslices && 0 < nstacks
      ensures this.nslices == nslices && this.nstacks == nstacks
      ensures this.withCaps == withCaps && this.disableCulling == disableCulling
      ensures fresh(mesh) && fresh(mesh.coords) && fresh(mesh.normals) && fresh(mesh.texcoords) && fresh(mesh.indices)
      ensures mesh.Valid()
      ensures mesh.vertexCapacity == TotalVertices(nslices, nstacks, withCaps)
      ensures mesh.indices.Length == TotalIndices(nslices, nstacks, withCaps)
      ensures mesh.vid == mesh.vertexCapacity && mesh.iid == mesh.indices.Length
      ensures mesh.cid == 3 * mesh.vid && mesh.nid == 3 * mesh.vid && mesh.tid == 2 * mesh.vid
      ensures mesh.Vertices == CylinderVertices(trig, nslices, nstacks, withCaps)
      ensures mesh.Indices == CylinderIndices(nslices, nstacks, withCaps)
      ensures nind == TotalIndices(nslices, nstacks, withCaps)
    {
      this.nslices := nslices;
      this.nstacks := nstacks;
      this.withCaps := withCaps;
      this.disableCulling := disableCulling;
      var totalVertices := TotalVertices(nslices, nstacks, withCaps);
      var totalIndices := TotalIndices(nslices, nstacks, withCaps);
      var m := new MeshData(totalVertices, totalIndices);
      mesh := m;
      nind := m.indices.Length;
      EmitBody(m, trig, nslices, nstacks);
      EmitCaps(m, trig, nslices, withCaps);
    }

    /** Draws nind indices, with face culling suspended for this one call when
        disableCulling is set; the culling flag ends as it began. */
    method Draw(ctx: Gl.Context)
      requires ctx.Valid()
      modifies ctx
      ensures ctx.Valid() && ctx.cullFace == old(ctx.cullFace)
      ensures ctx.calls == old(ctx.calls) + DrawCalls(nind, disableCulling, old(ctx.cullFace))
    {
      DrawIndexed(ctx, nind, disableCulling);
    }
  }
}
