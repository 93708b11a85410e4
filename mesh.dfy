/** What the cylinder and cone generators share: the vertex record, the angle
    of a slice, the pre-sized attribute buffers with their write cursors, the
    flat cap (centre vertex, rim ring, triangle fan) and the culling-safe draw. */
module Mesh {
  import Gl

  /** math.pi */
  const Pi: real := 3.141592653589793

  datatype Vec3 = Vec3(x: real, y: real, z: real)
  datatype Vec2 = Vec2(u: real, v: real)

  /** One entry of the three attribute streams: position, normal, texcoord. */
  datatype Vertex = Vertex(pos: Vec3, normal: Vec3, tex: Vec2)

  /** math.cos and math.sin, which the model takes as given functions. */
  datatype Trig = Trig(cos: real -> real, sin: real -> real)

  /** cos and sin describe the unit circle. */
  ghost predicate UnitCircle(trig: Trig)
  {
    forall t :: trig.cos(t) * trig.cos(t) + trig.sin(t) * trig.sin(t) == 1.0
  }

  /** A full turn brings cos and sin back to their values at 0. */
  ghost predicate FullTurn(trig: Trig)
  {
    trig.cos(2.0 * Pi) == trig.cos(0.0) && trig.sin(2.0 * Pi) == trig.sin(0.0)
  }

  /** k / n as true (floating) division. */
  function Fraction(k: nat, n: nat): real
    requires 0 < n
  {
    k as real / n as real
  }

  /** A sample index within 0 .. n gives a fraction within [0, 1]. */
  lemma FractionInUnit(k: nat, n: nat)
    requires 0 < n && k <= n
    ensures 0.0 <= Fraction(k, n) <= 1.0
  {
    assert Fraction(k, n) * n as real == k as real;
  }

  /** The angle of sample `slice`: (slice / nslices) * 2 * pi. */
  function Theta(slice: nat, nslices: nat): (t: real)
    requires 0 < nslices
    ensures slice == 0 ==> t == 0.0
    ensures slice == nslices ==> t == 2.0 * Pi
  {
    Fraction(slice, nslices) * 2.0 * Pi
  }

  // ---------------------------------------------------------------------
  // Orientation: which side of a triangle its winding makes the front
  // ---------------------------------------------------------------------

  function Sub(p: Vec3, q: Vec3): Vec3
  {
    Vec3(p.x - q.x, p.y - q.y, p.z - q.z)
  }

  function Cross(p: Vec3, q: Vec3): Vec3
  {
    Vec3(p.y * q.z - p.z * q.y, p.z * q.x - p.x * q.z, p.x * q.y - p.y * q.x)
  }

  function Dot(p: Vec3, q: Vec3): real
  {
    p.x * q.x + p.y * q.y + p.z * q.z
  }

  /** The right-hand-rule normal of triangle (p0, p1, p2). With OpenGL's
      default counter-clockwise front face, the triangle is front-facing from
      the side this vector points to. */
  function FaceNormal(p0: Vec3, p1: Vec3, p2: Vec3): Vec3
  {
    Cross(Sub(p1, p0), Sub(p2, p0))
  }

  /** cos(t_i) sin(t_j) - sin(t_i) cos(t_j) for the angles of samples i =
      slice and j = slice + 1: the sine of the angular step. It is positive
      whenever a step is less than half a turn (nslices >= 3 for the true
      cos and sin); the orientation lemmas take this as a hypothesis. */
  function Step(trig: Trig, nslices: nat, slice: nat): real
    requires 0 < nslices
  {
    var ti := Theta(slice, nslices);
    var tj := Theta(slice + 1, nslices);
    trig.cos(ti) * trig.sin(tj) - trig.sin(ti) * trig.cos(tj)
  }

  lemma PositiveProduct(a: real, b: real)
    requires 0.0 < a && 0.0 < b
    ensures 0.0 < a * b
  {
  }

  /** A cap triangle [centre, rim_i, rim_j] at height y has face normal
      (0, -step, 0), pointing down when the step is positive; the reversed
      triangle [centre, rim_j, rim_i] has (0, step, 0), pointing up. */
  lemma CapTriangleNormal(y: real, ci: real, si: real, cj: real, sj: real)
    ensures FaceNormal(Vec3(0.0, y, 0.0), Vec3(ci, y, si), Vec3(cj, y, sj)) == Vec3(0.0, -(ci * sj - si * cj), 0.0)
    ensures FaceNormal(Vec3(0.0, y, 0.0), Vec3(cj, y, sj), Vec3(ci, y, si)) == Vec3(0.0, ci * sj - si * cj, 0.0)
  {
  }

  // ---------------------------------------------------------------------
  // Caps: a centre vertex and a ring of nslices + 1 rim vertices, flat normal
  // ---------------------------------------------------------------------

  function CapCenter(y: real, ny: real): Vertex
  {
    Vertex(Vec3(0.0, y, 0.0), Vec3(0.0, ny, 0.0), Vec2(0.5, 0.5))
  }

  /** Rim vertex `slice` of a cap at height y with normal (0, ny, 0); its
      texcoord is the circular projection of its position. */
  function CapRimVertex(trig: Trig, nslices: nat, slice: nat, y: real, ny: real): Vertex
    requires 0 < nslices
  {
    var x := trig.cos(Theta(slice, nslices));
    var z := trig.sin(Theta(slice, nslices));
    Vertex(Vec3(x, y, z), Vec3(0.0, ny, 0.0), Vec2(0.5 + 0.5 * x, 0.5 + 0.5 * z))
  }

  /** The first k rim vertices, in the order the rim loop writes them. */
  function CapRim(trig: Trig, nslices: nat, y: real, ny: real, k: nat): (r: seq<Vertex>)
    requires 0 < nslices
    ensures |r| == k
  {
    if k == 0 then []
    else CapRim(trig, nslices, y, ny, k - 1) + [CapRimVertex(trig, nslices, k - 1, y, ny)]
  }

  /** A whole cap: its centre followed by its nslices + 1 rim vertices. */
  function Cap(trig: Trig, nslices: nat, y: real, ny: real): (r: seq<Vertex>)
    requires 0 < nslices
    ensures |r| == nslices + 2
  {
    [CapCenter(y, ny)] + CapRim(trig, nslices, y, ny, nslices + 1)
  }

  lemma {:induction false} CapRimAt(trig: Trig, nslices: nat, y: real, ny: real, k: nat, i: nat)
    requires 0 < nslices && i < k
    ensures CapRim(trig, nslices, y, ny, k)[i] == CapRimVertex(trig, nslices, i, y, ny)
  {
    if i < k - 1 {
      CapRimAt(trig, nslices, y, ny, k - 1, i);
    }
  }

  /** The centre of a cap sits on the axis at its height with the cap's normal
      and texcoord (0.5, 0.5); every rim vertex shares the cap's normal and
      height, lies at angle Theta(i) and has the circular texcoord. */
  lemma CapAttributes(trig: Trig, nslices: nat, y: real, ny: real, i: nat)
    requires 0 < nslices && i <= nslices
    ensures var c := Cap(trig, nslices, y, ny)[0];
      c.pos == Vec3(0.0, y, 0.0) && c.normal == Vec3(0.0, ny, 0.0) && c.tex == Vec2(0.5, 0.5)
    ensures var r := Cap(trig, nslices, y, ny)[1 + i];
      var x := trig.cos(Theta(i, nslices));
      var z := trig.sin(Theta(i, nslices));
      r.pos == Vec3(x, y, z) && r.normal == Vec3(0.0, ny, 0.0) &&
      r.tex == Vec2(0.5 + 0.5 * x, 0.5 + 0.5 * z)
  {
    CapRimAt(trig, nslices, y, ny, nslices + 1, i);
  }

  // ---------------------------------------------------------------------
  // Triangle fans
  // ---------------------------------------------------------------------

  /** The triangles [center, first + i, first + i + 1] for i < k. */
  function Fan(center: nat, first: nat, k: nat): (r: seq<nat>)
    ensures |r| == 3 * k
  {
    if k == 0 then []
    else Fan(center, first, k - 1) + [center, first + (k - 1), first + (k - 1) + 1]
  }

  /** The triangles [center, first + i + 1, first + i] for i < k: the fan with
      the opposite winding. */
  function ReverseFan(center: nat, first: nat, k: nat): (r: seq<nat>)
    ensures |r| == 3 * k
  {
    if k == 0 then []
    else ReverseFan(center, first, k - 1) + [center, first + (k - 1) + 1, first + (k - 1)]
  }

  lemma {:induction false} FanAt(center: nat, first: nat, k: nat, i: nat)
    requires i < k
    ensures Fan(center, first, k)[3 * i..3 * i + 3] == [center, first + i, first + i + 1]
  {
    if i < k - 1 {
      FanAt(center, first, k - 1, i);
      assert Fan(center, first, k)[3 * i..3 * i + 3] == Fan(center, first, k - 1)[3 * i..3 * i + 3];
    } else {
      assert Fan(center, first, k)[3 * i..3 * i + 3] == [center, first + i, first + i + 1];
    }
  }

  lemma {:induction false} ReverseFanAt(center: nat, first: nat, k: nat, i: nat)
    requires i < k
    ensures ReverseFan(center, first, k)[3 * i..3 * i + 3] == [center, first + i + 1, first + i]
  {
    if i < k - 1 {
      ReverseFanAt(center, first, k - 1, i);
      assert ReverseFan(center, first, k)[3 * i..3 * i + 3] == ReverseFan(center, first, k - 1)[3 * i..3 * i + 3];
    } else {
      assert ReverseFan(center, first, k)[3 * i..3 * i + 3] == [center, first + i + 1, first + i];
    }
  }

  lemma AppendAssoc<T>(a: seq<T>, b: seq<T>, c: seq<T>)
    ensures a + b + c == a + (b + c)
  {
  }

  /** A window lying entirely in the right operand of a concatenation. */
  lemma SliceRight<T>(a: seq<T>, b: seq<T>, i: nat, j: nat)
    requires |a| <= i <= j <= |a| + |b|
    ensures (a + b)[i..j] == b[i - |a|..j - |a|]
  {
  }

  /** A window lying entirely in the left operand of a concatenation. */
  lemma SliceLeft<T>(a: seq<T>, b: seq<T>, i: nat, j: nat)
    requires i <= j <= |a|
    ensures (a + b)[i..j] == a[i..j]
  {
  }

  /** A window of a window is a window of the whole. */
  lemma SliceOfSlice<T>(s: seq<T>, a: nat, b: nat, i: nat, j: nat)
    requires a <= b <= |s| && i <= j <= b - a
    ensures s[a..b][i..j] == s[a + i..a + j]
  {
    forall k | 0 <= k < j - i
      ensures s[a..b][i..j][k] == s[a + i..a + j][k]
    {
      assert s[a..b][i..j][k] == s[a..b][i + k];
    }
  }

  /** A piece x of a slice all[b..e] is the matching slice of all. */
  lemma SliceThrough<T>(all: seq<T>, band: seq<T>, b: nat, e: nat, i: nat, j: nat, x: seq<T>)
    requires b <= e <= |all| && all[b..e] == band && i <= j <= |band| && band[i..j] == x
    ensures b + j <= |all| && all[b + i..b + j] == x
  {
    SliceOfSlice(all, b, e, i, j);
  }


  /** Every index in `s` names a vertex in lo .. hi - 1. */
  predicate Within(s: seq<nat>, lo: nat, hi: nat)
  {
    forall e :: e in s ==> lo <= e < hi
  }

  /** A fan touches only its centre and the rim vertices first .. first + k. */
  lemma {:induction false} FanBounds(center: nat, first: nat, k: nat)
    ensures forall e :: e in Fan(center, first, k) ==> e == center || first <= e <= first + k
  {
    if k > 0 {
      FanBounds(center, first, k - 1);
    }
  }

  lemma {:induction false} ReverseFanBounds(center: nat, first: nat, k: nat)
    ensures forall e :: e in ReverseFan(center, first, k) ==> e == center || first <= e <= first + k
  {
    if k > 0 {
      ReverseFanBounds(center, first, k - 1);
    }
  }

  // ---------------------------------------------------------------------
  // The flat layout of the attribute streams
  // ---------------------------------------------------------------------

  /** The coords stream of a vertex list: x, y, z of each position in turn. */
  function PositionsOf(vs: seq<Vertex>): (r: seq<real>)
    ensures |r| == 3 * |vs|
  {
    if vs == [] then []
    else
      var p := vs[|vs| - 1].pos;
      PositionsOf(vs[..|vs| - 1]) + [p.x, p.y, p.z]
  }

  /** The normals stream: x, y, z of each normal in turn. */
  function NormalsOf(vs: seq<Vertex>): (r: seq<real>)
    ensures |r| == 3 * |vs|
  {
    if vs == [] then []
    else
      var n := vs[|vs| - 1].normal;
      NormalsOf(vs[..|vs| - 1]) + [n.x, n.y, n.z]
  }

  /** The texcoords stream: u, v of each texcoord in turn. */
  function TexcoordsOf(vs: seq<Vertex>): (r: seq<real>)
    ensures |r| == 2 * |vs|
  {
    if vs == [] then []
    else
      var t := vs[|vs| - 1].tex;
      TexcoordsOf(vs[..|vs| - 1]) + [t.u, t.v]
  }

  /** Vertex k's attributes sit at slots 3k .. 3k+2 of coords and normals and
      at slots 2k .. 2k+1 of texcoords: each stream stays in step with vid. */
  lemma {:induction false} StreamsAt(vs: seq<Vertex>, k: nat)
    requires k < |vs|
    ensures PositionsOf(vs)[3 * k..3 * k + 3] == [vs[k].pos.x, vs[k].pos.y, vs[k].pos.z]
    ensures NormalsOf(vs)[3 * k..3 * k + 3] == [vs[k].normal.x, vs[k].normal.y, vs[k].normal.z]
    ensures TexcoordsOf(vs)[2 * k..2 * k + 2] == [vs[k].tex.u, vs[k].tex.v]
  {
    var init := vs[..|vs| - 1];
    if k < |vs| - 1 {
      StreamsAt(init, k);
      assert init[k] == vs[k];
      assert PositionsOf(vs)[3 * k..3 * k + 3] == PositionsOf(init)[3 * k..3 * k + 3];
      assert NormalsOf(vs)[3 * k..3 * k + 3] == NormalsOf(init)[3 * k..3 * k + 3];
      assert TexcoordsOf(vs)[2 * k..2 * k + 2] == TexcoordsOf(init)[2 * k..2 * k + 2];
    } else {
      assert PositionsOf(vs)[3 * k..3 * k + 3] == [vs[k].pos.x, vs[k].pos.y, vs[k].pos.z];
      assert NormalsOf(vs)[3 * k..3 * k + 3] == [vs[k].normal.x, vs[k].normal.y, vs[k].normal.z];
      assert TexcoordsOf(vs)[2 * k..2 * k + 2] == [vs[k].tex.u, vs[k].tex.v];
    }
  }

  // ---------------------------------------------------------------------
  // The attribute buffers and their cursors
  // ---------------------------------------------------------------------

  /** a[i:i+3] = x, y, z */
  method WriteTriple(a: array<real>, i: nat, x: real, y: real, z: real)
    requires i + 3 <= a.Length
    modifies a
    ensures a[..i + 3] == old(a[..i]) + [x, y, z]
  {
    a[i], a[i + 1], a[i + 2] := x, y, z;
  }

  /** a[i:i+2] = u, v */
  method WritePair(a: array<real>, i: nat, u: real, v: real)
    requires i + 2 <= a.Length
    modifies a
    ensures a[..i + 2] == old(a[..i]) + [u, v]
  {
    a[i], a[i + 1] := u, v;
  }

  /** The flat arrays a generator fills: coords and normals (3 reals per
      vertex), texcoords (2 per vertex) and indices, with the cursors vid,
      cid, nid, tid and iid. `Vertices` is the vertex list the attribute
      arrays hold and `Indices` the index list written so far. */
  class MeshData {
    const vertexCapacity: nat
    const coords: array<real>
    const normals: array<real>
    const texcoords: array<real>
    const indices: array<nat>
    var vid: nat
    var cid: nat
    var nid: nat
    var tid: nat
    var iid: nat
    ghost var Vertices: seq<Vertex>
    ghost var Indices: seq<nat>

    ghost predicate Valid()
      reads this, coords, normals, texcoords, indices
    {
      coords != normals && coords != texcoords && normals != texcoords &&
      coords.Length == 3 * vertexCapacity && normals.Length == 3 * vertexCapacity &&
      texcoords.Length == 2 * vertexCapacity &&
      vid <= vertexCapacity && iid <= indices.Length &&
      cid == 3 * vid && nid == 3 * vid && tid == 2 * vid &&
      |Vertices| == vid &&
      coords[..cid] == PositionsOf(Vertices) &&
      normals[..nid] == NormalsOf(Vertices) &&
      texcoords[..tid] == TexcoordsOf(Vertices) &&
      |Indices| == iid && indices[..iid] == Indices
    }

    /** np.empty of the pre-computed sizes, cursors at 0. */
    constructor (vertexCapacity: nat, indexCapacity: nat)
      ensures Valid()
      ensures fresh(coords) && fresh(normals) && fresh(texcoords) && fresh(indices)
      ensures this.vertexCapacity == vertexCapacity && indices.Length == indexCapacity
      ensures vid == 0 && iid == 0 && Vertices == [] && Indices == []
    {
      this.vertexCapacity := vertexCapacity;
      coords := new real[3 * vertexCapacity];
      normals := new real[3 * vertexCapacity];
      texcoords := new real[2 * vertexCapacity];
      indices := new nat[indexCapacity];
      vid, cid, nid, tid, iid := 0, 0, 0, 0, 0;
      Vertices, Indices := [], [];
    }

    /** coords[cid:cid+3], normals[nid:nid+3], texcoords[tid:tid+2] := v,
        then every vertex cursor advances. */
    method PutVertex(v: Vertex)
      requires Valid() && vid < vertexCapacity
      modifies this`vid, this`cid, this`nid, this`tid, this`Vertices, coords, normals, texcoords
      ensures Valid()
      ensures Vertices == old(Vertices) + [v] && vid == old(vid) + 1
    {
      WriteTriple(coords, cid, v.pos.x, v.pos.y, v.pos.z);
      cid := cid + 3;
      WriteTriple(normals, nid, v.normal.x, v.normal.y, v.normal.z);
      nid := nid + 3;
      WritePair(texcoords, tid, v.tex.u, v.tex.v);
      tid := tid + 2;
      assert (Vertices + [v])[..|Vertices|] == Vertices;
      Vertices := Vertices + [v];
      vid := vid + 1;
    }

    /** indices[iid:iid+3] := [a, b, c]; iid advances by 3. */
    method PutTriangle(a: nat, b: nat, c: nat)
      requires Valid() && iid + 3 <= indices.Length
      modifies this`iid, this`Indices, indices
      ensures Valid()
      ensures Indices == old(Indices) + [a, b, c] && iid == old(iid) + 3
    {
      indices[iid], indices[iid + 1], indices[iid + 2] := a, b, c;
      iid := iid + 3;
      assert indices[..iid] == old(indices[..iid]) + [a, b, c];
      Indices := Indices + [a, b, c];
    }
  }

  // ---------------------------------------------------------------------
  // The generator steps both shapes share
  // ---------------------------------------------------------------------

  /** Writes one cap: the centre vertex, then the rim loop over nslices + 1
      samples. Returns the centre's vertex id (base_vid in the source). */
  method EmitCap(mesh: MeshData, trig: Trig, nslices: nat, y: real, ny: real) returns (center: nat)
    requires mesh.Valid() && 0 < nslices && mesh.vid + nslices + 2 <= mesh.vertexCapacity
    modifies mesh`vid, mesh`cid, mesh`nid, mesh`tid, mesh`Vertices, mesh.coords, mesh.normals, mesh.texcoords
    ensures mesh.Valid() && center == old(mesh.vid) && mesh.vid == center + (nslices + 2)
    ensures mesh.Vertices == old(mesh.Vertices) + Cap(trig, nslices, y, ny)
  {
    center := mesh.vid;
    mesh.PutVertex(Vertex(Vec3(0.0, y, 0.0), Vec3(0.0, ny, 0.0), Vec2(0.5, 0.5)));
    ghost var start := mesh.Vertices;
    var slice := 0;
    while slice < nslices + 1
      invariant 0 <= slice <= nslices + 1
      invariant mesh.Valid() && mesh.vid == center + 1 + slice
      invariant mesh.Vertices == start + CapRim(trig, nslices, y, ny, slice)
    {
      EmitCapRimVertex(mesh, trig, nslices, slice, y, ny);
      assert CapRim(trig, nslices, y, ny, slice + 1) ==
             CapRim(trig, nslices, y, ny, slice) + [CapRimVertex(trig, nslices, slice, y, ny)];
      AppendAssoc(start, CapRim(trig, nslices, y, ny, slice), [CapRimVertex(trig, nslices, slice, y, ny)]);
      slice := slice + 1;
    }
    AppendAssoc(old(mesh.Vertices), [CapCenter(y, ny)], CapRim(trig, nslices, y, ny, nslices + 1));
  }

  /** One pass of the rim loop: the vertex at angle `slice` of the cap's circle. */
  method EmitCapRimVertex(mesh: MeshData, trig: Trig, nslices: nat, slice: nat, y: real, ny: real)
    requires mesh.Valid() && 0 < nslices && mesh.vid < mesh.vertexCapacity
    modifies mesh`vid, mesh`cid, mesh`nid, mesh`tid, mesh`Vertices, mesh.coords, mesh.normals, mesh.texcoords
    ensures mesh.Valid() && mesh.vid == old(mesh.vid) + 1
    ensures mesh.Vertices == old(mesh.Vertices) + [CapRimVertex(trig, nslices, slice, y, ny)]
  {
    var theta := Theta(slice, nslices);
    var x := trig.cos(theta);
    var z := trig.sin(theta);
    var u := 0.5 + 0.5 * x;
    var v := 0.5 + 0.5 * z;
    mesh.PutVertex(Vertex(Vec3(x, y, z), Vec3(0.0, ny, 0.0), Vec2(u, v)));
  }

  /** The fan loop: for slice < nslices emit [center, first + slice, first + slice + 1]. */
  method EmitFan(mesh: MeshData, center: nat, first: nat, nslices: nat)
    requires mesh.Valid() && mesh.iid + 3 * nslices <= mesh.indices.Length
    modifies mesh`iid, mesh`Indices, mesh.indices
    ensures mesh.Valid()
    ensures mesh.Indices == old(mesh.Indices) + Fan(center, first, nslices)
  {
    var slice := 0;
    while slice < nslices
      invariant 0 <= slice <= nslices
      invariant mesh.Valid()
      invariant mesh.Indices == old(mesh.Indices) + Fan(center, first, slice)
    {
      var v0 := center;
      var v1 := first + slice;
      var v2 := first + slice + 1;
      mesh.PutTriangle(v0, v1, v2);
      slice := slice + 1;
    }
  }

  /** The reversed fan loop: for slice < nslices emit [center, first + slice + 1, first + slice]. */
  method EmitReverseFan(mesh: MeshData, center: nat, first: nat, nslices: nat)
    requires mesh.Valid() && mesh.iid + 3 * nslices <= mesh.indices.Length
    modifies mesh`iid, mesh`Indices, mesh.indices
    ensures mesh.Valid()
    ensures mesh.Indices == old(mesh.Indices) + ReverseFan(center, first, nslices)
  {
    var slice := 0;
    while slice < nslices
      invariant 0 <= slice <= nslices
      invariant mesh.Valid()
      invariant mesh.Indices == old(mesh.Indices) + ReverseFan(center, first, slice)
    {
      var v0 := center;
      var v1 := first + slice;
      var v2 := first + slice + 1;
      mesh.PutTriangle(v0, v2, v1);
      slice := slice + 1;
    }
  }

  /** A bottom disc, as both shapes write theirs: centre and rim at y = 0 with
      normal down, then the fan [center, center + 1 + slice, center + 2 + slice]. */
  method EmitBottomCap(mesh: MeshData, trig: Trig, nslices: nat) returns (center: nat)
    requires mesh.Valid() && 0 < nslices
    requires mesh.vid + (nslices + 2) <= mesh.vertexCapacity && mesh.iid + 3 * nslices <= mesh.indices.Length
    modifies mesh`vid, mesh`cid, mesh`nid, mesh`tid, mesh`Vertices, mesh.coords, mesh.normals, mesh.texcoords,
             mesh`iid, mesh`Indices, mesh.indices
    ensures mesh.Valid() && center == old(mesh.vid) && mesh.vid == center + (nslices + 2)
    ensures mesh.iid == old(mesh.iid) + 3 * nslices
    ensures mesh.Vertices == old(mesh.Vertices) + Cap(trig, nslices, 0.0, -1.0)
    ensures mesh.Indices == old(mesh.Indices) + Fan(center, center + 1, nslices)
  {
    center := EmitCap(mesh, trig, nslices, 0.0, -1.0);
    EmitFan(mesh, center, center + 1, nslices);
  }

  // ---------------------------------------------------------------------
  // Drawing with the culling override
  // ---------------------------------------------------------------------

  /** The calls Draw issues: culling is switched off around the draw call only
      when the shape asks for it and culling was on. */
  function DrawCalls(count: nat, disableCulling: bool, wasEnabled: bool): seq<Gl.Call>
  {
    if disableCulling && wasEnabled
    then [Gl.DisableCullFace, Gl.DrawTriangles(count, false), Gl.EnableCullFace]
    else [Gl.DrawTriangles(count, wasEnabled)]
  }

  /** Draw leaves the culling flag as it found it, draws exactly `count`
      indices once (one draw call, and no other), and culls during that draw
      exactly when culling was on and the shape does not disable it; culling
      is disabled and re-enabled exactly when the shape asks for it and it
      was on. */
  lemma DrawRestoresCulling(count: nat, disableCulling: bool, wasEnabled: bool)
    ensures Gl.CullingAfter(wasEnabled, DrawCalls(count, disableCulling, wasEnabled)) == wasEnabled
    ensures Gl.DrawTriangles(count, wasEnabled && !disableCulling) in DrawCalls(count, disableCulling, wasEnabled)
    ensures forall c :: c in DrawCalls(count, disableCulling, wasEnabled) && c.DrawTriangles? ==>
      c == Gl.DrawTriangles(count, wasEnabled && !disableCulling)
    ensures multiset(DrawCalls(count, disableCulling, wasEnabled))[Gl.DrawTriangles(count, wasEnabled && !disableCulling)] == 1
    ensures (Gl.DisableCullFace in DrawCalls(count, disableCulling, wasEnabled)) == (disableCulling && wasEnabled)
    ensures (Gl.EnableCullFace in DrawCalls(count, disableCulling, wasEnabled)) == (disableCulling && wasEnabled)
  {
    var calls := DrawCalls(count, disableCulling, wasEnabled);
    if disableCulling && wasEnabled {
      assert calls[1..] == [Gl.DrawTriangles(count, false), Gl.EnableCullFace];
      assert calls[1..][1..] == [Gl.EnableCullFace];
      assert Gl.CullingAfter(true, [Gl.EnableCullFace]) == true;
      assert Gl.CullingAfter(false, calls[1..]) == true;
    }
  }

  /** The body of Draw: query the flag, disable if asked, draw, restore. */
  method DrawIndexed(ctx: Gl.Context, count: nat, disableCulling: bool)
    requires ctx.Valid()
    modifies ctx
    ensures ctx.Valid() && ctx.cullFace == old(ctx.cullFace)
    ensures ctx.calls == old(ctx.calls) + DrawCalls(count, disableCulling, old(ctx.cullFace))
  {
    var cullingWasEnabled := ctx.IsCullFaceEnabled();
    if disableCulling && cullingWasEnabled {
      ctx.DisableCullFace();
    }
    ctx.DrawElements(count);
    if disableCulling && cullingWasEnabled {
      ctx.EnableCullFace();
    }
  }
}
