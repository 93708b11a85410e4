# Cylinder and cone mesh generators

A Dafny model of the two procedural mesh generators of a small OpenGL scene: `Cylinder` and `Cone`. Each builds a surface of revolution around the Y axis with radius 1 and height 1.

Each constructor works the same way:

1. It computes the vertex and index totals in advance.
2. It allocates flat arrays of those sizes: `coords` and `normals` hold 3 values per vertex, `texcoords` holds 2, alongside an `indices` array.
3. Its loops fill the arrays in place and advance the cursors `vid`, `cid`, `nid`, `tid` and `iid`.
4. It sets `nind`, the number of indices `Draw` renders.

`Draw` renders the indices and can switch face culling off for that call. It then restores the culling flag.

The model is split into four modules.

- `Gl` (`gl.dfy`) holds the piece of OpenGL state the shapes touch, as a class `Context`:
  - the `GL_CULL_FACE` flag;
  - a log of the `glDisable`/`glEnable`/`glDrawElements` calls made.
- `Mesh` (`mesh.dfy`) holds what both shapes share:
  - the vertex record and the slice angle `Theta`;
  - the class `MeshData`, which owns the four arrays and the five cursors. Its invariant `Valid()` says:
    - `cid == nid == 3 * vid` and `tid == 2 * vid`;
    - the written prefixes of the arrays are exactly the flat layout of the ghost vertex list `Vertices` and the ghost index list `Indices`;
  - the flat cap (centre, rim ring, triangle fan) with its loops;
  - the culling-safe draw routine;
  - the vector algebra used to state triangle orientation.
- `CylinderMesh` (`cylinder.dfy`) and `ConeMesh` (`cone.dfy`) each contain:
  - specification functions. They give the vertex list and the index list each generator writes, in loop order. For the cone there are two index lists: `SourceConeIndices`, the list the source writes, and `ConeIndices`, the list with the side fan's winding corrected (see "## Findings");
  - methods with the source's loops. Each method is proved to write exactly its part of those lists. The cone's side fan loop writes the corrected winding;
  - lemmas about the lists: vertex ids, attribute values, seams, index ranges, quad and fan patterns, and orientation;
  - the class itself. Its constructor ensures the buffers are full: `vid` and `iid` reach the totals, and the streams hold exactly the specified lists. `nind` is the index total. The constructor parameters have the same default values as the source's.

`math.cos`, `math.sin` and `math.sqrt` are parameters of the model:

- the `Trig` record stands for cos and sin, and `sqrt` is a plain function argument;
- lemmas that need their mathematical properties take them as hypotheses: `UnitCircle`, `FullTurn`, `IsSqrt`, and a positive angular step `Step`.

## Model

| member | source | states |
|---|---|---|
| `Gl.Context.IsCullFaceEnabled` | src/cylinder.py:226 | returns the current culling flag |
| `Gl.Context.DisableCullFace` | src/cylinder.py:228 | the flag becomes false and the call is logged; the flag always equals what the logged calls make of the initial flag |
| `Gl.Context.EnableCullFace` | src/cylinder.py:236 | the flag becomes true and the call is logged |
| `Gl.Context.DrawElements` | src/cylinder.py:231 | logs one draw of `count` indices together with the culling flag in force; the flag is unchanged |
| `Gl.CullingAfter` | src/cylinder.py:226-236 | the culling flag after a sequence of calls: a disable clears it, an enable sets it, a draw leaves it |
| `Gl.Context.constructor` | src/cylinder.py:226 | a context whose flag is the given initial flag, with no calls logged |
| `Gl.CullingAfterAppend` | src/cylinder.py:226-236 | the flag after one more call is false after a disable, true after an enable, and unchanged after a draw |
| `Mesh.Fraction` | src/cylinder.py:68-73 | `slice / nslices` or `stack / nstacks` as a real, the texture coordinate and the angle's fraction of a turn |
| `Mesh.Theta` | src/cylinder.py:72 | the first sample's angle is 0 and the last sample's (slice = nslices) is 2 pi |
| `Mesh.FractionInUnit` | src/cylinder.py:68 | `stack / nstacks` with stack <= nstacks lies in [0, 1] |
| `Mesh.CapCenter` | src/cylinder.py:113-121 | the centre vertex of a cap at height y: position (0, y, 0), normal (0, ny, 0), texcoord (0.5, 0.5) |
| `Mesh.CapRimVertex` | src/cylinder.py:124-136 | rim vertex `slice` of a cap: position (cos, y, sin) of Theta(slice), the cap normal, texcoord (0.5 + 0.5x, 0.5 + 0.5z) |
| `Mesh.CapRim` | src/cylinder.py:124-138 | the rim loop writes exactly k vertices after k passes |
| `Mesh.Cap` | src/cylinder.py:113-138 | a cap is its centre followed by nslices + 1 rim vertices: nslices + 2 in all |
| `Mesh.CapRimAt` | src/cylinder.py:124-138 | rim entry i is the vertex the loop computes for slice i |
| `Mesh.CapAttributes` | src/cylinder.py:113-138 | the centre is at (0, y, 0) with the cap normal and texcoord (0.5, 0.5); rim vertex i is at (cos, y, sin) of Theta(i), with the cap normal and the circular texcoord (0.5 + 0.5x, 0.5 + 0.5z) |
| `Mesh.Fan` | src/cylinder.py:141-146 | a fan over k slices holds 3k indices |
| `Mesh.ReverseFan` | src/cylinder.py:179-188 | a reversed fan over k slices holds 3k indices |
| `Mesh.FanAt` | src/cylinder.py:141-146 | fan triangle i is [center, first + i, first + i + 1] at slots 3i .. 3i + 2 |
| `Mesh.ReverseFanAt` | src/cylinder.py:179-188 | reversed fan triangle i is [center, first + i + 1, first + i] at slots 3i .. 3i + 2 |
| `Mesh.FanBounds` | src/cylinder.py:141-146 | a fan uses only its centre and the rim ids first .. first + k |
| `Mesh.ReverseFanBounds` | src/cylinder.py:179-188 | a reversed fan uses only its centre and the rim ids first .. first + k |
| `Mesh.CapTriangleNormal` | src/cylinder.py:141-146 | a cap triangle [centre, rim_i, rim_j] has face normal (0, -step, 0), and the reversed one has (0, step, 0) |
| `Mesh.PositionsOf` | src/cylinder.py:78-79 | the coords stream holds 3 values per vertex |
| `Mesh.NormalsOf` | src/cylinder.py:82-83 | the normals stream holds 3 values per vertex |
| `Mesh.TexcoordsOf` | src/cylinder.py:86-87 | the texcoords stream holds 2 values per vertex |
| `Mesh.StreamsAt` | src/cylinder.py:78-89 | vertex k's position and normal sit at slots 3k .. 3k + 2 of their streams, and its texcoord at slots 2k .. 2k + 1 |
| `Mesh.WriteTriple` | src/cylinder.py:78 | a three-slot slice assignment extends the written prefix by exactly those three values |
| `Mesh.WritePair` | src/cylinder.py:86 | a two-slot slice assignment extends the written prefix by exactly those two values |
| `Mesh.MeshData.constructor` | src/cylinder.py:55-64 | allocates four fresh arrays sized 3, 3 and 2 per vertex plus the index total; all cursors start at 0 and nothing is written yet |
| `Mesh.MeshData.PutVertex` | src/cylinder.py:78-89 | writes one vertex's 3 + 3 + 2 attributes at the cursors; the vertex list grows by exactly that vertex, and every cursor keeps its ratio to vid |
| `Mesh.MeshData.PutTriangle` | src/cylinder.py:101-102 | writes three indices at iid; the index list grows by exactly them |
| `Mesh.EmitCap` | src/cylinder.py:110-138 | returns the centre's id (the vid before the call); the vertex list grows by exactly that cap's nslices + 2 vertices |
| `Mesh.EmitCapRimVertex` | src/cylinder.py:125-138 | one rim pass appends exactly rim vertex `slice` |
| `Mesh.EmitFan` | src/cylinder.py:141-146 | the index list grows by exactly the fan around `center` |
| `Mesh.EmitReverseFan` | src/cylinder.py:179-188 | the index list grows by exactly the reversed fan around `center` |
| `Mesh.EmitBottomCap` | src/cylinder.py:109-146 | appends the bottom cap (y = 0, normal down) and then its fan around the returned centre; vid and iid advance by nslices + 2 and 3 * nslices. The cone's base (src/cone.py:109-145) is the same code |
| `Mesh.DrawCalls` | src/cylinder.py:226-236 | the calls `Draw` makes: disable, draw unculled, enable when disable_culling is set and culling was on; otherwise one draw with the flag in force |
| `Mesh.DrawRestoresCulling` | src/cylinder.py:226-236 | after the calls `Draw` makes, the flag equals its value before. Exactly one draw of `count` indices is made (it occurs once, and every draw call is that one), culled exactly when culling was on and the shape does not disable it. Culling is disabled, and re-enabled, iff disable_culling is set and culling was on |
| `Mesh.DrawIndexed` | src/cylinder.py:226-236 | issues exactly the calls `DrawCalls` names and leaves the flag as it found it |
| `CylinderMesh.BodyVertexCount` | src/cylinder.py:38 | body_vertices = (nstacks + 1)(nslices + 1) |
| `CylinderMesh.TotalVertices` | src/cylinder.py:42-50 | total_vertices: the body vertices plus 2 (1 + nslices + 1) with caps |
| `CylinderMesh.TotalIndices` | src/cylinder.py:39-53 | total_indices: nstacks nslices 6 plus 2 nslices 3 with caps |
| `CylinderMesh.BodyVertex` | src/cylinder.py:72-89 | body vertex (stack, slice): position (cos, stack / nstacks, sin) of Theta(slice), normal (x, 0, z), texcoord (slice / nslices, stack / nstacks) |
| `CylinderMesh.Quad` | src/cylinder.py:95-106 | the two triangles [v0, v2, v1] and [v1, v2, v3] of quad (stack, slice) |
| `CylinderMesh.BodyRow` | src/cylinder.py:71-89 | after k passes the inner vertex loop has written k vertices |
| `CylinderMesh.BodyGrid` | src/cylinder.py:67-89 | `rows` body rows hold rows * (nslices + 1) vertices |
| `CylinderMesh.CylinderVertices` | src/cylinder.py:39-51 | the whole vertex list has exactly total_vertices entries: (nstacks + 1)(nslices + 1), plus 2(nslices + 2) with caps |
| `CylinderMesh.CapsVertices` | src/cylinder.py:45-47 | the caps add 2 * (1 + nslices + 1) vertices, or none without caps |
| `CylinderMesh.QuadRow` | src/cylinder.py:93-106 | k quads hold 6k indices |
| `CylinderMesh.QuadGrid` | src/cylinder.py:92-106 | the body quads of `rows` bands hold rows * nslices * 6 indices |
| `CylinderMesh.CylinderIndices` | src/cylinder.py:40-53 | the whole index list has exactly total_indices entries: 6 nstacks nslices, plus 6 nslices with caps |
| `CylinderMesh.CapsIndices` | src/cylinder.py:49 | the cap fans add 2 * nslices * 3 indices, or none without caps |
| `CylinderMesh.BodyRowAt` | src/cylinder.py:71-89 | entry i of a row is the vertex the loop computes for slice i |
| `CylinderMesh.BodyGridAt` | src/cylinder.py:67-89 | vertex (stack, slice) is at id stack * (nslices + 1) + slice |
| `CylinderMesh.CylinderBodyAt` | src/cylinder.py:67-89 | vertex id stack * (nslices + 1) + slice lies in the body and holds body vertex (stack, slice) |
| `CylinderMesh.CylinderBodyVertex` | src/cylinder.py:67-89 | that vertex is at (cos, stack / nstacks, sin) of Theta(slice), has the radial normal (x, 0, z) with zero y, and texcoord (slice / nslices, stack / nstacks) |
| `CylinderMesh.CylinderSeam` | src/cylinder.py:71-86 | the first and last vertex of each row have u = 0 and u = 1, the same v, and sit at angles 0 and 2 pi; when a full turn returns cos and sin to their start values, the two share position and normal |
| `CylinderMesh.CylinderCapVertices` | src/cylinder.py:113-176 | with caps, the bottom centre is ((0,0,0), (0,-1,0), (0.5,0.5)) and the top centre is ((0,1,0), (0,1,0), (0.5,0.5)). The rim vertices share their cap's normal, lie at y = 0 or y = 1, and carry the circular texcoord |
| `CylinderMesh.CylinderOnUnitSurface` | src/cylinder.py:67-82 | for the true cos and sin, every body vertex lies on x^2 + z^2 = 1 with 0 <= y <= 1, and its normal has length 1 |
| `CylinderMesh.QuadRowAt` | src/cylinder.py:93-106 | quad `slice` of a band sits at slots 6 slice .. 6 slice + 5 of the band |
| `CylinderMesh.QuadGridPrefix` | src/cylinder.py:92-106 | the quads of the first k bands are a prefix of the quads of more bands |
| `CylinderMesh.QuadGridBand` | src/cylinder.py:92-106 | band `stack` directly follows the bands before it |
| `CylinderMesh.QuadGridAt` | src/cylinder.py:92-106 | quad (stack, slice) follows the earlier bands and the earlier quads of its band |
| `CylinderMesh.QuadRowBounds` | src/cylinder.py:95-106 | a band's indices stay below the end of the row above it |
| `CylinderMesh.QuadGridBounds` | src/cylinder.py:92-106 | the quads of `rows` bands use only the ids of rows + 1 rows |
| `CylinderMesh.CylinderQuad` | src/cylinder.py:95-106 | body quad (stack, slice) occupies slots 6 (stack nslices + slice) onwards. It is [v0, v2, v1, v1, v2, v3], with v0 = stack (nslices + 1) + slice, v1 = v0 + 1, v2 = v0 + nslices + 1 and v3 = v2 + 1 |
| `CylinderMesh.CapsFanAt` | src/cylinder.py:141-188 | bottom fan triangle i is [bottom, bottom + 1 + i, bottom + 2 + i]; the top fan's is reversed, [top, top + 2 + i, top + 1 + i]. The two caps have opposite winding |
| `CylinderMesh.CylinderCapFans` | src/cylinder.py:140-188 | with caps, the slots after the body quads hold exactly the bottom fan followed by the reversed top fan |
| `CylinderMesh.CylinderIndicesInRange` | src/cylinder.py:95-188 | every index is below the vertex total, the body quads stay inside the body grid, and each cap fan stays inside its own block of nslices + 2 vertices |
| `CylinderMesh.QuadTriangleNormals` | src/cylinder.py:100-106 | the two triangles of a quad have face normals whose dot product with the radial normal is (y1 - y0) times the step's sine |
| `CylinderMesh.BodyQuadFacesOutward` | src/cylinder.py:95-106 | each quad's two triangles face the way their stored normals point, when the angular step is positive |
| `CylinderMesh.CylinderQuadFacesOutward` | src/cylinder.py:95-106 | each quad's two triangles, taken with the vertex ids at their slots, face the way their vertices' stored normals point (outwards) |
| `CylinderMesh.CylinderCapsFaceOutward` | src/cylinder.py:141-188 | the bottom fan faces down and the reversed top fan faces up: each faces the way its cap's normal points |
| `CylinderMesh.EmitBodyVertices` | src/cylinder.py:67-89 | the outer vertex loop writes exactly the body grid, and vid ends at (nstacks + 1)(nslices + 1) |
| `CylinderMesh.EmitBodyRow` | src/cylinder.py:71-89 | the inner vertex loop appends exactly row `stack` |
| `CylinderMesh.EmitBodyVertex` | src/cylinder.py:72-89 | one inner pass appends exactly body vertex (stack, slice) |
| `CylinderMesh.EmitBodyIndices` | src/cylinder.py:92-106 | the body index loops write exactly the quad list |
| `CylinderMesh.EmitBand` | src/cylinder.py:93-106 | the inner index loop appends exactly the quads of band `stack`, two triangles per pass |
| `CylinderMesh.EmitBody` | src/cylinder.py:66-106 | the body loops leave vid at the body vertex total and iid at the body index total, having written exactly the body grid and the quad list |
| `CylinderMesh.EmitCaps` | src/cylinder.py:108-188 | with caps, appends exactly both caps and their fans, and without caps changes nothing; afterwards vid and iid equal the totals |
| `CylinderMesh.EmitCapPair` | src/cylinder.py:109-188 | returns the bottom and top centre ids, nslices + 2 apart; appends exactly both caps and their fans |
| `CylinderMesh.EmitTopCap` | src/cylinder.py:148-188 | appends the top cap (y = 1, normal up) and then its reversed fan around the returned centre |
| `CylinderMesh.Cylinder.constructor` | src/cylinder.py:25-190 | takes the source's defaults (32 slices, 1 stack, caps on, culling not disabled); stores the parameters and allocates the streams at the computed totals. Every slot ends written exactly once: vid and iid equal the totals and cid = nid = 3 vid, tid = 2 vid. The streams hold exactly `CylinderVertices` and `CylinderIndices`, and nind is the index total |
| `CylinderMesh.Cylinder.Draw` | src/cylinder.py:223-236 | issues `DrawCalls(nind, disableCulling, flag before)` and leaves the culling flag as it found it |
| `ConeMesh.TotalVertices` | src/cone.py:36-46 | total_vertices: 1 + (nslices + 1), plus 1 + (nslices + 1) with the base |
| `ConeMesh.TotalIndices` | src/cone.py:37-47 | total_indices: nslices 3, plus nslices 3 with the base |
| `ConeMesh.Apex` | src/cone.py:63-72 | the apex: position (0, 1, 0), normal (0, 1, 0), texcoord (0.5, 1) |
| `ConeMesh.LateralVertex` | src/cone.py:77-98 | side vertex `slice`: position (cos, 0, sin) of Theta(slice), normal (x, 1, z) divided by its length, texcoord (slice / nslices, 0) |
| `ConeMesh.SlantLength` | src/cone.py:89-92 | the length sqrt(nx^2 + 1 + nz^2) of the side normal is positive and squares to its argument |
| `ConeMesh.LateralRing` | src/cone.py:76-98 | after k passes the side loop has written k vertices |
| `ConeMesh.BaseVertices` | src/cone.py:109-137 | the base adds 1 + (nslices + 1) vertices, or none without it |
| `ConeMesh.ConeVertices` | src/cone.py:36-46 | the whole vertex list has exactly total_vertices entries: nslices + 2, plus nslices + 2 with the base |
| `ConeMesh.BaseIndices` | src/cone.py:139-145 | the base fan adds nslices * 3 indices, or none without the base |
| `ConeMesh.SourceConeIndices` | src/cone.py:100-145 | the index list as written has exactly total_indices entries: 3 nslices, plus 3 nslices with the base |
| `ConeMesh.ConeIndices` | src/cone.py:37-47 | the corrected index list has the same length, the computed total |
| `ConeMesh.LateralRingAt` | src/cone.py:76-98 | entry i of the side ring is the vertex the loop computes for slice i |
| `ConeMesh.ConeSideAt` | src/cone.py:71-98 | side vertex `slice` has id 1 + slice, right after the apex |
| `ConeMesh.SlantNormalDirection` | src/cone.py:89-93 | the side normal is the positive multiple 1 / length of (x, 1, z) |
| `ConeMesh.ConeBodyVertices` | src/cone.py:63-98 | vertex 0 is the apex ((0,1,0), (0,1,0), (0.5,1)). Side vertex `slice` is at (cos, 0, sin) of Theta(slice), has a normal that is a positive multiple of (x, 1, z), and has texcoord (slice / nslices, 0) |
| `ConeMesh.ConeSeam` | src/cone.py:76-98 | the first and last side vertices have texcoords (0, 0) and (1, 0) and sit at angles 0 and 2 pi; when a full turn returns cos and sin to their start values, the two share position and normal |
| `ConeMesh.SlantNormalUnit` | src/cone.py:85-93 | for x^2 + z^2 = 1 and a true square root, the normalized (x, 1, z) has length 1 and its y component squared is 1/2 (45 degrees) |
| `ConeMesh.ConeSideNormals` | src/cone.py:76-93 | for the true cos, sin and sqrt, every side vertex lies on the unit circle at y = 0 and its normal is a unit vector 45 degrees up from the horizontal |
| `ConeMesh.LateralVertexUnit` | src/cone.py:77-93 | for the true cos, sin and sqrt, a side vertex lies on the unit circle at y = 0 and has a unit normal with y^2 = 1/2 |
| `ConeMesh.ConeBaseVertices` | src/cone.py:112-137 | with the base, vertex nslices + 2 is its centre ((0,0,0), (0,-1,0), (0.5,0.5)); its rim vertices lie at y = 0 with normal (0,-1,0) and the circular texcoord |
| `ConeMesh.SourceConeSideTriangle` | src/cone.py:100-106 | as written, side triangle `slice` is [vertex_top, base_start + slice, base_start + slice + 1] = [0, 1 + slice, 2 + slice] |
| `ConeMesh.ConeSideTriangle` | src/cone.py:100-106 | corrected, side triangle `slice` is [0, 2 + slice, 1 + slice] at the same slots |
| `ConeMesh.SourceConeIndicesAgree` | src/cone.py:100-145 | the written and corrected lists agree on every base index and on each side triangle's apex, and differ only in the order of each side triangle's last two indices |
| `ConeMesh.ConeBaseTriangle` | src/cone.py:139-145 | base triangle `slice` follows the 3 nslices side indices and is [center_base, center_base + 1 + slice, center_base + 2 + slice], with center_base = nslices + 2 |
| `ConeMesh.ConeIndicesInRange` | src/cone.py:100-145 | every index is below the vertex total; the side fan uses only the apex and the side ring, and the base fan only its centre and rim |
| `ConeMesh.SourceConeIndicesInRange` | src/cone.py:100-145 | every index of the list as written is below the vertex total, and its side fan uses only the apex and the side ring |
| `ConeMesh.SideTriangleNormals` | src/cone.py:100-106 | against the outward direction (x, 1, z), the face normal of [apex, rim_i, rim_j] gives -2 step and that of [apex, rim_j, rim_i] gives 2 step |
| `ConeMesh.DotScaled` | src/cone.py:93 | scaling (x, 1, z) by the normalization factor scales any dot product with it |
| `ConeMesh.SideNormalScaled` | src/cone.py:85-93 | side vertex `slice` has normal k (x, 1, z) with k > 0 |
| `ConeMesh.SideTriangleSigns` | src/cone.py:100-106 | for a positive step and a positive normal scale, [apex, rim_i, rim_j] faces against k (ci, 1, si) and [apex, rim_j, rim_i] along it |
| `ConeMesh.SideTriangleValues` | src/cone.py:63-106 | the apex and the two rim positions of side triangle `slice` as plain reals, with its step and the stored normal k (ci, 1, si), k > 0 |
| `ConeMesh.SourceConeSideFacesInward` | src/cone.py:100-106 | as written, each side triangle faces away from its rim vertex's stored normal, that is inwards |
| `ConeMesh.ConeSideFacesOutward` | src/cone.py:100-106 | with the corrected winding, each side triangle faces the way its rim vertex's stored normal points (outwards) |
| `ConeMesh.ConeBaseFacesDown` | src/cone.py:139-145 | each base triangle faces down, the way the base normal points |
| `ConeMesh.EmitLateralVertex` | src/cone.py:77-98 | one side pass appends exactly side vertex `slice`, normal divided by its length |
| `ConeMesh.EmitLateralVertices` | src/cone.py:63-98 | returns vertex_top (the vid before) and base_start = vertex_top + 1; appends exactly the apex and the nslices + 1 side vertices |
| `ConeMesh.EmitBody` | src/cone.py:61-106 | from empty buffers, writes exactly the apex, the side ring and the side fan with the corrected winding `ReverseFan(0, 1, nslices)`; vid ends at nslices + 2 and iid at 3 nslices |
| `ConeMesh.EmitBase` | src/cone.py:108-145 | with the base, appends exactly the base disc and its fan around the vid before the call; without it, changes nothing; afterwards vid and iid equal the totals |
| `ConeMesh.Cone.constructor` | src/cone.py:24-147 | takes the source's defaults (32 slices, base on, culling not disabled); stores the parameters and allocates the streams at the computed totals. Every slot ends written exactly once: vid and iid equal the totals and cid = nid = 3 vid, tid = 2 vid. The streams hold exactly `ConeVertices` and the corrected `ConeIndices`, and nind is the index total |
| `ConeMesh.Cone.Draw` | src/cone.py:179-192 | issues `DrawCalls(nind, disableCulling, flag before)` and leaves the culling flag as it found it |

## Left out

- GPU upload: `glGenVertexArrays`, `glGenBuffers`, `glBufferData`, `glVertexAttribPointer` and `self.vao` (src/cylinder.py:193-221, src/cone.py:150-177). These are calls into the GL driver. Only their fixed attribute slots 0, 1 and 3 are recorded, as constants in `Gl`.
- `glBindVertexArray` in `Draw`: binding a vertex array has no effect on the culling flag or on the index count, so it is not modelled.
- Floating point: `float32` streams become `real` arrays, and `uint32` indices become `nat`. Rounding is not modelled.
- `math.cos`, `math.sin` and `math.sqrt` are given functions, not computed. Geometric lemmas assume their properties explicitly:
  - `UnitCircle`: cos^2 + sin^2 = 1;
  - `FullTurn`: the values at 2 pi equal those at 0;
  - `IsSqrt`: a non-negative square root;
  - a positive `Step`: the sine of the angle between consecutive samples, which holds for nslices >= 3.
- `ConeMesh.LateralVertex` and the cone constructor require `IsSqrt(sqrt)`. Without it, the division by the slant length at src/cone.py:93 could be a division by zero.
- Input validation does not exist in the source. Both constructors require 0 < nslices, and the cylinder also requires 0 < nstacks; these are the divisors at src/cylinder.py:68-73 and src/cone.py:77-80, so the source fails only when they are 0 (division by zero). Triangles have a positive angular step only for nslices >= 3, but the model follows the code and does not require it; the orientation lemmas take the positive step as a hypothesis instead.
- `ConeMesh.EmitBody` and `ConeMesh.Cone.constructor` deliberately write the corrected side fan `[vertex_top, base_start + slice + 1, base_start + slice]`, not the one at src/cone.py:101-105. Their index list is `ConeIndices`, not the source's `SourceConeIndices`. `SourceConeIndicesAgree` proves the two lists differ only in the order of each side triangle's last two indices; the base fan is the same. The source's list is modelled by `SourceConeIndices` and its lemmas (see "## Findings").
- `np.empty` leaves array contents unspecified, whereas Dafny arrays start initialised. The model instead proves that every slot is written: the written prefix reaches the full array length.
- In the source, the arrays and cursors are locals of the constructor. In the model they are fields of a `MeshData` object kept by the shape, so that `Draw` and the lemmas can refer to the result.
- The `Shape` base class and the `Grid` import come from a scene-graph library that is not part of this model (src/cylinder.py:12-13, src/cone.py:12).
- The scene assembly, shaders, textures and window loop in `src/main.py` are not part of this model.

## Findings

| source | as written | input that shows it | evidently intended | confidence | as-written member | corrected member |
|---|---|---|---|---|---|---|
| src/cone.py:101-105 | The side fan is `[vertex_top, base_start + slice, base_start + slice + 1]`. Its counter-clockwise front faces the inside of the cone, against the stored side normals. The cylinder's quads, both cylinder caps and the cone's base all face the way their normals point. | nslices = 4, with cos/sin exact at 0 and pi/2. Triangle 0 is [0, 1, 2] = (0,1,0), (1,0,0), (0,0,1). Its face normal is (-1, -1, -1), while vertex 1's stored normal is (1, 1, 0)/sqrt 2: the dot product is negative. With culling on (main.py enables `GL_CULL_FACE` with the default front face), the outside of a cone drawn with disable_culling = False is culled. The scene's own cone (src/main.py:127) is built with disable_culling = True, which hides the defect there. | `[vertex_top, base_start + slice + 1, base_start + slice]`, wound counter-clockwise seen from outside like every other triangle the generators emit | medium; not executed | `ConeMesh.SourceConeSideFacesInward` | `ConeMesh.ConeSideFacesOutward` |
