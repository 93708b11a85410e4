/** The slice of OpenGL's process-wide render state that the shapes touch when
    they draw: the GL_CULL_FACE capability flag, and the calls made against it. */
module Gl {

  /** Attribute slots the generated streams are bound to (slot 2 is unused). */
  const PositionSlot: nat := 0
  const NormalSlot: nat := 1
  const TexcoordSlot: nat := 3

  /** A call a shape issues while drawing: glDisable(GL_CULL_FACE),
      glEnable(GL_CULL_FACE), or glDrawElements(GL_TRIANGLES, count, ...)
      recorded together with the culling flag in force when it ran. */
  datatype Call = DisableCullFace | EnableCullFace | DrawTriangles(count: nat, culled: bool)

  /** The culling flag after `calls` have run, starting from `cull`. */
  function CullingAfter(cull: bool, calls: seq<Call>): bool
    decreases |calls|
  {
    if calls == [] then cull
    else
      var next := match calls[0]
        case DisableCullFace => false
        case EnableCullFace => true
        case DrawTriangles(_, _) => cull;
      CullingAfter(next, calls[1..])
  }

  lemma {:induction false} CullingAfterAppend(cull: bool, calls: seq<Call>, call: Call)
    ensures CullingAfter(cull, calls + [call]) ==
            match call
            case DisableCullFace => false
            case EnableCullFace => true
            case DrawTriangles(_, _) => CullingAfter(cull, calls)
    decreases |calls|
  {
    if calls == [] {
      assert calls + [call] == [call];
    } else {
      var next := match calls[0]
        case DisableCullFace => false
        case EnableCullFace => true
        case DrawTriangles(_, _) => cull;
      assert (calls + [call])[0] == calls[0];
      assert (calls + [call])[1..] == calls[1..] + [call];
      CullingAfterAppend(next, calls[1..], call);
    }
  }

  /** The GL context: the current GL_CULL_FACE flag and the log of calls. */
  class Context {
    var cullFace: bool
    var calls: seq<Call>
    ghost const initialCullFace: bool

    /** The flag always equals what the logged calls make of the initial flag. */
    ghost predicate Valid()
      reads this
    {
      cullFace == CullingAfter(initialCullFace, calls)
    }

    constructor (cullFace: bool)
      ensures Valid() && this.cullFace == cullFace && calls == []
    {
      this.cullFace := cullFace;
      calls := [];
      initialCullFace := cullFace;
    }

    /** glIsEnabled(GL_CULL_FACE) */
    method IsCullFaceEnabled() returns (enabled: bool)
      ensures enabled == cullFace
    {
      enabled := cullFace;
    }

    /** glDisable(GL_CULL_FACE) */
    method DisableCullFace()
      requires Valid()
      modifies this
      ensures Valid() && !cullFace && calls == old(calls) + [Call.DisableCullFace]
    {
      CullingAfterAppend(initialCullFace, calls, Call.DisableCullFace);
      cullFace := false;
      calls := calls + [Call.DisableCullFace];
    }

    /** glEnable(GL_CULL_FACE) */
    method EnableCullFace()
      requires Valid()
      modifies this
      ensures Valid() && cullFace && calls == old(calls) + [Call.EnableCullFace]
    {
      CullingAfterAppend(initialCullFace, calls, Call.EnableCullFace);
      cullFace := true;
      calls := calls + [Call.EnableCullFace];
    }

    /** glDrawElements(GL_TRIANGLES, count, GL_UNSIGNED_INT, None) */
    method DrawElements(count: nat)
      requires Valid()
      modifies this`calls
      ensures Valid() && calls == old(calls) + [DrawTriangles(count, cullFace)]
    {
      CullingAfterAppend(initialCullFace, calls, DrawTriangles(count, cullFace));
      calls := calls + [DrawTriangles(count, cullFace)];
    }
  }
}
