/**
 * The module-level `renderers` map of shadowRenderer.js with
 * `ShadowRenderer.get` and `put`, and the `stats.memory.programs` counter
 * they keep.
 */
module ShadowRegistry {
  import opened Wrappers
  import opened ShadowTypes
  import opened ShadowProtocol
  import opened ShadowRenderer
  import Fingerprint

  /** The key `get` computes for a mesh (shadowRenderer.js:21-25). */
  function Key(mesh: Mesh): string
  {
    Fingerprint.Hash(mesh.scene.canvasId, mesh.scene.clipsHash, mesh.geometry.hash, mesh.stateHash)
  }

  /** A renderer as `get` hands it out the first time: allocated, count 1. */
  function FirstHandOut(build: Program, clipCount: nat): RendererState
  {
    Allocated(Unallocated, build, clipCount).(useCount := 1)
  }

  class Registry {
    /** `renderers`: hash to the one shared renderer for it. */
    var renderers: map<string, Renderer>
    /** `stats.memory.programs` */
    var programs: int

    /** Every renderer is filed under its own hash. */
    ghost predicate Valid()
      reads this
    {
      forall h :: h in renderers ==> renderers[h].hash == h
    }

    constructor ()
      ensures Valid() && renderers == map[] && programs == 0
    {
      renderers := map[];
      programs := 0;
    }

    /** The renderer filed under `h`, if any. */
    ghost function Holder(h: string): set<Renderer>
      reads this
    {
      if h in renderers then {renderers[h]} else {}
    }

    /** `ShadowRenderer.get(mesh)`; `build` is what compiling its shader yields. */
    method Get(mesh: Mesh, build: Program) returns (r: Renderer?)
      requires Valid()
      modifies this, Holder(Key(mesh))
      ensures Valid()
      ensures r != null ==> r.hash == Key(mesh)
      ensures Key(mesh) in old(renderers) ==>
                && r == old(renderers[Key(mesh)])
                && r.State() == old(r.State()).(useCount := old(r.useCount) + 1)
                && renderers == old(renderers) && programs == old(programs)
      ensures Key(mesh) !in old(renderers) && build.errors.Some? ==>
                r == null && renderers == old(renderers) && programs == old(programs)
      ensures Key(mesh) !in old(renderers) && build.errors.None? ==>
                && r != null && fresh(r) && r.hash == Key(mesh)
                && r.State() == FirstHandOut(build, |mesh.scene.clips|)
                && renderers == old(renderers)[Key(mesh) := r]
                && programs == old(programs) + 1
    {
      var hash := Key(mesh);
      if hash in renderers {
        r := renderers[hash];
      } else {
        r := new Renderer(hash, build, mesh.scene.clips);
        if r.errors.Some? {
          return null;
        }
        renderers := renderers[hash := r];
        programs := programs + 1;
      }
      r.useCount := r.useCount + 1;
    }

    /** `renderer.put()` */
    method Put(r: Renderer, gl: Gl)
      requires Valid()
      modifies this, r`useCount, gl
      ensures Valid()
      ensures r.useCount == old(r.useCount) - 1
      ensures r.useCount == 0 ==>
                && renderers == old(renderers) - {r.hash}
                && programs == old(programs) - 1
                && gl.log == old(gl.log) + (if r.program.Some? then [DestroyProgram(r.program.value.id)] else [])
      ensures r.useCount != 0 ==>
                renderers == old(renderers) && programs == old(programs) && gl.log == old(gl.log)
    {
      r.useCount := r.useCount - 1;
      if r.useCount == 0 {
        if r.program.Some? {
          gl.log := gl.log + [DestroyProgram(r.program.value.id)];
        }
        renderers := renderers - {r.hash};
        programs := programs - 1;
      }
    }
  }

  /** Two meshes with one key share one renderer, counted twice. */
  method ShareOnSameKey(reg: Registry, m1: Mesh, m2: Mesh, build1: Program, build2: Program)
      returns (r1: Renderer?, r2: Renderer?)
    requires reg.Valid() && Key(m1) == Key(m2) && Key(m1) !in reg.renderers
    requires build1.errors.None?
    modifies reg
    ensures r1 != null && r1 == r2 && r1.useCount == 2
    ensures reg.renderers == old(reg.renderers)[Key(m1) := r1]
    ensures reg.programs == old(reg.programs) + 1
  {
    r1 := reg.Get(m1, build1);
    r2 := reg.Get(m2, build2);
  }

  /** A released key is rebuilt by the next `get`: a new renderer, not the old one. */
  method ReleaseThenReacquire(reg: Registry, mesh: Mesh, build1: Program, build2: Program, gl: Gl)
      returns (r1: Renderer?, r2: Renderer?)
    requires reg.Valid() && Key(mesh) !in reg.renderers
    requires build1.errors.None? && build2.errors.None?
    modifies reg, gl
    ensures r1 != null && r2 != null && r1 != r2 && fresh(r2)
    ensures r2.State() == FirstHandOut(build2, |mesh.scene.clips|)
    ensures reg.renderers == old(reg.renderers)[Key(mesh) := r2]
    ensures reg.programs == old(reg.programs) + 1
  {
    r1 := reg.Get(mesh, build1);
    reg.Put(r1, gl);
    assert Key(mesh) !in reg.renderers;
    r2 := reg.Get(mesh, build2);
  }

  /**
   * A first `get`, a context restore and a draw: `drawMesh` reallocates with
   * the new build and so zeroes the use count, although one holder remains.
   */
  method GetRestoreDraw(reg: Registry, mesh: Mesh, light: Light, build1: Program,
                        build2: Program, frame: Frame, gl: Gl)
      returns (r: Renderer?)
    requires reg.Valid() && Key(mesh) !in reg.renderers
    requires build1.errors.None?
    modifies reg, frame, gl
    ensures reg.Valid()
    ensures r != null && fresh(r) && r.hash == Key(mesh) && r.useCount == 0 && r.program == Some(build2)
    ensures reg.renderers == old(reg.renderers)[Key(mesh) := r]
    ensures reg.programs == old(reg.programs) + 1
  {
    r := reg.Get(mesh, build1);
    r.WebglContextRestored();
    r.DrawMesh(frame, mesh, light, build2, gl);
  }

  /**
   * After a context restore, `drawMesh` reallocates and so zeroes the use
   * count: the one holder's `put` then leaves the count at -1 and the
   * renderer cached, and `stats.memory.programs` is never decremented.
   */
  method RestoreLeavesRendererCached(reg: Registry, mesh: Mesh, light: Light, build1: Program,
                                     build2: Program, frame: Frame, gl: Gl)
      returns (r: Renderer?)
    requires reg.Valid() && Key(mesh) !in reg.renderers
    requires build1.errors.None?
    modifies reg, frame, gl
    ensures r != null && r.useCount == -1
    ensures reg.renderers == old(reg.renderers)[Key(mesh) := r]
    ensures reg.programs == old(reg.programs) + 1
  {
    r := GetRestoreDraw(reg, mesh, light, build1, build2, frame, gl);
    reg.Put(r, gl);
  }

  /**
   * Worse than the leak: after a restore has zeroed the count, a second
   * holder's `get` and `put` take it back to 0, so that `put` destroys the
   * program, evicts the key and decrements `stats.memory.programs` while
   * the first holder still draws with the renderer.
   */
  method RestoreLetsSecondHolderEvict(reg: Registry, mesh: Mesh, light: Light, build1: Program,
                                      build2: Program, frame: Frame, gl: Gl)
      returns (r: Renderer?, r2: Renderer?)
    requires reg.Valid() && Key(mesh) !in reg.renderers
    requires build1.errors.None?
    modifies reg, frame, gl
    ensures r != null && r2 == r && r.useCount == 0
    ensures r.program == Some(build2)
    ensures DestroyProgram(build2.id) in gl.log
    ensures Key(mesh) !in reg.renderers
    ensures reg.programs == old(reg.programs)
  {
    r := GetRestoreDraw(reg, mesh, light, build1, build2, frame, gl);
    r2 := reg.Get(mesh, build1);
    reg.Put(r2, gl);
  }
}
