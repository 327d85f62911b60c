/**
 * The shadow renderer object of shadowRenderer.js: its fields, `_allocate`,
 * `_bindProgram`, `webglContextRestored` and `drawMesh`, as a class whose
 * methods update those fields, the caller's frame and the WebGL log.
 */
module ShadowRenderer {
  import opened Wrappers
  import opened ShadowTypes
  import opened ShadowProtocol
  import opened ShadowProtocolProofs

  /** The WebGL context, seen as the list of calls made on it. */
  class Gl {
    var log: seq<Cmd>

    constructor ()
      ensures log == []
    {
      log := [];
    }
  }

  /** The caller-owned per-frame record that `drawMesh` reads and updates. */
  class Frame {
    var lastProgramId: Option<Id>
    var backfaces: Option<bool>
    var frontface: Option<bool>
    var lineWidth: Option<int>
    var textureUnit: int
    var useProgram: int
    var bindArray: int
    var drawElements: int
    var drawArrays: int

    function State(): FrameState
      reads this
    {
      FrameState(lastProgramId, backfaces, frontface, lineWidth, textureUnit,
                 useProgram, bindArray, drawElements, drawArrays)
    }

    /** A frame at its start: no program bound, no state known, counters zero. */
    constructor ()
      ensures State() == FrameState(None, None, None, None, 0, 0, 0, 0, 0)
    {
      lastProgramId, backfaces, frontface, lineWidth := None, None, None, None;
      textureUnit, useProgram, bindArray, drawElements, drawArrays := 0, 0, 0, 0, 0;
    }
  }

  /**
   * The `_allocate` loop: one uniform triple per clip plane (the source
   * pushes them onto `_uClips`).
   */
  method ResolveClipLocations(p: Program, clipCount: nat) returns (locs: seq<ClipLocs>)
    ensures locs == ClipLocations(p, clipCount)
  {
    locs := [];
    var i := 0;
    while i < clipCount
      invariant i <= clipCount
      invariant locs == ClipLocations(p, i)
    {
      locs := locs + [ClipLocs(Location(p, ClipActiveName(i)),
                               Location(p, ClipPosName(i)),
                               Location(p, ClipDirName(i)))];
      i := i + 1;
    }
  }

  /** The `_bindProgram` loop over the resolved clip triples. */
  method PushClipUniforms(uClips: seq<ClipLocs>, clips: seq<Clip>) returns (cmds: seq<Cmd>)
    requires |uClips| <= |clips|
    ensures cmds == ClipUniformCmds(uClips, clips)
  {
    cmds := [];
    var i := 0;
    while i < |uClips|
      invariant i <= |uClips|
      invariant cmds == ClipUniformCmds(uClips[..i], clips)
    {
      var u := uClips[i];
      var clip := clips[i];
      if u.active.Some? {
        cmds := cmds + [ClipActive(u.active.value, clip.active)];
      }
      if u.pos.Some? {
        cmds := cmds + [ClipPos(u.pos.value, clip.pos)];
      }
      if u.dir.Some? {
        cmds := cmds + [ClipDir(u.dir.value, clip.dir)];
      }
      assert uClips[..i + 1][..i] == uClips[..i];
      i := i + 1;
    }
    assert uClips[..i] == uClips;
  }

  class Renderer {
    const hash: string
    var program: Option<Program>
    var errors: Option<seq<string>>
    var useCount: int
    var uPositionsDecodeMatrix: Option<Loc>
    var uModelMatrix: Option<Loc>
    var uViewMatrix: Option<Loc>
    var uProjMatrix: Option<Loc>
    var uClippable: Option<Loc>
    var uPointSize: Option<Loc>
    var aPosition: Option<Loc>
    var uClips: seq<ClipLocs>
    var lastLightId: Option<Id>
    var lastMaterialId: Option<Id>
    var lastVertexBufsId: Option<Id>
    var lastGeometryId: Option<Id>

    function Bindings(): Bindings
      reads this
    {
      ShadowProtocol.Bindings(uPositionsDecodeMatrix, uModelMatrix, uViewMatrix, uProjMatrix,
                              uClippable, uPointSize, aPosition, uClips)
    }

    function State(): RendererState
      reads this
    {
      RendererState(program, errors, useCount, Bindings(),
                    Cursors(lastLightId, lastMaterialId, lastVertexBufsId, lastGeometryId))
    }

    /** `new ShadowRenderer(hash, mesh)`: a zero use count, then `_allocate`. */
    constructor (hash: string, build: Program, clips: seq<Clip>)
      ensures this.hash == hash
      ensures State() == Allocated(Unallocated, build, |clips|)
    {
      this.hash := hash;
      program, errors, useCount := None, None, 0;
      uPositionsDecodeMatrix, uModelMatrix, uViewMatrix, uProjMatrix := None, None, None, None;
      uClippable, uPointSize, aPosition, uClips := None, None, None, [];
      lastLightId, lastMaterialId, lastVertexBufsId, lastGeometryId := None, None, None, None;
      new;
      Allocate(build, clips);
    }

    /** `_allocate(mesh)`, with `build` the program the compiler yields. */
    method Allocate(build: Program, clips: seq<Clip>)
      modifies this
      ensures State() == Allocated(old(State()), build, |clips|)
    {
      ghost var s := State();
      program := Some(build);
      useCount := 0;
      if build.errors.Some? {
        errors := build.errors;
        assert State() == s.(program := Some(build), useCount := 0, errors := build.errors);
        return;
      }
      ResolveBindings(build, clips);
      lastMaterialId, lastVertexBufsId, lastGeometryId := None, None, None;
      ghost var t := Allocated(s, build, |clips|);
      assert State().bindings == t.bindings;
      assert State().cursors == t.cursors;
    }

    /** The location lookups of `_allocate` (shadowRenderer.js:171-184). */
    method ResolveBindings(build: Program, clips: seq<Clip>)
      modifies this`uPositionsDecodeMatrix, this`uModelMatrix, this`uViewMatrix, this`uProjMatrix,
               this`uClips, this`aPosition, this`uClippable
      ensures Bindings() == Resolve(old(Bindings()), build, |clips|)
    {
      var locs := ResolveClipLocations(build, |clips|);
      uPositionsDecodeMatrix, uModelMatrix, uViewMatrix, uProjMatrix :=
        Location(build, PositionsDecodeMatrixName), Location(build, ModelMatrixName),
        Location(build, ViewMatrixName), Location(build, ProjMatrixName);
      uClips := locs;
      aPosition := Attribute(build, PositionName);
      uClippable := Location(build, ClippableName);
    }

    /** `_bindProgram(frame)` */
    method BindProgram(frame: Frame, clips: seq<Clip>, gl: Gl)
      requires program.Some? && ClipsFit(State(), clips)
      modifies this, frame, gl
      ensures var c := BindStep(Ctx(old(State()), old(frame.State()), old(gl.log)), clips);
              State() == c.r && frame.State() == c.f && gl.log == c.log
    {
      gl.log := gl.log + [UseProgram(program.value.id)];
      frame.useProgram := frame.useProgram + 1;
      lastLightId := None;
      lastMaterialId := None;
      lastVertexBufsId := None;
      lastGeometryId := None;
      if |clips| > 0 {
        var cmds := PushClipUniforms(uClips, clips);
        gl.log := gl.log + cmds;
      }
    }

    /** `webglContextRestored()`: drop the program, nothing else. */
    method WebglContextRestored()
      modifies this`program
      ensures State() == old(State()).(program := None)
    {
      program := None;
    }

    /** The renderer, `frame` and `gl` are in the state `c` describes. */
    ghost predicate At(c: Ctx, frame: Frame, gl: Gl)
      reads this, frame, gl
    {
      State() == c.r && frame.State() == c.f && gl.log == c.log
    }

    /** shadowRenderer.js:68-72 */
    method PushLightUniforms(frame: Frame, light: Light, gl: Gl)
      modifies this, gl
      ensures At(LightStep(Ctx(old(State()), old(frame.State()), old(gl.log)), light), frame, gl)
    {
      if Some(light.id) != lastLightId {
        gl.log := gl.log + [SetView(uViewMatrix, light.shadowView), SetProj(uProjMatrix, light.shadowProj)];
        lastLightId := Some(light.id);
      }
    }

    /** shadowRenderer.js:75-102 */
    method ApplyMaterial(frame: Frame, material: MaterialState, gl: Gl)
      modifies this, frame, gl
      ensures At(MaterialStep(Ctx(old(State()), old(frame.State()), old(gl.log)), material), frame, gl)
    {
      if Some(material.id) != lastMaterialId {
        ghost var c := Ctx(State(), frame.State(), gl.log);
        SetBackfaces(frame, material.backfaces, gl);
        SetFrontface(frame, material.frontface, gl);
        SetLineWidth(frame, material.lineWidth, gl);
        if uPointSize.Some? {
          gl.log := gl.log + [SetPointSize(uPointSize.value, material.pointSize)];
        }
        ghost var d := PointSizeStep(LineWidthStep(FrontfaceStep(BackfacesStep(c, material.backfaces),
                                                         material.frontface), material.lineWidth), material.pointSize);
        assert At(d, frame, gl);
        lastMaterialId := Some(material.id);
      }
    }

    method SetBackfaces(frame: Frame, backfaces: bool, gl: Gl)
      modifies frame`backfaces, gl
      ensures At(BackfacesStep(Ctx(old(State()), old(frame.State()), old(gl.log)), backfaces), frame, gl)
    {
      if frame.backfaces != Some(backfaces) {
        if backfaces {
          gl.log := gl.log + [CullDisable];
        } else {
          gl.log := gl.log + [CullEnable];
        }
        frame.backfaces := Some(backfaces);
      }
    }

    method SetFrontface(frame: Frame, frontface: bool, gl: Gl)
      modifies frame`frontface, gl
      ensures At(FrontfaceStep(Ctx(old(State()), old(frame.State()), old(gl.log)), frontface), frame, gl)
    {
      if frame.frontface != Some(frontface) {
        gl.log := gl.log + [FrontFace(frontface)];
        frame.frontface := Some(frontface);
      }
    }

    method SetLineWidth(frame: Frame, width: int, gl: Gl)
      modifies frame`lineWidth, gl
      ensures At(LineWidthStep(Ctx(old(State()), old(frame.State()), old(gl.log)), width), frame, gl)
    {
      if frame.lineWidth != Some(width) {
        gl.log := gl.log + [LineWidth(width)];
        frame.lineWidth := Some(width);
      }
    }

    /** shadowRenderer.js:104-113 */
    method BindVertexBufs(frame: Frame, geometry: GeometryState, vertexBufs: VertexBufs, gl: Gl)
      modifies this, frame, gl
      ensures At(VertexBufsStep(Ctx(old(State()), old(frame.State()), old(gl.log)), geometry, vertexBufs), frame, gl)
    {
      if geometry.combined {
        if Some(vertexBufs.id) != lastVertexBufsId {
          if vertexBufs.positionsBuf.Some? && aPosition.Some? {
            gl.log := gl.log + [BindPositions(aPosition.value, vertexBufs.positionsBuf, vertexBufs.quantized)];
            frame.bindArray := frame.bindArray + 1;
          }
          lastVertexBufsId := Some(vertexBufs.id);
        }
      }
    }

    /** shadowRenderer.js:117-137 */
    method BindGeometry(frame: Frame, geometry: GeometryState, gl: Gl)
      modifies this, frame, gl
      ensures At(GeometryStep(Ctx(old(State()), old(frame.State()), old(gl.log)), geometry), frame, gl)
    {
      if Some(geometry.id) != lastGeometryId {
        PushDecodeMatrix(frame, geometry, gl);
        BindGeometryBuffers(frame, geometry, gl);
        lastGeometryId := Some(geometry.id);
      }
    }

    /** shadowRenderer.js:118-120 */
    method PushDecodeMatrix(frame: Frame, geometry: GeometryState, gl: Gl)
      modifies gl
      ensures At(DecodeStep(Ctx(old(State()), old(frame.State()), old(gl.log)), geometry), frame, gl)
    {
      if uPositionsDecodeMatrix.Some? {
        gl.log := gl.log + [SetPositionsDecode(uPositionsDecodeMatrix.value, geometry.positionsDecodeMatrix)];
      }
    }

    /** shadowRenderer.js:121-135 */
    method BindGeometryBuffers(frame: Frame, geometry: GeometryState, gl: Gl)
      modifies frame`bindArray, gl
      ensures At(GeometryBuffersStep(Ctx(old(State()), old(frame.State()), old(gl.log)), geometry), frame, gl)
    {
      if geometry.combined {
        if geometry.indicesBufCombined.Some? {
          gl.log := gl.log + [BindIndices(geometry.indicesBufCombined.value)];
          frame.bindArray := frame.bindArray + 1;
        }
      } else {
        if aPosition.Some? {
          gl.log := gl.log + [BindPositions(aPosition.value, geometry.positionsBuf, geometry.quantized)];
          frame.bindArray := frame.bindArray + 1;
        }
        if geometry.indicesBuf.Some? {
          gl.log := gl.log + [BindIndices(geometry.indicesBuf.value)];
          frame.bindArray := frame.bindArray + 1;
        }
      }
    }

    /** shadowRenderer.js:138-153 */
    method IssueDraw(frame: Frame, geometry: GeometryState, gl: Gl)
      modifies frame, gl
      ensures At(DrawCallStep(Ctx(old(State()), old(frame.State()), old(gl.log)), geometry), frame, gl)
    {
      if geometry.combined {
        if geometry.indicesBufCombined.Some? {
          gl.log := gl.log + [DrawElements(geometry.primitive, geometry.indicesBufCombined.value)];
          frame.drawElements := frame.drawElements + 1;
        }
      } else {
        if geometry.indicesBuf.Some? {
          gl.log := gl.log + [DrawElements(geometry.primitive, geometry.indicesBuf.value)];
          frame.drawElements := frame.drawElements + 1;
        } else if geometry.positions.Some? {
          gl.log := gl.log + [DrawArrays(geometry.positions.value.numItems)];
          frame.drawArrays := frame.drawArrays + 1;
        }
      }
    }

    /**
     * `drawMesh(frame, mesh, light)`. The clip planes are those of the
     * mesh's scene; `build` is what the compiler yields should the renderer
     * reallocate.
     */
    method DrawMesh(frame: Frame, mesh: Mesh, light: Light, build: Program, gl: Gl)
      requires ClipsFit(State(), mesh.scene.clips)
      modifies this, frame, gl
      ensures At(DrawSpec(Ctx(old(State()), old(frame.State()), old(gl.log)), mesh, light, build), frame, gl)
      ensures program == Some(if old(program).None? then build else old(program).value)
      ensures useCount == (if old(program).None? then 0 else old(useCount))
      ensures ClipsFit(State(), mesh.scene.clips)
    {
      ghost var c := Ctx(State(), frame.State(), gl.log);
      DrawSummary(c, mesh, light, build);
      PrepareProgram(frame, mesh.scene.clips, build, gl);
      ghost var p := Prepared(c, mesh, build);
      frame.textureUnit := 0;
      ghost var c0 := p.(f := p.f.(textureUnit := 0));
      assert At(c0, frame, gl);
      PushLightUniforms(frame, light, gl);
      ghost var c1 := LightStep(c0, light);
      ApplyMaterial(frame, mesh.material, gl);
      ghost var c2 := MaterialStep(c1, mesh.material);
      gl.log := gl.log + [SetModel(uModelMatrix, mesh.worldMatrix)];
      ghost var c3 := ModelStep(c2, mesh.worldMatrix);
      assert At(c3, frame, gl);
      BindVertexBufs(frame, mesh.geometry, mesh.vertexBufs, gl);
      ghost var c4 := VertexBufsStep(c3, mesh.geometry, mesh.vertexBufs);
      if uClippable.Some? {
        gl.log := gl.log + [SetClippable(uClippable.value, mesh.clippable)];
      }
      ghost var c5 := ClippableStep(c4, mesh.clippable);
      assert At(c5, frame, gl);
      BindGeometry(frame, mesh.geometry, gl);
      IssueDraw(frame, mesh.geometry, gl);
    }

    /** shadowRenderer.js:56-66: reallocate if needed, bind if the frame bound another program. */
    method PrepareProgram(frame: Frame, clips: seq<Clip>, build: Program, gl: Gl)
      requires ClipsFit(State(), clips)
      modifies this, frame, gl
      ensures program.Some?
      ensures At(ProgramStep(ReallocateStep(Ctx(old(State()), old(frame.State()), old(gl.log)), build, clips), clips),
                 frame, gl)
    {
      ghost var c := Ctx(State(), frame.State(), gl.log);
      if program.None? {
        Allocate(build, clips);
      }
      ghost var a := ReallocateStep(c, build, clips);
      assert At(a, frame, gl);
      var pid := program.value.id;
      if frame.lastProgramId != Some(pid) {
        frame.lastProgramId := Some(pid);
        BindProgram(frame, clips, gl);
      }
    }
  }
}
