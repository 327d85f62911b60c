/**
 * What the `drawMesh` protocol of shadowRenderer.js guarantees: which
 * commands one call issues, which cursors and counters it leaves behind,
 * and what a second call can skip.
 *
 * Each block of `drawMesh` appears twice on purpose. protocol.dfy defines
 * it as a step from state to state, which is what the renderer's methods
 * are proved against. Here it is a plain list of commands (`LightCmds` …
 * `DrawCmds`) over the cursors, frame and locations the block reads, and
 * the `…StepFacts` lemmas tie the two together. Properties are proved
 * over the lists, because a list, unlike the nested steps, can be counted
 * kind by kind without the verifier unfolding the whole call. For the same reason the counts
 * are added up by the small abstract lemmas `TwoSum`, `FourSum` and
 * `SevenSum` rather than in one step.
 */
module ShadowProtocolProofs {
  import opened Wrappers
  import opened ShadowTypes
  import opened ShadowProtocol

  // ---------------------------------------------------------------------
  // The program the call draws with, and whether it binds it.

  /** The program `drawMesh` draws with: the current one, or a fresh build. */
  function ProgramFor(c: Ctx, build: Program): Program
  {
    if c.r.program.None? then build else c.r.program.value
  }

  /** The frame last bound some other program, so this call binds. */
  predicate WillBind(c: Ctx, build: Program)
  {
    c.f.lastProgramId != Some(ProgramFor(c, build).id)
  }

  /** The renderer state once the program is (re)allocated if need be. */
  function AllocatedFor(c: Ctx, build: Program, clipCount: nat): RendererState
  {
    if c.r.program.None? then Allocated(c.r, build, clipCount) else c.r
  }

  /** The clip uniforms a bind pushes. */
  function BindClipCmds(s: RendererState, clips: seq<Clip>): seq<Cmd>
    requires ClipsFit(s, clips)
  {
    if |clips| > 0 then ClipUniformCmds(s.bindings.clips, clips) else []
  }

  lemma PreparedFacts(c: Ctx, mesh: Mesh, build: Program)
    requires ClipsFit(c.r, mesh.scene.clips)
    ensures var clips := mesh.scene.clips;
      var a := AllocatedFor(c, build, |clips|);
      var p := Prepared(c, mesh, build);
      var id := ProgramFor(c, build).id;
      && ClipsFit(a, clips)
      && a.program == Some(ProgramFor(c, build))
      && p.r == (if WillBind(c, build) then a.(cursors := Unset) else a)
      && p.f == c.f.(lastProgramId := Some(id), useProgram := c.f.useProgram + One(WillBind(c, build)))
      && p.log == c.log + (if WillBind(c, build) then [UseProgram(id)] + BindClipCmds(a, clips) else [])
  {
  }

  /** The reallocated renderer still keeps within the configured clips. */
  lemma AllocatedForFits(c: Ctx, build: Program, clips: seq<Clip>)
    requires ClipsFit(c.r, clips)
    ensures ClipsFit(AllocatedFor(c, build, |clips|), clips)
  {
  }

  /** The cursors the steps after the bind compare against. */
  function CursorsAtDraw(c: Ctx, mesh: Mesh, build: Program): Cursors
  {
    if WillBind(c, build) then Unset else AllocatedFor(c, build, |mesh.scene.clips|).cursors
  }

  /**
   * Which cursors survive into the steps after the bind: none after a
   * bind; otherwise all of them, except that a successful reallocation
   * drops the material, vertex-buffer and geometry cursors and keeps the
   * light cursor.
   */
  lemma CursorsAtDrawCases(c: Ctx, mesh: Mesh, build: Program)
    ensures var q := CursorsAtDraw(c, mesh, build);
      && (WillBind(c, build) ==> q == Unset)
      && (!WillBind(c, build) && (c.r.program.Some? || build.errors.Some?) ==> q == c.r.cursors)
      && (!WillBind(c, build) && c.r.program.None? && build.errors.None? ==>
            q == c.r.cursors.(material := None, vertexBufs := None, geometry := None))
  {
  }

  // ---------------------------------------------------------------------
  // The steps after the bind: what each one emits, as a flat list.

  /** `[x]` when `b` holds, else nothing. */
  function Opt(b: bool, x: Cmd): seq<Cmd>
  {
    if b then [x] else []
  }

  lemma CountOpt(log: seq<Cmd>, b: bool, x: Cmd, k: Kind)
    ensures Count(log + Opt(b, x), k) == Count(log, k) + One(b && HasKind(x, k))
  {
    CountAppend(log, Opt(b, x), k);
    if b {
      CountOne(x, k);
    }
  }

  function LightCmds(q: Cursors, b: Bindings, light: Light): seq<Cmd>
  {
    var pushed := q.light != Some(light.id);
    Opt(pushed, SetView(b.viewMatrix, light.shadowView)) + Opt(pushed, SetProj(b.projMatrix, light.shadowProj))
  }

  function PointSizeCmds(b: Bindings, size: int): seq<Cmd>
  {
    if b.pointSize.Some? then [SetPointSize(b.pointSize.value, size)] else []
  }

  /** The culling call for a material: backfaces shown means culling off. */
  function CullCmd(backfaces: bool): Cmd
  {
    if backfaces then CullDisable else CullEnable
  }

  function MaterialCmds(q: Cursors, f: FrameState, b: Bindings, m: MaterialState): seq<Cmd>
  {
    if q.material != Some(m.id) then
      Opt(f.backfaces != Some(m.backfaces), CullCmd(m.backfaces))
      + Opt(f.frontface != Some(m.frontface), FrontFace(m.frontface))
      + Opt(f.lineWidth != Some(m.lineWidth), LineWidth(m.lineWidth))
      + PointSizeCmds(b, m.pointSize)
    else []
  }

  /** A vertex-buffer set is bound: combined layout, new id, buffer and attribute present. */
  predicate VertexBufsBound(b: Bindings, q: Cursors, g: GeometryState, vb: VertexBufs)
  {
    g.combined && q.vertexBufs != Some(vb.id) && vb.positionsBuf.Some? && b.position.Some?
  }

  function VertexBufsCmds(q: Cursors, b: Bindings, g: GeometryState, vb: VertexBufs): seq<Cmd>
  {
    if VertexBufsBound(b, q, g, vb) then [BindPositions(b.position.value, vb.positionsBuf, vb.quantized)] else []
  }

  function ClippableCmds(b: Bindings, clippable: bool): seq<Cmd>
  {
    if b.clippable.Some? then [SetClippable(b.clippable.value, clippable)] else []
  }

  function DecodeCmds(b: Bindings, g: GeometryState): seq<Cmd>
  {
    if b.positionsDecodeMatrix.Some? then [SetPositionsDecode(b.positionsDecodeMatrix.value, g.positionsDecodeMatrix)]
    else []
  }

  /** Binding an index buffer, if there is one. */
  function IndicesCmds(buf: Option<Buffer>): seq<Cmd>
  {
    if buf.Some? then [BindIndices(buf.value)] else []
  }

  /** Binding the geometry's own positions buffer, if the attribute resolved. */
  function PositionsCmds(b: Bindings, g: GeometryState): seq<Cmd>
  {
    if b.position.Some? then [BindPositions(b.position.value, g.positionsBuf, g.quantized)] else []
  }

  /** The buffer binds of the geometry block. */
  function BufferCmds(b: Bindings, g: GeometryState): seq<Cmd>
  {
    if g.combined then IndicesCmds(g.indicesBufCombined) else PositionsCmds(b, g) + IndicesCmds(g.indicesBuf)
  }

  function GeometryCmds(q: Cursors, b: Bindings, g: GeometryState): seq<Cmd>
  {
    if q.geometry != Some(g.id) then DecodeCmds(b, g) + BufferCmds(b, g) else []
  }

  /** An index buffer exists for the layout, so `drawElements` is called. */
  predicate DrawsElements(g: GeometryState)
  {
    if g.combined then g.indicesBufCombined.Some? else g.indicesBuf.Some?
  }

  /** No index buffer, a separate layout and raw positions: `drawArrays`. */
  predicate DrawsArrays(g: GeometryState)
  {
    !g.combined && g.indicesBuf.None? && g.positions.Some?
  }

  function DrawCmds(g: GeometryState): seq<Cmd>
  {
    if g.combined then
      (if g.indicesBufCombined.Some? then [DrawElements(g.primitive, g.indicesBufCombined.value)] else [])
    else if g.indicesBuf.Some? then [DrawElements(g.primitive, g.indicesBuf.value)]
    else if g.positions.Some? then [DrawArrays(g.positions.value.numItems)]
    else []
  }

  // ---------------------------------------------------------------------
  // Each step appends its list and updates its own cursor or frame fields.

  lemma LightStepFacts(c: Ctx, light: Light)
    ensures var d := LightStep(c, light);
      && d.r == c.r.(cursors := c.r.cursors.(light := Some(light.id)))
      && d.f == c.f
      && d.log == c.log + LightCmds(c.r.cursors, c.r.bindings, light)
  {
  }

  lemma MaterialStepFacts(c: Ctx, m: MaterialState)
    ensures var d := MaterialStep(c, m);
      && d.r == c.r.(cursors := c.r.cursors.(material := Some(m.id)))
      && d.f == (if c.r.cursors.material != Some(m.id) then
                   c.f.(backfaces := Some(m.backfaces), frontface := Some(m.frontface), lineWidth := Some(m.lineWidth))
                 else c.f)
      && d.log == c.log + MaterialCmds(c.r.cursors, c.f, c.r.bindings, m)
  {
    if c.r.cursors.material != Some(m.id) {
      var c1 := BackfacesStep(c, m.backfaces);
      var c2 := FrontfaceStep(c1, m.frontface);
      var c3 := LineWidthStep(c2, m.lineWidth);
      var o1 := Opt(c.f.backfaces != Some(m.backfaces), if m.backfaces then CullDisable else CullEnable);
      var o2 := Opt(c.f.frontface != Some(m.frontface), FrontFace(m.frontface));
      var o3 := Opt(c.f.lineWidth != Some(m.lineWidth), LineWidth(m.lineWidth));
      assert c1.log == c.log + o1;
      assert c2.log == c1.log + o2;
      assert c3.log == c2.log + o3;
      LogAssoc(c.log, o1, o2);
      LogAssoc(c.log, o1 + o2, o3);
      LogAssoc(c.log, o1 + o2 + o3, PointSizeCmds(c.r.bindings, m.pointSize));
    }
  }

  lemma VertexBufsStepFacts(c: Ctx, g: GeometryState, vb: VertexBufs)
    ensures var d := VertexBufsStep(c, g, vb);
      && d.r == (if g.combined then c.r.(cursors := c.r.cursors.(vertexBufs := Some(vb.id))) else c.r)
      && d.f == c.f.(bindArray := c.f.bindArray + |VertexBufsCmds(c.r.cursors, c.r.bindings, g, vb)|)
      && d.log == c.log + VertexBufsCmds(c.r.cursors, c.r.bindings, g, vb)
  {
  }

  lemma GeometryStepFacts(c: Ctx, g: GeometryState)
    ensures var d := GeometryStep(c, g);
      var entered := c.r.cursors.geometry != Some(g.id);
      && d.r == c.r.(cursors := c.r.cursors.(geometry := Some(g.id)))
      && d.f == c.f.(bindArray := c.f.bindArray + (if entered then |BufferCmds(c.r.bindings, g)| else 0))
      && d.log == c.log + GeometryCmds(c.r.cursors, c.r.bindings, g)
  {
    if c.r.cursors.geometry != Some(g.id) {
      var c1 := DecodeStep(c, g);
      var c2 := GeometryBuffersStep(c1, g);
      var dc := DecodeCmds(c.r.bindings, g);
      var bc := BufferCmds(c.r.bindings, g);
      assert c1 == c.(log := c.log + dc);
      assert c2.log == c1.log + bc;
      assert c2.r == c.r;
      assert c2.f == c.f.(bindArray := c.f.bindArray + |bc|);
      LogAssoc(c.log, dc, bc);
    }
  }

  lemma DrawCallStepFacts(c: Ctx, g: GeometryState)
    ensures var d := DrawCallStep(c, g);
      && d.r == c.r
      && d.f == c.f.(drawElements := c.f.drawElements + One(DrawsElements(g)),
                    drawArrays := c.f.drawArrays + One(DrawsArrays(g)))
      && d.log == c.log + DrawCmds(g)
  {
  }

  // ---------------------------------------------------------------------
  // The steps after the bind, together.

  /** Every command the steps after the bind issue, in order, from cursors `q`, frame `f` and locations `b`. */
  function FinishCmds(q: Cursors, f: FrameState, b: Bindings, mesh: Mesh, light: Light): seq<Cmd>
  {
    var g := mesh.geometry;
    LightCmds(q, b, light)
    + MaterialCmds(q, f, b, mesh.material)
    + [SetModel(b.modelMatrix, mesh.worldMatrix)]
    + VertexBufsCmds(q, b, g, mesh.vertexBufs)
    + ClippableCmds(b, mesh.clippable)
    + GeometryCmds(q, b, g)
    + DrawCmds(g)
  }

  /** The cursors after the call: every one names what was just drawn. */
  function CursorsAfter(q: Cursors, mesh: Mesh, light: Light): Cursors
  {
    Cursors(Some(light.id), Some(mesh.material.id),
            if mesh.geometry.combined then Some(mesh.vertexBufs.id) else q.vertexBufs,
            Some(mesh.geometry.id))
  }

  /** The frame after the steps that follow the bind. */
  function FrameAfter(q: Cursors, f: FrameState, b: Bindings, mesh: Mesh): FrameState
  {
    var m := mesh.material;
    var g := mesh.geometry;
    var f1 := if q.material != Some(m.id) then
                f.(backfaces := Some(m.backfaces), frontface := Some(m.frontface), lineWidth := Some(m.lineWidth))
              else f;
    f1.(textureUnit := 0,
        bindArray := f.bindArray + |VertexBufsCmds(q, b, g, mesh.vertexBufs)|
                     + (if q.geometry != Some(g.id) then |BufferCmds(b, g)| else 0),
        drawElements := f.drawElements + One(DrawsElements(g)),
        drawArrays := f.drawArrays + One(DrawsArrays(g)))
  }

  /** The steps up to the vertex buffers, which leave the bindings alone. */
  lemma FrontHalfFacts(c0: Ctx, mesh: Mesh, light: Light)
    ensures var c4 := VertexBufsStep(ModelStep(MaterialStep(LightStep(c0, light), mesh.material),
                                               mesh.worldMatrix), mesh.geometry, mesh.vertexBufs);
      var q := c0.r.cursors;
      var b := c0.r.bindings;
      var m := mesh.material;
      && c4.r.program == c0.r.program && c4.r.errors == c0.r.errors
      && c4.r.useCount == c0.r.useCount && c4.r.bindings == b
      && c4.r.cursors == q.(light := Some(light.id), material := Some(m.id),
                             vertexBufs := if mesh.geometry.combined then Some(mesh.vertexBufs.id) else q.vertexBufs)
      && c4.f == (if q.material != Some(m.id) then
                    c0.f.(backfaces := Some(m.backfaces), frontface := Some(m.frontface), lineWidth := Some(m.lineWidth))
                  else c0.f).(bindArray := c0.f.bindArray + |VertexBufsCmds(q, b, mesh.geometry, mesh.vertexBufs)|)
      && c4.log == c0.log + (LightCmds(q, b, light) + MaterialCmds(q, c0.f, b, m)
                             + [SetModel(b.modelMatrix, mesh.worldMatrix)]
                             + VertexBufsCmds(q, b, mesh.geometry, mesh.vertexBufs))
  {
    var c1 := LightStep(c0, light);
    LightStepFacts(c0, light);
    var c2 := MaterialStep(c1, mesh.material);
    MaterialStepFacts(c1, mesh.material);
    var c3 := ModelStep(c2, mesh.worldMatrix);
    VertexBufsStepFacts(c3, mesh.geometry, mesh.vertexBufs);
    var l1 := LightCmds(c0.r.cursors, c0.r.bindings, light);
    var l2 := MaterialCmds(c0.r.cursors, c0.f, c0.r.bindings, mesh.material);
    var l3 := [SetModel(c0.r.bindings.modelMatrix, mesh.worldMatrix)];
    var l4 := VertexBufsCmds(c0.r.cursors, c0.r.bindings, mesh.geometry, mesh.vertexBufs);
    LogAssoc(c0.log, l1, l2);
    LogAssoc(c0.log, l1 + l2, l3);
    LogAssoc(c0.log, l1 + l2 + l3, l4);
  }

  /** The geometry and draw steps. */
  lemma TailFacts(c5: Ctx, g: GeometryState)
    ensures var d := DrawCallStep(GeometryStep(c5, g), g);
      var q := c5.r.cursors;
      var b := c5.r.bindings;
      && d.r == c5.r.(cursors := q.(geometry := Some(g.id)))
      && d.f == c5.f.(bindArray := c5.f.bindArray + (if q.geometry != Some(g.id) then |BufferCmds(b, g)| else 0),
                     drawElements := c5.f.drawElements + One(DrawsElements(g)),
                     drawArrays := c5.f.drawArrays + One(DrawsArrays(g)))
      && d.log == c5.log + (GeometryCmds(q, b, g) + DrawCmds(g))
  {
    GeometryStepFacts(c5, g);
    DrawCallStepFacts(GeometryStep(c5, g), g);
    LogAssoc(c5.log, GeometryCmds(c5.r.cursors, c5.r.bindings, g), DrawCmds(g));
  }

  /** The clippable, geometry and draw steps. */
  lemma BackHalfFacts(c4: Ctx, mesh: Mesh)
    ensures var d := DrawCallStep(GeometryStep(ClippableStep(c4, mesh.clippable), mesh.geometry), mesh.geometry);
      var q := c4.r.cursors;
      var b := c4.r.bindings;
      var g := mesh.geometry;
      && d.r == c4.r.(cursors := q.(geometry := Some(g.id)))
      && d.f == c4.f.(bindArray := c4.f.bindArray + (if q.geometry != Some(g.id) then |BufferCmds(b, g)| else 0),
                     drawElements := c4.f.drawElements + One(DrawsElements(g)),
                     drawArrays := c4.f.drawArrays + One(DrawsArrays(g)))
      && d.log == c4.log + (ClippableCmds(b, mesh.clippable) + GeometryCmds(q, b, g) + DrawCmds(g))
  {
    var c5 := ClippableStep(c4, mesh.clippable);
    assert c5 == c4.(log := c4.log + ClippableCmds(c4.r.bindings, mesh.clippable));
    TailFacts(c5, mesh.geometry);
    var l5 := ClippableCmds(c4.r.bindings, mesh.clippable);
    var l67 := GeometryCmds(c4.r.cursors, c4.r.bindings, mesh.geometry) + DrawCmds(mesh.geometry);
    LogAssoc(c4.log, l5, l67);
    LogAssoc(l5, GeometryCmds(c4.r.cursors, c4.r.bindings, mesh.geometry), DrawCmds(mesh.geometry));
  }

  lemma FinishFacts(p: Ctx, mesh: Mesh, light: Light)
    ensures var d := Finish(p, mesh, light);
      && d.r == p.r.(cursors := CursorsAfter(p.r.cursors, mesh, light))
      && d.f == FrameAfter(p.r.cursors, p.f, p.r.bindings, mesh)
      && d.log == p.log + FinishCmds(p.r.cursors, p.f, p.r.bindings, mesh, light)
  {
    var c0 := p.(f := p.f.(textureUnit := 0));
    FrontHalfFacts(c0, mesh, light);
    var c4 := VertexBufsStep(ModelStep(MaterialStep(LightStep(c0, light), mesh.material),
                                       mesh.worldMatrix), mesh.geometry, mesh.vertexBufs);
    BackHalfFacts(c4, mesh);
    var front := LightCmds(p.r.cursors, p.r.bindings, light) + MaterialCmds(p.r.cursors, p.f, p.r.bindings, mesh.material)
                 + [SetModel(p.r.bindings.modelMatrix, mesh.worldMatrix)]
                 + VertexBufsCmds(p.r.cursors, p.r.bindings, mesh.geometry, mesh.vertexBufs);
    var back := ClippableCmds(p.r.bindings, mesh.clippable) + GeometryCmds(p.r.cursors, p.r.bindings, mesh.geometry)
                + DrawCmds(mesh.geometry);
    assert FinishCmds(p.r.cursors, p.f, p.r.bindings, mesh, light) == front + back by {
      var b := p.r.bindings;
      var q := p.r.cursors;
      var g := mesh.geometry;
      var l5 := ClippableCmds(b, mesh.clippable);
      var l6 := GeometryCmds(q, b, g);
      var l7 := DrawCmds(g);
      LogAssoc(front, l5, l6);
      LogAssoc(front, l5 + l6, l7);
    }
    LogAssoc(p.log, front, back);
  }

  /** What one draw keeps of the renderer: its program, count and bindings. */
  lemma DrawSummary(c: Ctx, mesh: Mesh, light: Light, build: Program)
    requires ClipsFit(c.r, mesh.scene.clips)
    ensures var d := DrawSpec(c, mesh, light, build);
      var a := AllocatedFor(c, build, |mesh.scene.clips|);
      && d.r.program == Some(ProgramFor(c, build))
      && d.r.useCount == (if c.r.program.None? then 0 else c.r.useCount)
      && d.r.errors == a.errors
      && d.r.bindings == a.bindings
      && ClipsFit(d.r, mesh.scene.clips)
  {
    PreparedFacts(c, mesh, build);
    FinishFacts(Prepared(c, mesh, build), mesh, light);
  }

  // ---------------------------------------------------------------------
  // One whole draw.

  /** The bind and clip uniforms `drawMesh` issues before the steps after it. */
  function BindCmds(c: Ctx, mesh: Mesh, build: Program): seq<Cmd>
    requires ClipsFit(c.r, mesh.scene.clips)
  {
    AllocatedForFits(c, build, mesh.scene.clips);
    if WillBind(c, build) then
      [UseProgram(ProgramFor(c, build).id)] + BindClipCmds(AllocatedFor(c, build, |mesh.scene.clips|), mesh.scene.clips)
    else []
  }

  /** Everything one `drawMesh` call appends to the WebGL log, in order. */
  function Issued(c: Ctx, mesh: Mesh, light: Light, build: Program): seq<Cmd>
    requires ClipsFit(c.r, mesh.scene.clips)
  {
    BindCmds(c, mesh, build)
    + FinishCmds(CursorsAtDraw(c, mesh, build), FrameBound(c, build),
                 AllocatedFor(c, build, |mesh.scene.clips|).bindings, mesh, light)
  }

  /** The frame after the bind: the program recorded and the bind counted. */
  function FrameBound(c: Ctx, build: Program): FrameState
  {
    c.f.(lastProgramId := Some(ProgramFor(c, build).id), useProgram := c.f.useProgram + One(WillBind(c, build)))
  }

  /**
   * A renderer whose program the frame already records issues no bind, and
   * the steps after it start from its own cursors, frame and locations.
   */
  lemma IssuedWithoutBind(c: Ctx, mesh: Mesh, light: Light, build: Program)
    requires ClipsFit(c.r, mesh.scene.clips)
    requires c.r.program.Some? && c.f.lastProgramId == Some(c.r.program.value.id)
    ensures Issued(c, mesh, light, build) == FinishCmds(c.r.cursors, c.f, c.r.bindings, mesh, light)
  {
    assert BindCmds(c, mesh, build) == [];
    assert FrameBound(c, build) == c.f;
  }

  /**
   * Once the cursors name the light and the material, the steps after the
   * bind start at the model matrix.
   */
  lemma FinishCmdsSettled(q: Cursors, f: FrameState, b: Bindings, mesh: Mesh, light: Light)
    requires q.light == Some(light.id) && q.material == Some(mesh.material.id)
    ensures var g := mesh.geometry;
      FinishCmds(q, f, b, mesh, light)
      == [SetModel(b.modelMatrix, mesh.worldMatrix)] + VertexBufsCmds(q, b, g, mesh.vertexBufs)
         + ClippableCmds(b, mesh.clippable) + GeometryCmds(q, b, g) + DrawCmds(g)
  {
    assert LightCmds(q, b, light) == [];
    assert MaterialCmds(q, f, b, mesh.material) == [];
  }

  /** What one draw does to the renderer, the frame and the log. */
  lemma DrawFacts(c: Ctx, mesh: Mesh, light: Light, build: Program)
    requires ClipsFit(c.r, mesh.scene.clips)
    ensures var d := DrawSpec(c, mesh, light, build);
      var a := AllocatedFor(c, build, |mesh.scene.clips|);
      var q := CursorsAtDraw(c, mesh, build);
      && d.r == a.(cursors := CursorsAfter(q, mesh, light))
      && d.f == FrameAfter(q, FrameBound(c, build), a.bindings, mesh)
      && d.log == c.log + Issued(c, mesh, light, build)
  {
    var p := Prepared(c, mesh, build);
    PreparedFacts(c, mesh, build);
    FinishFacts(p, mesh, light);
    LogAssoc(c.log, BindCmds(c, mesh, build), FinishCmds(p.r.cursors, p.f, p.r.bindings, mesh, light));
  }

  // ---------------------------------------------------------------------
  // Counting: what each block issues of a kind `k`, as a closed form in `k`.

  lemma CountOpts(b1: bool, x1: Cmd, b2: bool, x2: Cmd, b3: bool, x3: Cmd, tail: seq<Cmd>, k: Kind)
    ensures Count(Opt(b1, x1) + Opt(b2, x2) + Opt(b3, x3) + tail, k)
         == One(b1 && HasKind(x1, k)) + One(b2 && HasKind(x2, k)) + One(b3 && HasKind(x3, k)) + Count(tail, k)
  {
    CountOpt([], b1, x1, k);
    assert [] + Opt(b1, x1) == Opt(b1, x1);
    CountOpt(Opt(b1, x1), b2, x2, k);
    CountOpt(Opt(b1, x1) + Opt(b2, x2), b3, x3, k);
    CountAppend(Opt(b1, x1) + Opt(b2, x2) + Opt(b3, x3), tail, k);
  }

  lemma OptCount(b: bool, x: Cmd, k: Kind)
    ensures Count(Opt(b, x), k) == One(b && HasKind(x, k))
  {
    if b {
      CountOne(x, k);
    }
  }

  lemma FourSum(l1: seq<Cmd>, l2: seq<Cmd>, l3: seq<Cmd>, l4: seq<Cmd>, k: Kind, n1: nat, n2: nat, n3: nat, n4: nat)
    requires Count(l1, k) == n1 && Count(l2, k) == n2 && Count(l3, k) == n3 && Count(l4, k) == n4
    ensures Count(l1 + l2 + l3 + l4, k) == n1 + n2 + n3 + n4
  {
    CountAppend(l1 + l2 + l3, l4, k);
    CountAppend(l1 + l2, l3, k);
    CountAppend(l1, l2, k);
  }

  /** The bind issues one `useProgram` when it happens (clip uniforms aside). */
  function BindCount(c: Ctx, build: Program, k: Kind): nat
  {
    if k == ProgramBind then One(WillBind(c, build)) else 0
  }

  lemma BindCmdsCount(c: Ctx, mesh: Mesh, build: Program, k: Kind)
    requires ClipsFit(c.r, mesh.scene.clips)
    requires !IsClipKind(k)
    ensures Count(BindCmds(c, mesh, build), k) == BindCount(c, build, k)
  {
    AllocatedForFits(c, build, mesh.scene.clips);
    if WillBind(c, build) {
      var clips := mesh.scene.clips;
      var a := AllocatedFor(c, build, |clips|);
      var cl := BindClipCmds(a, clips);
      var id := ProgramFor(c, build).id;
      CountAppend([UseProgram(id)], cl, k);
      CountOne(UseProgram(id), k);
      if |clips| > 0 {
        ClipUniformsOnly(a.bindings.clips, clips);
      }
      ClipCmdsAbsent(cl, k);
    }
  }

  /** The view and projection matrices, once each when the light changes. */
  function LightCount(q: Cursors, light: Light, k: Kind): nat
  {
    if k == ViewUniform || k == ProjUniform then One(q.light != Some(light.id)) else 0
  }

  lemma LightCmdsCount(q: Cursors, b: Bindings, light: Light, k: Kind)
    ensures Count(LightCmds(q, b, light), k) == LightCount(q, light, k)
  {
    var pushed := q.light != Some(light.id);
    CountOpts(pushed, SetView(b.viewMatrix, light.shadowView), pushed, SetProj(b.projMatrix, light.shadowProj),
              false, CullEnable, [], k);
    assert LightCmds(q, b, light) == Opt(pushed, SetView(b.viewMatrix, light.shadowView))
                                     + Opt(pushed, SetProj(b.projMatrix, light.shadowProj)) + Opt(false, CullEnable) + [];
  }

  /** Each frame field's call when the material changes and the field differs. */
  function MaterialCount(q: Cursors, f: FrameState, b: Bindings, m: MaterialState, k: Kind): nat
  {
    var changed := q.material != Some(m.id);
    if k == CullOff then One(changed && f.backfaces != Some(m.backfaces) && m.backfaces)
    else if k == CullOn then One(changed && f.backfaces != Some(m.backfaces) && !m.backfaces)
    else if k == Winding then One(changed && f.frontface != Some(m.frontface))
    else if k == Width then One(changed && f.lineWidth != Some(m.lineWidth))
    else if k == PointSizeUniform then One(changed && b.pointSize.Some?)
    else 0
  }

  lemma MaterialTally(cull: bool, wind: bool, width: bool, size: bool, m: MaterialState, k: Kind)
    ensures One(cull && HasKind(CullCmd(m.backfaces), k)) + One(wind && HasKind(FrontFace(m.frontface), k))
            + One(width && HasKind(LineWidth(m.lineWidth), k)) + One(size && k == PointSizeUniform)
         == (if k == CullOff then One(cull && m.backfaces)
             else if k == CullOn then One(cull && !m.backfaces)
             else if k == Winding then One(wind)
             else if k == Width then One(width)
             else if k == PointSizeUniform then One(size)
             else 0)
  {
  }

  /** The material block's calls, abstracted over the flags that select them. */
  lemma MaterialOptsCount(cull: bool, wind: bool, width: bool, m: MaterialState, ps: seq<Cmd>, size: bool, k: Kind)
    requires Count(ps, k) == One(size && k == PointSizeUniform)
    ensures Count(Opt(cull, CullCmd(m.backfaces)) + Opt(wind, FrontFace(m.frontface)) + Opt(width, LineWidth(m.lineWidth)) + ps, k)
         == (if k == CullOff then One(cull && m.backfaces)
             else if k == CullOn then One(cull && !m.backfaces)
             else if k == Winding then One(wind)
             else if k == Width then One(width)
             else if k == PointSizeUniform then One(size)
             else 0)
  {
    OptCount(cull, CullCmd(m.backfaces), k);
    OptCount(wind, FrontFace(m.frontface), k);
    OptCount(width, LineWidth(m.lineWidth), k);
    FourSum(Opt(cull, CullCmd(m.backfaces)), Opt(wind, FrontFace(m.frontface)), Opt(width, LineWidth(m.lineWidth)), ps, k,
            One(cull && HasKind(CullCmd(m.backfaces), k)), One(wind && HasKind(FrontFace(m.frontface), k)),
            One(width && HasKind(LineWidth(m.lineWidth), k)), One(size && k == PointSizeUniform));
    MaterialTally(cull, wind, width, size, m, k);
  }

  lemma PointSizeCmdsCount(b: Bindings, size: int, k: Kind)
    ensures Count(PointSizeCmds(b, size), k) == One(b.pointSize.Some? && k == PointSizeUniform)
  {
    if b.pointSize.Some? {
      CountOne(SetPointSize(b.pointSize.value, size), k);
    }
  }

  lemma MaterialCmdsCount(q: Cursors, f: FrameState, b: Bindings, m: MaterialState, k: Kind)
    ensures Count(MaterialCmds(q, f, b, m), k) == MaterialCount(q, f, b, m, k)
  {
    if q.material != Some(m.id) {
      PointSizeCmdsCount(b, m.pointSize, k);
      MaterialOptsCount(f.backfaces != Some(m.backfaces), f.frontface != Some(m.frontface),
                        f.lineWidth != Some(m.lineWidth), m, PointSizeCmds(b, m.pointSize), b.pointSize.Some?, k);
    }
  }

  function VertexBufsCount(q: Cursors, b: Bindings, g: GeometryState, vb: VertexBufs, k: Kind): nat
  {
    if k == PositionsBind then One(VertexBufsBound(b, q, g, vb)) else 0
  }

  lemma VertexBufsCmdsCount(q: Cursors, b: Bindings, g: GeometryState, vb: VertexBufs, k: Kind)
    ensures Count(VertexBufsCmds(q, b, g, vb), k) == VertexBufsCount(q, b, g, vb, k)
    ensures |VertexBufsCmds(q, b, g, vb)| == One(VertexBufsBound(b, q, g, vb))
  {
    if VertexBufsBound(b, q, g, vb) {
      CountOne(BindPositions(b.position.value, vb.positionsBuf, vb.quantized), k);
    }
  }

  function ClippableCount(b: Bindings, k: Kind): nat
  {
    if k == ClippableUniform then One(b.clippable.Some?) else 0
  }

  lemma ClippableCmdsCount(b: Bindings, clippable: bool, k: Kind)
    ensures Count(ClippableCmds(b, clippable), k) == ClippableCount(b, k)
  {
    if b.clippable.Some? {
      CountOne(SetClippable(b.clippable.value, clippable), k);
    }
  }

  /** The layout's index buffer, if it has one. */
  function IndexBuffer(g: GeometryState): Option<Buffer>
  {
    if g.combined then g.indicesBufCombined else g.indicesBuf
  }

  /** The buffer binds: positions for a separate layout, then the indices. */
  function BufferCount(b: Bindings, g: GeometryState, k: Kind): nat
  {
    if k == PositionsBind then One(!g.combined && b.position.Some?)
    else if k == IndicesBind then One(IndexBuffer(g).Some?)
    else 0
  }

  lemma IndicesCmdsCount(buf: Option<Buffer>, k: Kind)
    ensures Count(IndicesCmds(buf), k) == (if k == IndicesBind then One(buf.Some?) else 0)
    ensures |IndicesCmds(buf)| == One(buf.Some?)
  {
    if buf.Some? {
      CountOne(BindIndices(buf.value), k);
    }
  }

  lemma PositionsCmdsCount(b: Bindings, g: GeometryState, k: Kind)
    ensures Count(PositionsCmds(b, g), k) == (if k == PositionsBind then One(b.position.Some?) else 0)
    ensures |PositionsCmds(b, g)| == One(b.position.Some?)
  {
    if b.position.Some? {
      CountOne(BindPositions(b.position.value, g.positionsBuf, g.quantized), k);
    }
  }

  lemma TwoSum(l1: seq<Cmd>, l2: seq<Cmd>, k: Kind, n1: nat, n2: nat)
    requires Count(l1, k) == n1 && Count(l2, k) == n2
    ensures Count(l1 + l2, k) == n1 + n2
  {
    CountAppend(l1, l2, k);
  }

  lemma BufferCmdsCount(b: Bindings, g: GeometryState, k: Kind)
    ensures Count(BufferCmds(b, g), k) == BufferCount(b, g, k)
    ensures |BufferCmds(b, g)| == BufferCount(b, g, PositionsBind) + BufferCount(b, g, IndicesBind)
  {
    if g.combined {
      IndicesCmdsCount(g.indicesBufCombined, k);
    } else {
      PositionsCmdsCount(b, g, k);
      IndicesCmdsCount(g.indicesBuf, k);
      TwoSum(PositionsCmds(b, g), IndicesCmds(g.indicesBuf), k,
             if k == PositionsBind then One(b.position.Some?) else 0, if k == IndicesBind then One(g.indicesBuf.Some?) else 0);
    }
  }

  /** Entering a new geometry: its decode matrix and buffer binds. */
  function GeometryCount(q: Cursors, b: Bindings, g: GeometryState, k: Kind): nat
  {
    var entered := q.geometry != Some(g.id);
    if k == DecodeUniform then One(entered && b.positionsDecodeMatrix.Some?)
    else if k == PositionsBind then One(entered && !g.combined && b.position.Some?)
    else if k == IndicesBind then One(entered && IndexBuffer(g).Some?)
    else 0
  }

  lemma DecodeCmdsCount(b: Bindings, g: GeometryState, k: Kind)
    ensures Count(DecodeCmds(b, g), k) == if k == DecodeUniform then One(b.positionsDecodeMatrix.Some?) else 0
  {
    if b.positionsDecodeMatrix.Some? {
      CountOne(SetPositionsDecode(b.positionsDecodeMatrix.value, g.positionsDecodeMatrix), k);
    }
  }

  lemma GeometryCmdsCount(q: Cursors, b: Bindings, g: GeometryState, k: Kind)
    ensures Count(GeometryCmds(q, b, g), k) == GeometryCount(q, b, g, k)
  {
    if q.geometry != Some(g.id) {
      DecodeCmdsCount(b, g, k);
      BufferCmdsCount(b, g, k);
      TwoSum(DecodeCmds(b, g), BufferCmds(b, g), k,
             if k == DecodeUniform then One(b.positionsDecodeMatrix.Some?) else 0, BufferCount(b, g, k));
    }
  }

  function DrawCount(g: GeometryState, k: Kind): nat
  {
    if k == IndexedDraw then One(DrawsElements(g)) else if k == ArrayDraw then One(DrawsArrays(g)) else 0
  }

  lemma DrawCmdsCount(g: GeometryState, k: Kind)
    ensures Count(DrawCmds(g), k) == DrawCount(g, k)
  {
    if DrawCmds(g) != [] {
      assert DrawCmds(g) == [DrawCmds(g)[0]];
      CountOne(DrawCmds(g)[0], k);
    }
  }

  lemma SevenSum(l1: seq<Cmd>, l2: seq<Cmd>, l3: seq<Cmd>, l4: seq<Cmd>, l5: seq<Cmd>, l6: seq<Cmd>, l7: seq<Cmd>,
                 k: Kind, n1: nat, n2: nat, n3: nat, n4: nat, n5: nat, n6: nat, n7: nat)
    requires Count(l1, k) == n1 && Count(l2, k) == n2 && Count(l3, k) == n3 && Count(l4, k) == n4
    requires Count(l5, k) == n5 && Count(l6, k) == n6 && Count(l7, k) == n7
    ensures Count(l1 + l2 + l3 + l4 + l5 + l6 + l7, k) == n1 + n2 + n3 + n4 + n5 + n6 + n7
  {
    CountAppend(l1 + l2 + l3 + l4 + l5 + l6, l7, k);
    CountAppend(l1 + l2 + l3 + l4 + l5, l6, k);
    CountAppend(l1 + l2 + l3 + l4, l5, k);
    CountAppend(l1 + l2 + l3, l4, k);
    CountAppend(l1 + l2, l3, k);
    CountAppend(l1, l2, k);
  }

  /**
   * What the steps after the bind issue of kind `k`, from the cursors `q`,
   * frame `f` and locations `b` they start from: a reference count, block
   * by block, that names the condition under which each call is made.
   */
  function FinishCount(q: Cursors, f: FrameState, b: Bindings, mesh: Mesh, light: Light, k: Kind): nat
  {
    var g := mesh.geometry;
    LightCount(q, light, k) + MaterialCount(q, f, b, mesh.material, k) + One(k == ModelUniform)
    + VertexBufsCount(q, b, g, mesh.vertexBufs, k) + ClippableCount(b, k) + GeometryCount(q, b, g, k)
    + DrawCount(g, k)
  }

  lemma FinishCmdsCount(q: Cursors, f: FrameState, b: Bindings, mesh: Mesh, light: Light, k: Kind)
    ensures Count(FinishCmds(q, f, b, mesh, light), k) == FinishCount(q, f, b, mesh, light, k)
  {
    var g := mesh.geometry;
    LightCmdsCount(q, b, light, k);
    MaterialCmdsCount(q, f, b, mesh.material, k);
    CountOne(SetModel(b.modelMatrix, mesh.worldMatrix), k);
    VertexBufsCmdsCount(q, b, g, mesh.vertexBufs, k);
    ClippableCmdsCount(b, mesh.clippable, k);
    GeometryCmdsCount(q, b, g, k);
    DrawCmdsCount(g, k);
    SevenSum(LightCmds(q, b, light), MaterialCmds(q, f, b, mesh.material), [SetModel(b.modelMatrix, mesh.worldMatrix)],
             VertexBufsCmds(q, b, g, mesh.vertexBufs), ClippableCmds(b, mesh.clippable), GeometryCmds(q, b, g),
             DrawCmds(g), k,
             LightCount(q, light, k), MaterialCount(q, f, b, mesh.material, k), One(k == ModelUniform),
             VertexBufsCount(q, b, g, mesh.vertexBufs, k), ClippableCount(b, k), GeometryCount(q, b, g, k),
             DrawCount(g, k));
  }

  /**
   * The count of any kind other than the clip uniforms over a whole call:
   * the bind, then the blocks after it, from the cursors, frame and
   * locations the bind leaves.
   */
  lemma IssuedCount(c: Ctx, mesh: Mesh, light: Light, build: Program, k: Kind)
    requires ClipsFit(c.r, mesh.scene.clips)
    requires !IsClipKind(k)
    ensures Count(Issued(c, mesh, light, build), k)
         == BindCount(c, build, k)
            + FinishCount(CursorsAtDraw(c, mesh, build), FrameBound(c, build),
                          AllocatedFor(c, build, |mesh.scene.clips|).bindings, mesh, light, k)
  {
    var q := CursorsAtDraw(c, mesh, build);
    var f := FrameBound(c, build);
    var b := AllocatedFor(c, build, |mesh.scene.clips|).bindings;
    BindCmdsCount(c, mesh, build, k);
    FinishCmdsCount(q, f, b, mesh, light, k);
    TwoSum(BindCmds(c, mesh, build), FinishCmds(q, f, b, mesh, light), k,
           BindCount(c, build, k), FinishCount(q, f, b, mesh, light, k));
  }
}
