/**
 * The promises of one `drawMesh` call, stated over everything it appends
 * to the WebGL log (`Issued`) and the state it leaves (`DrawSpec`): what is
 * issued only on a change, what is issued exactly once, and what a second
 * call can skip.
 *
 * Throughout, `q` are the cursors the call compares against once the
 * program is bound (`CursorsAtDraw`), `b` the locations it resolved
 * (`AllocatedFor`) and `d` the state after the call.
 */
module ShadowDrawProperties {
  import opened Wrappers
  import opened ShadowTypes
  import opened ShadowProtocol
  import opened ShadowProtocolProofs

  // ---------------------------------------------------------------------
  // The reference count, kind by kind.

  // Each lemma below evaluates `FinishCount` at one kind. They hold by
  // definition; they are stated separately, one or two kinds at a time, so
  // that each property below asks the verifier to evaluate only the kinds
  // it is about.

  lemma BindKind(q: Cursors, f: FrameState, b: Bindings, mesh: Mesh, light: Light)
    ensures FinishCount(q, f, b, mesh, light, ProgramBind) == 0
  {
  }

  lemma LightKinds(q: Cursors, f: FrameState, b: Bindings, mesh: Mesh, light: Light)
    ensures FinishCount(q, f, b, mesh, light, ViewUniform) == One(q.light != Some(light.id))
    ensures FinishCount(q, f, b, mesh, light, ProjUniform) == One(q.light != Some(light.id))
  {
  }

  lemma ModelKind(q: Cursors, f: FrameState, b: Bindings, mesh: Mesh, light: Light)
    ensures FinishCount(q, f, b, mesh, light, ModelUniform) == 1
  {
  }

  lemma ClippableKind(q: Cursors, f: FrameState, b: Bindings, mesh: Mesh, light: Light)
    ensures FinishCount(q, f, b, mesh, light, ClippableUniform) == One(b.clippable.Some?)
  {
  }

  lemma CullKinds(q: Cursors, f: FrameState, b: Bindings, mesh: Mesh, light: Light)
    ensures var m := mesh.material;
      var cull := q.material != Some(m.id) && f.backfaces != Some(m.backfaces);
      && FinishCount(q, f, b, mesh, light, CullOff) == One(cull && m.backfaces)
      && FinishCount(q, f, b, mesh, light, CullOn) == One(cull && !m.backfaces)
  {
  }

  lemma WindingKind(q: Cursors, f: FrameState, b: Bindings, mesh: Mesh, light: Light)
    ensures var m := mesh.material;
      FinishCount(q, f, b, mesh, light, Winding) == One(q.material != Some(m.id) && f.frontface != Some(m.frontface))
  {
  }

  lemma WidthKind(q: Cursors, f: FrameState, b: Bindings, mesh: Mesh, light: Light)
    ensures var m := mesh.material;
      FinishCount(q, f, b, mesh, light, Width) == One(q.material != Some(m.id) && f.lineWidth != Some(m.lineWidth))
  {
  }

  lemma PointSizeKind(q: Cursors, f: FrameState, b: Bindings, mesh: Mesh, light: Light)
    ensures FinishCount(q, f, b, mesh, light, PointSizeUniform)
         == One(q.material != Some(mesh.material.id) && b.pointSize.Some?)
  {
  }

  lemma DecodeKind(q: Cursors, f: FrameState, b: Bindings, mesh: Mesh, light: Light)
    ensures FinishCount(q, f, b, mesh, light, DecodeUniform)
         == One(q.geometry != Some(mesh.geometry.id) && b.positionsDecodeMatrix.Some?)
  {
  }

  lemma IndicesKind(q: Cursors, f: FrameState, b: Bindings, mesh: Mesh, light: Light)
    ensures FinishCount(q, f, b, mesh, light, IndicesBind)
         == One(q.geometry != Some(mesh.geometry.id) && IndexBuffer(mesh.geometry).Some?)
  {
  }

  lemma PositionsKind(q: Cursors, f: FrameState, b: Bindings, mesh: Mesh, light: Light)
    ensures var g := mesh.geometry;
      FinishCount(q, f, b, mesh, light, PositionsBind)
      == One(VertexBufsBound(b, q, g, mesh.vertexBufs)) + One(q.geometry != Some(g.id) && !g.combined && b.position.Some?)
  {
  }

  lemma IndexedDrawKind(q: Cursors, f: FrameState, b: Bindings, mesh: Mesh, light: Light)
    ensures FinishCount(q, f, b, mesh, light, IndexedDraw) == One(DrawsElements(mesh.geometry))
  {
  }

  lemma ArrayDrawKind(q: Cursors, f: FrameState, b: Bindings, mesh: Mesh, light: Light)
    ensures FinishCount(q, f, b, mesh, light, ArrayDraw) == One(DrawsArrays(mesh.geometry))
  {
  }

  // ---------------------------------------------------------------------
  // The program (shadowRenderer.js:56-67, 187-223).

  /** The program is bound exactly when the frame last bound another one. */
  lemma DrawBindsOnSwitch(c: Ctx, mesh: Mesh, light: Light, build: Program)
    requires ClipsFit(c.r, mesh.scene.clips)
    ensures Count(Issued(c, mesh, light, build), ProgramBind) == One(WillBind(c, build))
  {
    IssuedCount(c, mesh, light, build, ProgramBind);
    BindKind(CursorsAtDraw(c, mesh, build), FrameBound(c, build),
             AllocatedFor(c, build, |mesh.scene.clips|).bindings, mesh, light);
  }

  /**
   * A bind comes first, followed by the clip uniforms, and leaves every
   * cursor unset; `useProgram` is counted once per bind, and the frame
   * then records the program either way.
   */
  lemma DrawRecordsProgram(c: Ctx, mesh: Mesh, light: Light, build: Program)
    requires ClipsFit(c.r, mesh.scene.clips)
    ensures var d := DrawSpec(c, mesh, light, build);
      && d.f.useProgram == c.f.useProgram + One(WillBind(c, build))
      && d.f.lastProgramId == Some(ProgramFor(c, build).id)
      && d.r.program == Some(ProgramFor(c, build))
    ensures WillBind(c, build) ==>
              && [UseProgram(ProgramFor(c, build).id)]
                 + BindClipCmds(AllocatedFor(c, build, |mesh.scene.clips|), mesh.scene.clips)
                 <= Issued(c, mesh, light, build)
              && CursorsAtDraw(c, mesh, build) == Unset
  {
    DrawFacts(c, mesh, light, build);
  }

  // ---------------------------------------------------------------------
  // The light (shadowRenderer.js:68-72).

  /** View and projection matrices go out once each, and only for a new light. */
  lemma DrawPushesLightOnChange(c: Ctx, mesh: Mesh, light: Light, build: Program)
    requires ClipsFit(c.r, mesh.scene.clips)
    ensures var n := One(CursorsAtDraw(c, mesh, build).light != Some(light.id));
      && Count(Issued(c, mesh, light, build), ViewUniform) == n
      && Count(Issued(c, mesh, light, build), ProjUniform) == n
  {
    IssuedCount(c, mesh, light, build, ViewUniform);
    IssuedCount(c, mesh, light, build, ProjUniform);
    LightKinds(CursorsAtDraw(c, mesh, build), FrameBound(c, build),
               AllocatedFor(c, build, |mesh.scene.clips|).bindings, mesh, light);
  }

  // ---------------------------------------------------------------------
  // The material (shadowRenderer.js:75-102).

  /**
   * For a new material, culling is switched only when the frame holds the
   * other setting, and then in the material's direction; for the same
   * material it is left alone.
   */
  lemma DrawSetsCullingOnChange(c: Ctx, mesh: Mesh, light: Light, build: Program)
    requires ClipsFit(c.r, mesh.scene.clips)
    ensures var m := mesh.material;
      var cull := CursorsAtDraw(c, mesh, build).material != Some(m.id) && c.f.backfaces != Some(m.backfaces);
      && Count(Issued(c, mesh, light, build), CullOff) == One(cull && m.backfaces)
      && Count(Issued(c, mesh, light, build), CullOn) == One(cull && !m.backfaces)
  {
    IssuedCount(c, mesh, light, build, CullOff);
    IssuedCount(c, mesh, light, build, CullOn);
    CullKinds(CursorsAtDraw(c, mesh, build), FrameBound(c, build),
              AllocatedFor(c, build, |mesh.scene.clips|).bindings, mesh, light);
  }

  /** The winding is set only for a new material whose winding the frame does not hold. */
  lemma DrawSetsWindingOnChange(c: Ctx, mesh: Mesh, light: Light, build: Program)
    requires ClipsFit(c.r, mesh.scene.clips)
    ensures var m := mesh.material;
      Count(Issued(c, mesh, light, build), Winding)
      == One(CursorsAtDraw(c, mesh, build).material != Some(m.id) && c.f.frontface != Some(m.frontface))
  {
    IssuedCount(c, mesh, light, build, Winding);
    WindingKind(CursorsAtDraw(c, mesh, build), FrameBound(c, build),
                AllocatedFor(c, build, |mesh.scene.clips|).bindings, mesh, light);
  }

  /** The line width is set only for a new material whose width the frame does not hold. */
  lemma DrawSetsLineWidthOnChange(c: Ctx, mesh: Mesh, light: Light, build: Program)
    requires ClipsFit(c.r, mesh.scene.clips)
    ensures var m := mesh.material;
      Count(Issued(c, mesh, light, build), Width)
      == One(CursorsAtDraw(c, mesh, build).material != Some(m.id) && c.f.lineWidth != Some(m.lineWidth))
  {
    IssuedCount(c, mesh, light, build, Width);
    WidthKind(CursorsAtDraw(c, mesh, build), FrameBound(c, build),
              AllocatedFor(c, build, |mesh.scene.clips|).bindings, mesh, light);
  }

  /**
   * After a new material the frame holds its culling, winding and line
   * width; after the same material the frame is as it was. Either way the
   * light and material cursors name what was drawn.
   */
  lemma DrawRecordsMaterial(c: Ctx, mesh: Mesh, light: Light, build: Program)
    requires ClipsFit(c.r, mesh.scene.clips)
    ensures var m := mesh.material;
      var d := DrawSpec(c, mesh, light, build);
      && (CursorsAtDraw(c, mesh, build).material != Some(m.id) ==>
            d.f.backfaces == Some(m.backfaces) && d.f.frontface == Some(m.frontface)
            && d.f.lineWidth == Some(m.lineWidth))
      && (CursorsAtDraw(c, mesh, build).material == Some(m.id) ==>
            d.f.backfaces == c.f.backfaces && d.f.frontface == c.f.frontface && d.f.lineWidth == c.f.lineWidth)
      && d.r.cursors.light == Some(light.id)
      && d.r.cursors.material == Some(m.id)
  {
    DrawFacts(c, mesh, light, build);
  }

  /**
   * `_uPointSize` is never resolved, so a renderer that has no location
   * for it never sets the point size.
   */
  lemma DrawNeverPushesPointSize(c: Ctx, mesh: Mesh, light: Light, build: Program)
    requires ClipsFit(c.r, mesh.scene.clips)
    requires c.r.bindings.pointSize.None?
    ensures Count(Issued(c, mesh, light, build), PointSizeUniform) == 0
  {
    IssuedCount(c, mesh, light, build, PointSizeUniform);
    PointSizeKind(CursorsAtDraw(c, mesh, build), FrameBound(c, build),
                  AllocatedFor(c, build, |mesh.scene.clips|).bindings, mesh, light);
  }

  /** Drawing never gives a renderer a point-size location it lacked. */
  lemma DrawKeepsPointSizeUnresolved(c: Ctx, mesh: Mesh, light: Light, build: Program)
    requires ClipsFit(c.r, mesh.scene.clips)
    requires c.r.bindings.pointSize.None?
    ensures DrawSpec(c, mesh, light, build).r.bindings.pointSize.None?
  {
    DrawSummary(c, mesh, light, build);
  }

  // ---------------------------------------------------------------------
  // The per-mesh uniforms (shadowRenderer.js:103, 114-116).

  /** Every call sets the model matrix exactly once. */
  lemma DrawModelMatrixOnce(c: Ctx, mesh: Mesh, light: Light, build: Program)
    requires ClipsFit(c.r, mesh.scene.clips)
    ensures Count(Issued(c, mesh, light, build), ModelUniform) == 1
  {
    IssuedCount(c, mesh, light, build, ModelUniform);
    ModelKind(CursorsAtDraw(c, mesh, build), FrameBound(c, build),
              AllocatedFor(c, build, |mesh.scene.clips|).bindings, mesh, light);
  }

  /** Every call sets the clippable flag once if the program has it, and never otherwise. */
  lemma DrawClippableOnce(c: Ctx, mesh: Mesh, light: Light, build: Program)
    requires ClipsFit(c.r, mesh.scene.clips)
    ensures Count(Issued(c, mesh, light, build), ClippableUniform)
         == One(AllocatedFor(c, build, |mesh.scene.clips|).bindings.clippable.Some?)
  {
    IssuedCount(c, mesh, light, build, ClippableUniform);
    ClippableKind(CursorsAtDraw(c, mesh, build), FrameBound(c, build),
                  AllocatedFor(c, build, |mesh.scene.clips|).bindings, mesh, light);
  }

  // ---------------------------------------------------------------------
  // The buffers (shadowRenderer.js:104-113, 117-137).

  /** The positions decode matrix goes out only on entering a new geometry that has the uniform. */
  lemma DrawPushesDecodeOnChange(c: Ctx, mesh: Mesh, light: Light, build: Program)
    requires ClipsFit(c.r, mesh.scene.clips)
    ensures Count(Issued(c, mesh, light, build), DecodeUniform)
         == One(CursorsAtDraw(c, mesh, build).geometry != Some(mesh.geometry.id)
                && AllocatedFor(c, build, |mesh.scene.clips|).bindings.positionsDecodeMatrix.Some?)
  {
    IssuedCount(c, mesh, light, build, DecodeUniform);
    DecodeKind(CursorsAtDraw(c, mesh, build), FrameBound(c, build),
               AllocatedFor(c, build, |mesh.scene.clips|).bindings, mesh, light);
  }

  /** The index buffer is bound only on entering a new geometry that has one. */
  lemma DrawBindsIndicesOnChange(c: Ctx, mesh: Mesh, light: Light, build: Program)
    requires ClipsFit(c.r, mesh.scene.clips)
    ensures Count(Issued(c, mesh, light, build), IndicesBind)
         == One(CursorsAtDraw(c, mesh, build).geometry != Some(mesh.geometry.id) && IndexBuffer(mesh.geometry).Some?)
  {
    IssuedCount(c, mesh, light, build, IndicesBind);
    IndicesKind(CursorsAtDraw(c, mesh, build), FrameBound(c, build),
                AllocatedFor(c, build, |mesh.scene.clips|).bindings, mesh, light);
  }

  /**
   * Positions are bound at most twice: the combined vertex buffer for a
   * new vertex-buffer set, and a separate layout's own positions on
   * entering a new geometry.
   */
  lemma DrawBindsPositionsOnChange(c: Ctx, mesh: Mesh, light: Light, build: Program)
    requires ClipsFit(c.r, mesh.scene.clips)
    ensures var q := CursorsAtDraw(c, mesh, build);
      var b := AllocatedFor(c, build, |mesh.scene.clips|).bindings;
      var g := mesh.geometry;
      Count(Issued(c, mesh, light, build), PositionsBind)
      == One(VertexBufsBound(b, q, g, mesh.vertexBufs)) + One(q.geometry != Some(g.id) && !g.combined && b.position.Some?)
  {
    IssuedCount(c, mesh, light, build, PositionsBind);
    PositionsKind(CursorsAtDraw(c, mesh, build), FrameBound(c, build),
                  AllocatedFor(c, build, |mesh.scene.clips|).bindings, mesh, light);
  }

  /**
   * `frame.bindArray` goes up by one per buffer bind, and the geometry and
   * vertex-buffer cursors then name what was drawn.
   */
  lemma DrawCountsBufferBinds(c: Ctx, mesh: Mesh, light: Light, build: Program)
    requires ClipsFit(c.r, mesh.scene.clips)
    ensures var q := CursorsAtDraw(c, mesh, build);
      var b := AllocatedFor(c, build, |mesh.scene.clips|).bindings;
      var g := mesh.geometry;
      var d := DrawSpec(c, mesh, light, build);
      && d.f.bindArray
         == c.f.bindArray + One(VertexBufsBound(b, q, g, mesh.vertexBufs))
            + (if q.geometry != Some(g.id) then One(!g.combined && b.position.Some?) + One(IndexBuffer(g).Some?) else 0)
      && d.r.cursors.geometry == Some(g.id)
      && (g.combined ==> d.r.cursors.vertexBufs == Some(mesh.vertexBufs.id))
      && (!g.combined ==> d.r.cursors.vertexBufs == q.vertexBufs)
  {
    var q := CursorsAtDraw(c, mesh, build);
    var b := AllocatedFor(c, build, |mesh.scene.clips|).bindings;
    DrawFacts(c, mesh, light, build);
    VertexBufsCmdsCount(q, b, mesh.geometry, mesh.vertexBufs, PositionsBind);
    BufferCmdsCount(b, mesh.geometry, PositionsBind);
  }

  // ---------------------------------------------------------------------
  // The draw call (shadowRenderer.js:138-153).

  /**
   * At most one draw call: `drawElements` when the layout has an index
   * buffer, `drawArrays` when a separate layout has none but has raw
   * positions. A combined layout without indices draws nothing.
   */
  lemma DrawIssuesAtMostOneDraw(c: Ctx, mesh: Mesh, light: Light, build: Program)
    requires ClipsFit(c.r, mesh.scene.clips)
    ensures var g := mesh.geometry;
      var issued := Issued(c, mesh, light, build);
      && Count(issued, IndexedDraw) == One(IndexBuffer(g).Some?)
      && Count(issued, ArrayDraw) == One(!g.combined && g.indicesBuf.None? && g.positions.Some?)
      && Count(issued, IndexedDraw) + Count(issued, ArrayDraw) <= 1
      && (g.combined && g.indicesBufCombined.None? ==> Count(issued, IndexedDraw) + Count(issued, ArrayDraw) == 0)
  {
    IssuedCount(c, mesh, light, build, IndexedDraw);
    IssuedCount(c, mesh, light, build, ArrayDraw);
    IndexedDrawKind(CursorsAtDraw(c, mesh, build), FrameBound(c, build),
                    AllocatedFor(c, build, |mesh.scene.clips|).bindings, mesh, light);
    ArrayDrawKind(CursorsAtDraw(c, mesh, build), FrameBound(c, build),
                  AllocatedFor(c, build, |mesh.scene.clips|).bindings, mesh, light);
  }

  /** Each draw call is counted in the frame, and the texture unit is reset. */
  lemma DrawCountsDrawCalls(c: Ctx, mesh: Mesh, light: Light, build: Program)
    requires ClipsFit(c.r, mesh.scene.clips)
    ensures var g := mesh.geometry;
      var d := DrawSpec(c, mesh, light, build);
      && d.f.drawElements == c.f.drawElements + One(DrawsElements(g))
      && d.f.drawArrays == c.f.drawArrays + One(DrawsArrays(g))
      && d.f.textureUnit == 0
  {
    DrawFacts(c, mesh, light, build);
  }

  // ---------------------------------------------------------------------
  // A second call, and a restored context (shadowRenderer.js:50-52, 56-58).

  /**
   * A second mesh of the same scene drawn next under the same light with the
   * same material skips the program bind, the light matrices and the whole
   * material block: it starts at the model matrix.
   */
  lemma SharedMaterialSkipsLightAndMaterial(c: Ctx, mesh: Mesh, next: Mesh, light: Light, build: Program,
                                             build2: Program)
    requires ClipsFit(c.r, mesh.scene.clips)
    requires next.scene == mesh.scene && next.material.id == mesh.material.id
    ensures var d := DrawSpec(c, mesh, light, build);
      var q := d.r.cursors;
      var b := d.r.bindings;
      var g := next.geometry;
      && ClipsFit(d.r, next.scene.clips)
      && Issued(Ctx(d.r, d.f, []), next, light, build2)
         == [SetModel(b.modelMatrix, next.worldMatrix)] + VertexBufsCmds(q, b, g, next.vertexBufs)
            + ClippableCmds(b, next.clippable) + GeometryCmds(q, b, g) + DrawCmds(g)
  {
    var d := DrawSpec(c, mesh, light, build);
    DrawFacts(c, mesh, light, build);
    DrawSummary(c, mesh, light, build);
    IssuedWithoutBind(Ctx(d.r, d.f, []), next, light, build2);
    FinishCmdsSettled(d.r.cursors, d.f, d.r.bindings, next, light);
  }

  /**
   * Two consecutive draws of one scene under the same light push the view
   * and projection matrices on the first call only, if at all.
   */
  lemma SameLightPushedOnce(c: Ctx, mesh: Mesh, next: Mesh, light: Light, build: Program, build2: Program)
    requires ClipsFit(c.r, mesh.scene.clips)
    requires next.scene == mesh.scene
    ensures var d := DrawSpec(c, mesh, light, build);
      && ClipsFit(d.r, next.scene.clips)
      && Count(Issued(Ctx(d.r, d.f, []), next, light, build2), ViewUniform) == 0
      && Count(Issued(Ctx(d.r, d.f, []), next, light, build2), ProjUniform) == 0
  {
    var d := DrawSpec(c, mesh, light, build);
    DrawSummary(c, mesh, light, build);
    DrawRecordsProgram(c, mesh, light, build);
    DrawRecordsMaterial(c, mesh, light, build);
    var e := Ctx(d.r, d.f, []);
    assert !WillBind(e, build2);
    DrawPushesLightOnChange(e, next, light, build2);
  }

  /** A call whose cursors already name everything of the mesh issues only the per-mesh uniforms and the draw. */
  lemma RedrawIssues(e: Ctx, mesh: Mesh, light: Light, build: Program, q: Cursors)
    requires ClipsFit(e.r, mesh.scene.clips)
    requires e.r.program.Some? && e.f.lastProgramId == Some(e.r.program.value.id)
    requires e.r.cursors == CursorsAfter(q, mesh, light)
    ensures Issued(e, mesh, light, build)
         == [SetModel(e.r.bindings.modelMatrix, mesh.worldMatrix)]
            + ClippableCmds(e.r.bindings, mesh.clippable) + DrawCmds(mesh.geometry)
  {
    IssuedWithoutBind(e, mesh, light, build);
    FinishCmdsSettled(e.r.cursors, e.f, e.r.bindings, mesh, light);
    assert VertexBufsCmds(e.r.cursors, e.r.bindings, mesh.geometry, mesh.vertexBufs) == [];
    assert GeometryCmds(e.r.cursors, e.r.bindings, mesh.geometry) == [];
  }

  /**
   * Drawing the same mesh under the same light again, straight after, binds
   * nothing: no program, no light, no material and no buffer; only the model
   * matrix, the clippable flag and the draw call go out again.
   */
  lemma RepeatDrawIsMinimal(c: Ctx, mesh: Mesh, light: Light, build: Program, build2: Program)
    requires ClipsFit(c.r, mesh.scene.clips)
    ensures var d := DrawSpec(c, mesh, light, build);
      && ClipsFit(d.r, mesh.scene.clips)
      && Issued(Ctx(d.r, d.f, []), mesh, light, build2)
         == [SetModel(d.r.bindings.modelMatrix, mesh.worldMatrix)]
            + ClippableCmds(d.r.bindings, mesh.clippable) + DrawCmds(mesh.geometry)
  {
    var d := DrawSpec(c, mesh, light, build);
    DrawFacts(c, mesh, light, build);
    DrawSummary(c, mesh, light, build);
    DrawRecordsProgram(c, mesh, light, build);
    RedrawIssues(Ctx(d.r, d.f, []), mesh, light, build2, CursorsAtDraw(c, mesh, build));
  }

  /**
   * After `webglContextRestored` the next call builds and allocates a new
   * program: the use count restarts at 0, and a program that compiled has
   * its locations resolved afresh while one that failed keeps the old ones
   * and records its errors.
   */
  lemma RestoreThenDrawReallocates(c: Ctx, mesh: Mesh, light: Light, build: Program)
    requires ClipsFit(c.r, mesh.scene.clips)
    ensures var d := DrawSpec(c.(r := c.r.(program := None)), mesh, light, build);
      && d.r.program == Some(build)
      && d.r.useCount == 0
      && (build.errors.None? ==> d.r.bindings == Resolve(c.r.bindings, build, |mesh.scene.clips|))
      && (build.errors.Some? ==> d.r.errors == build.errors && d.r.bindings == c.r.bindings)
  {
    DrawSummary(c.(r := c.r.(program := None)), mesh, light, build);
  }

  /**
   * `_allocate` clears the material, vertex-buffer and geometry cursors but
   * not the light cursor. If the frame already records the new program's id,
   * so that no bind unsets the cursors, the new program is drawn without its
   * view and projection matrices whenever the light is the one last pushed.
   */
  lemma ReallocationKeepsLightCursor(c: Ctx, mesh: Mesh, light: Light, build: Program)
    requires ClipsFit(c.r, mesh.scene.clips)
    requires c.r.program.None? && build.errors.None?
    requires c.f.lastProgramId == Some(build.id)
    requires c.r.cursors.light == Some(light.id)
    ensures Count(Issued(c, mesh, light, build), ViewUniform) == 0
    ensures Count(Issued(c, mesh, light, build), ProjUniform) == 0
  {
    CursorsAtDrawCases(c, mesh, build);
    DrawPushesLightOnChange(c, mesh, light, build);
  }
}
