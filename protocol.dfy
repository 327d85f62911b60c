/**
 * The state of one shadow renderer and of the caller's frame, and what each
 * step of `drawMesh` does to them, as functions. The imperative renderer in
 * renderer.dfy is proved to follow these definitions; the lemmas in
 * protocol_proofs.dfy state what the protocol guarantees.
 */
module ShadowProtocol {
  import opened Wrappers
  import opened ShadowTypes

  /** The locations `_allocate` resolves. `pointSize` is never assigned. */
  datatype Bindings = Bindings(
    positionsDecodeMatrix: Option<Loc>,
    modelMatrix: Option<Loc>,
    viewMatrix: Option<Loc>,
    projMatrix: Option<Loc>,
    clippable: Option<Loc>,
    pointSize: Option<Loc>,
    position: Option<Loc>,
    clips: seq<ClipLocs>)

  /** The renderer's "last bound" cursors; None is an unset cursor. */
  datatype Cursors = Cursors(light: Option<Id>, material: Option<Id>,
                             vertexBufs: Option<Id>, geometry: Option<Id>)

  const Unset: Cursors := Cursors(None, None, None, None)

  const Unbound: Bindings := Bindings(None, None, None, None, None, None, None, [])

  datatype RendererState = RendererState(
    program: Option<Program>,
    errors: Option<seq<string>>,
    useCount: int,
    bindings: Bindings,
    cursors: Cursors)

  /** A renderer as the constructor leaves it before calling `_allocate`. */
  const Unallocated: RendererState := RendererState(None, None, 0, Unbound, Unset)

  /** The cross-renderer cursors and the counters of the caller's frame. */
  datatype FrameState = FrameState(
    lastProgramId: Option<Id>,
    backfaces: Option<bool>,
    frontface: Option<bool>,
    lineWidth: Option<int>,
    textureUnit: int,
    useProgram: int,
    bindArray: int,
    drawElements: int,
    drawArrays: int)

  /** A renderer, a frame and the WebGL log, threaded through the steps. */
  datatype Ctx = Ctx(r: RendererState, f: FrameState, log: seq<Cmd>)

  /** The locations `_allocate` looks up in a program that compiled. */
  function Resolve(b: Bindings, p: Program, clipCount: nat): Bindings
  {
    b.(positionsDecodeMatrix := Location(p, PositionsDecodeMatrixName),
       modelMatrix := Location(p, ModelMatrixName),
       viewMatrix := Location(p, ViewMatrixName),
       projMatrix := Location(p, ProjMatrixName),
       clips := ClipLocations(p, clipCount),
       position := Attribute(p, PositionName),
       clippable := Location(p, ClippableName))
  }

  /**
   * `_allocate`: store the new program, zero the use count, and on success
   * resolve the locations and clear three of the four cursors.
   */
  function Allocated(s: RendererState, p: Program, clipCount: nat): RendererState
  {
    var s' := s.(program := Some(p), useCount := 0);
    if p.errors.Some? then s'.(errors := p.errors)
    else s'.(bindings := Resolve(s.bindings, p, clipCount),
             cursors := s.cursors.(material := None, vertexBufs := None, geometry := None))
  }

  /**
   * `_bindProgram` reads `clips[i]` for every resolved triple once any clip
   * is configured; more triples than planes would read past the end.
   */
  predicate ClipsFit(s: RendererState, clips: seq<Clip>)
  {
    |clips| == 0 || |s.bindings.clips| <= |clips|
  }

  /** The lazy reallocation at the start of `drawMesh`. */
  function ReallocateStep(c: Ctx, build: Program, clips: seq<Clip>): (d: Ctx)
    ensures d.r.program.Some?
    ensures ClipsFit(c.r, clips) ==> ClipsFit(d.r, clips)
  {
    if c.r.program.None? then c.(r := Allocated(c.r, build, |clips|)) else c
  }

  /** `_bindProgram`: bind, count it, unset all cursors, push the clip uniforms. */
  function BindStep(c: Ctx, clips: seq<Clip>): Ctx
    requires c.r.program.Some? && ClipsFit(c.r, clips)
  {
    Ctx(c.r.(cursors := Unset),
        c.f.(useProgram := c.f.useProgram + 1),
        c.log + [UseProgram(c.r.program.value.id)]
        + (if |clips| > 0 then ClipUniformCmds(c.r.bindings.clips, clips) else []))
  }

  /** The frame last bound some other program (or none). */
  predicate Switches(c: Ctx)
    requires c.r.program.Some?
  {
    c.f.lastProgramId != Some(c.r.program.value.id)
  }

  function ProgramStep(c: Ctx, clips: seq<Clip>): Ctx
    requires c.r.program.Some? && ClipsFit(c.r, clips)
  {
    if Switches(c) then BindStep(c.(f := c.f.(lastProgramId := Some(c.r.program.value.id))), clips)
    else c
  }

  /** The renderer, frame and log once the program is allocated and bound. */
  function Prepared(c: Ctx, mesh: Mesh, build: Program): Ctx
    requires ClipsFit(c.r, mesh.scene.clips)
  {
    ProgramStep(ReallocateStep(c, build, mesh.scene.clips), mesh.scene.clips)
  }

  function LightStep(c: Ctx, light: Light): Ctx
  {
    if Some(light.id) != c.r.cursors.light then
      Ctx(c.r.(cursors := c.r.cursors.(light := Some(light.id))), c.f,
          c.log + [SetView(c.r.bindings.viewMatrix, light.shadowView),
                   SetProj(c.r.bindings.projMatrix, light.shadowProj)])
    else c
  }

  function BackfacesStep(c: Ctx, backfaces: bool): Ctx
  {
    if c.f.backfaces != Some(backfaces) then
      Ctx(c.r, c.f.(backfaces := Some(backfaces)),
          c.log + [if backfaces then CullDisable else CullEnable])
    else c
  }

  function FrontfaceStep(c: Ctx, frontface: bool): Ctx
  {
    if c.f.frontface != Some(frontface) then
      Ctx(c.r, c.f.(frontface := Some(frontface)), c.log + [FrontFace(frontface)])
    else c
  }

  function LineWidthStep(c: Ctx, width: int): Ctx
  {
    if c.f.lineWidth != Some(width) then
      Ctx(c.r, c.f.(lineWidth := Some(width)), c.log + [LineWidth(width)])
    else c
  }

  function PointSizeStep(c: Ctx, size: int): Ctx
  {
    if c.r.bindings.pointSize.Some? then
      c.(log := c.log + [SetPointSize(c.r.bindings.pointSize.value, size)])
    else c
  }

  function MaterialStep(c: Ctx, m: MaterialState): Ctx
  {
    if Some(m.id) != c.r.cursors.material then
      var d := PointSizeStep(LineWidthStep(FrontfaceStep(BackfacesStep(c, m.backfaces),
                                                         m.frontface), m.lineWidth), m.pointSize);
      d.(r := d.r.(cursors := d.r.cursors.(material := Some(m.id))))
    else c
  }

  function ModelStep(c: Ctx, world: Matrix): Ctx
  {
    c.(log := c.log + [SetModel(c.r.bindings.modelMatrix, world)])
  }

  function VertexBufsStep(c: Ctx, g: GeometryState, vb: VertexBufs): Ctx
  {
    if g.combined && Some(vb.id) != c.r.cursors.vertexBufs then
      var d := if vb.positionsBuf.Some? && c.r.bindings.position.Some? then
                 Ctx(c.r, c.f.(bindArray := c.f.bindArray + 1),
                     c.log + [BindPositions(c.r.bindings.position.value, vb.positionsBuf, vb.quantized)])
               else c;
      d.(r := d.r.(cursors := d.r.cursors.(vertexBufs := Some(vb.id))))
    else c
  }

  function ClippableStep(c: Ctx, clippable: bool): Ctx
  {
    if c.r.bindings.clippable.Some? then
      c.(log := c.log + [SetClippable(c.r.bindings.clippable.value, clippable)])
    else c
  }

  function DecodeStep(c: Ctx, g: GeometryState): Ctx
  {
    if c.r.bindings.positionsDecodeMatrix.Some? then
      c.(log := c.log + [SetPositionsDecode(c.r.bindings.positionsDecodeMatrix.value, g.positionsDecodeMatrix)])
    else c
  }

  /** Bind one buffer and count it in `frame.bindArray`. */
  function BindBuffer(c: Ctx, cmd: Cmd): Ctx
  {
    Ctx(c.r, c.f.(bindArray := c.f.bindArray + 1), c.log + [cmd])
  }

  function GeometryBuffersStep(c: Ctx, g: GeometryState): Ctx
  {
    if g.combined then
      if g.indicesBufCombined.Some? then BindBuffer(c, BindIndices(g.indicesBufCombined.value)) else c
    else
      var d := if c.r.bindings.position.Some? then
                 BindBuffer(c, BindPositions(c.r.bindings.position.value, g.positionsBuf, g.quantized))
               else c;
      if g.indicesBuf.Some? then BindBuffer(d, BindIndices(g.indicesBuf.value)) else d
  }

  function GeometryStep(c: Ctx, g: GeometryState): Ctx
  {
    if Some(g.id) != c.r.cursors.geometry then
      var d := GeometryBuffersStep(DecodeStep(c, g), g);
      d.(r := d.r.(cursors := d.r.cursors.(geometry := Some(g.id))))
    else c
  }

  function DrawCallStep(c: Ctx, g: GeometryState): Ctx
  {
    if g.combined then
      if g.indicesBufCombined.Some? then
        Ctx(c.r, c.f.(drawElements := c.f.drawElements + 1),
            c.log + [DrawElements(g.primitive, g.indicesBufCombined.value)])
      else c
    else if g.indicesBuf.Some? then
      Ctx(c.r, c.f.(drawElements := c.f.drawElements + 1),
          c.log + [DrawElements(g.primitive, g.indicesBuf.value)])
    else if g.positions.Some? then
      Ctx(c.r, c.f.(drawArrays := c.f.drawArrays + 1),
          c.log + [DrawArrays(g.positions.value.numItems)])
    else c
  }

  /** The steps of `drawMesh` that follow the program bind. */
  function Finish(p: Ctx, mesh: Mesh, light: Light): Ctx
  {
    var c0 := p.(f := p.f.(textureUnit := 0));
    var c1 := LightStep(c0, light);
    var c2 := MaterialStep(c1, mesh.material);
    var c3 := ModelStep(c2, mesh.worldMatrix);
    var c4 := VertexBufsStep(c3, mesh.geometry, mesh.vertexBufs);
    var c5 := ClippableStep(c4, mesh.clippable);
    var c6 := GeometryStep(c5, mesh.geometry);
    DrawCallStep(c6, mesh.geometry)
  }

  /**
   * `drawMesh(frame, mesh, light)`; `build` is what the program compiler
   * yields should the renderer need to reallocate.
   */
  function DrawSpec(c: Ctx, mesh: Mesh, light: Light, build: Program): Ctx
    requires ClipsFit(c.r, mesh.scene.clips)
  {
    Finish(Prepared(c, mesh, build), mesh, light)
  }
}
