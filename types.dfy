/**
 * The values a shadow renderer works with: the compiled program as the
 * compiler reports it, the scene, mesh, light and buffer records it reads,
 * and the abstract WebGL commands it issues.
 */
module ShadowTypes {
  import opened Wrappers

  type Id = nat
  /** A uniform or attribute location handed out by the program wrapper. */
  type Loc = nat
  /** A Float32Array payload; its contents are never inspected. */
  type Matrix = seq<real>

  datatype Buffer = Buffer(id: Id, numItems: nat, itemType: nat)

  datatype Clip = Clip(active: bool, pos: seq<real>, dir: seq<real>)

  /**
   * The uniform names the shadow shader is asked for; the clip names carry
   * the plane index appended to them (`"clipActive" + i`).
   */
  datatype UniformName =
    | PositionsDecodeMatrixName | ModelMatrixName | ViewMatrixName | ProjMatrixName
    | ClippableName | ClipActiveName(i: nat) | ClipPosName(i: nat) | ClipDirName(i: nat)

  /** The one vertex attribute the shadow shader is asked for, `"position"`. */
  datatype AttributeName = PositionName

  /**
   * What `new Program(gl, shaderSource)` yields: an id, an error list when
   * compiling or linking failed, and the names it can resolve with
   * `getLocation` (uniforms) and `getAttribute` (attributes). Any error
   * list, even an empty one, counts as a failure (a JavaScript array is
   * truthy).
   */
  datatype Program = Program(id: Id, errors: Option<seq<string>>,
                             uniforms: map<UniformName, Loc>, attributes: map<AttributeName, Loc>)

  datatype MaterialState = MaterialState(id: Id, backfaces: bool, frontface: bool,
                                         lineWidth: int, pointSize: int)

  datatype GeometryState = GeometryState(
    id: Id,
    hash: string,
    combined: bool,
    primitive: nat,
    quantized: bool,
    positionsDecodeMatrix: Matrix,
    positionsBuf: Option<Buffer>,
    indicesBuf: Option<Buffer>,
    indicesBufCombined: Option<Buffer>,
    positions: Option<Buffer>)

  datatype VertexBufs = VertexBufs(id: Id, positionsBuf: Option<Buffer>, quantized: bool)

  datatype Scene = Scene(canvasId: string, clipsHash: string, clips: seq<Clip>)

  datatype Mesh = Mesh(
    scene: Scene,
    stateHash: string,
    clippable: bool,
    worldMatrix: Matrix,
    material: MaterialState,
    geometry: GeometryState,
    vertexBufs: VertexBufs)

  datatype Light = Light(id: Id, shadowView: Matrix, shadowProj: Matrix)

  /** The three uniform locations of one clip plane. */
  datatype ClipLocs = ClipLocs(active: Option<Loc>, pos: Option<Loc>, dir: Option<Loc>)

  /**
   * One WebGL call. A matrix uniform set without a presence check carries
   * an optional location (WebGL ignores a null location).
   */
  datatype Cmd =
    | UseProgram(program: Id)
    | DestroyProgram(program: Id)
    | ClipActive(loc: Loc, active: bool)
    | ClipPos(loc: Loc, pos: seq<real>)
    | ClipDir(loc: Loc, dir: seq<real>)
    | SetView(target: Option<Loc>, m: Matrix)
    | SetProj(target: Option<Loc>, m: Matrix)
    | SetModel(target: Option<Loc>, m: Matrix)
    | SetPositionsDecode(loc: Loc, m: Matrix)
    | CullEnable
    | CullDisable
    | FrontFace(ccw: bool)
    | LineWidth(width: int)
    | SetPointSize(loc: Loc, size: int)
    | SetClippable(loc: Loc, clippable: bool)
    | BindPositions(attribute: Loc, buf: Option<Buffer>, quantized: bool)
    | BindIndices(indexBuf: Buffer)
    | DrawElements(primitive: nat, indices: Buffer)
    | DrawArrays(count: nat)

  /** The kinds of command, one per `Cmd` constructor. */
  datatype Kind =
    | ProgramBind | ProgramDestroy
    | ClipActiveUniform | ClipPosUniform | ClipDirUniform
    | ViewUniform | ProjUniform | ModelUniform | DecodeUniform
    | CullOn | CullOff | Winding | Width | PointSizeUniform | ClippableUniform
    | PositionsBind | IndicesBind | IndexedDraw | ArrayDraw

  /** The kind of a command, forgetting its arguments. */
  function KindOf(c: Cmd): Kind
  {
    match c
    case UseProgram(_) => ProgramBind
    case DestroyProgram(_) => ProgramDestroy
    case ClipActive(_, _) => ClipActiveUniform
    case ClipPos(_, _) => ClipPosUniform
    case ClipDir(_, _) => ClipDirUniform
    case SetView(_, _) => ViewUniform
    case SetProj(_, _) => ProjUniform
    case SetModel(_, _) => ModelUniform
    case SetPositionsDecode(_, _) => DecodeUniform
    case CullEnable => CullOn
    case CullDisable => CullOff
    case FrontFace(_) => Winding
    case LineWidth(_) => Width
    case SetPointSize(_, _) => PointSizeUniform
    case SetClippable(_, _) => ClippableUniform
    case BindPositions(_, _, _) => PositionsBind
    case BindIndices(_) => IndicesBind
    case DrawElements(_, _) => IndexedDraw
    case DrawArrays(_) => ArrayDraw
  }

  /** Whether a command is of kind `k`. */
  predicate HasKind(c: Cmd, k: Kind)
  {
    KindOf(c) == k
  }

  /** A clip-plane uniform. */
  predicate IsClipCmd(c: Cmd)
  {
    c.ClipActive? || c.ClipPos? || c.ClipDir?
  }

  predicate IsClipKind(k: Kind)
  {
    k == ClipActiveUniform || k == ClipPosUniform || k == ClipDirUniform
  }

  /** 1 for true, 0 for false. */
  function One(b: bool): nat
  {
    if b then 1 else 0
  }

  /** How many commands of kind `k` a log holds. */
  function Count(log: seq<Cmd>, k: Kind): nat
  {
    if log == [] then 0 else One(HasKind(log[0], k)) + Count(log[1..], k)
  }

  /** Regrouping appended commands; stated once so that proofs need not redo it. */
  lemma LogAssoc(a: seq<Cmd>, b: seq<Cmd>, c: seq<Cmd>)
    ensures a + b + c == a + (b + c)
  {
  }

  lemma CountOne(x: Cmd, k: Kind)
    ensures Count([x], k) == One(HasKind(x, k))
  {
    assert [x][1..] == [];
  }

  lemma {:induction false} CountAppend(a: seq<Cmd>, b: seq<Cmd>, k: Kind)
    ensures Count(a + b, k) == Count(a, k) + Count(b, k)
  {
    if a == [] {
      assert a + b == b;
    } else {
      assert (a + b)[0] == a[0];
      assert (a + b)[1..] == a[1..] + b;
      CountAppend(a[1..], b, k);
    }
  }

  /** A log with no command of kind `k` counts none. */
  lemma {:induction false} CountAbsent(log: seq<Cmd>, k: Kind)
    requires forall x :: x in log ==> !HasKind(x, k)
    ensures Count(log, k) == 0
  {
    if log != [] {
      assert forall x :: x in log[1..] ==> x in log;
      CountAbsent(log[1..], k);
    }
  }

  /** Clip uniforms count nothing outside the three clip kinds. */
  lemma ClipCmdsAbsent(log: seq<Cmd>, k: Kind)
    requires forall x :: x in log ==> IsClipCmd(x)
    requires !IsClipKind(k)
    ensures Count(log, k) == 0
  {
    forall x | x in log
      ensures !HasKind(x, k)
    {
    }
    CountAbsent(log, k);
  }

  /** `program.getLocation(name)`: absent unless the program resolves it. */
  function Location(p: Program, name: UniformName): Option<Loc>
  {
    if name in p.uniforms then Some(p.uniforms[name]) else None
  }

  /** `program.getAttribute(name)` */
  function Attribute(p: Program, name: AttributeName): Option<Loc>
  {
    if name in p.attributes then Some(p.attributes[name]) else None
  }

  /** The uniform triple that `_allocate` resolves for clip plane `i`. */
  function ClipLocsAt(p: Program, i: nat): ClipLocs
  {
    ClipLocs(Location(p, ClipActiveName(i)), Location(p, ClipPosName(i)), Location(p, ClipDirName(i)))
  }

  /** One triple per clip plane configured when the program is allocated. */
  function ClipLocations(p: Program, n: nat): (locs: seq<ClipLocs>)
    ensures |locs| == n
  {
    if n == 0 then [] else ClipLocations(p, n - 1) + [ClipLocsAt(p, n - 1)]
  }

  /** The uniforms pushed for one clip plane: only the present locations. */
  function ClipTriple(u: ClipLocs, c: Clip): seq<Cmd>
  {
    (if u.active.Some? then [ClipActive(u.active.value, c.active)] else [])
    + (if u.pos.Some? then [ClipPos(u.pos.value, c.pos)] else [])
    + (if u.dir.Some? then [ClipDir(u.dir.value, c.dir)] else [])
  }

  /** The clip-plane uniforms `_bindProgram` pushes, in plane order. */
  function ClipUniformCmds(uClips: seq<ClipLocs>, clips: seq<Clip>): seq<Cmd>
    requires |uClips| <= |clips|
  {
    if |uClips| == 0 then []
    else ClipUniformCmds(uClips[..|uClips| - 1], clips)
         + ClipTriple(uClips[|uClips| - 1], clips[|uClips| - 1])
  }

  /** Each plane's triple is part of what `_bindProgram` pushes. */
  lemma {:induction false} ClipTripleIncluded(uClips: seq<ClipLocs>, clips: seq<Clip>, i: nat)
    requires i < |uClips| <= |clips|
    ensures forall x :: x in ClipTriple(uClips[i], clips[i]) ==> x in ClipUniformCmds(uClips, clips)
  {
    var n := |uClips| - 1;
    var init := uClips[..n];
    assert ClipUniformCmds(uClips, clips) == ClipUniformCmds(init, clips) + ClipTriple(uClips[n], clips[n]);
    if i < n {
      assert init[i] == uClips[i];
      ClipTripleIncluded(init, clips, i);
    }
  }

  /** Every present clip location receives the value of its plane. */
  lemma ClipUniformsPushed(uClips: seq<ClipLocs>, clips: seq<Clip>)
    requires |uClips| <= |clips|
    ensures forall i :: 0 <= i < |uClips| && uClips[i].active.Some? ==>
              ClipActive(uClips[i].active.value, clips[i].active) in ClipUniformCmds(uClips, clips)
    ensures forall i :: 0 <= i < |uClips| && uClips[i].pos.Some? ==>
              ClipPos(uClips[i].pos.value, clips[i].pos) in ClipUniformCmds(uClips, clips)
    ensures forall i :: 0 <= i < |uClips| && uClips[i].dir.Some? ==>
              ClipDir(uClips[i].dir.value, clips[i].dir) in ClipUniformCmds(uClips, clips)
  {
    forall i | 0 <= i < |uClips|
      ensures uClips[i].active.Some? ==> ClipActive(uClips[i].active.value, clips[i].active) in ClipUniformCmds(uClips, clips)
      ensures uClips[i].pos.Some? ==> ClipPos(uClips[i].pos.value, clips[i].pos) in ClipUniformCmds(uClips, clips)
      ensures uClips[i].dir.Some? ==> ClipDir(uClips[i].dir.value, clips[i].dir) in ClipUniformCmds(uClips, clips)
    {
      ClipTripleIncluded(uClips, clips, i);
    }
  }

  /** The clip uniforms are the only commands pushed, at most three a plane. */
  lemma {:induction false} ClipUniformsOnly(uClips: seq<ClipLocs>, clips: seq<Clip>)
    requires |uClips| <= |clips|
    ensures forall x :: x in ClipUniformCmds(uClips, clips) ==> IsClipCmd(x)
    ensures |ClipUniformCmds(uClips, clips)| <= 3 * |uClips|
  {
    if |uClips| > 0 {
      var n := |uClips| - 1;
      var init := uClips[..n];
      ClipUniformsOnly(init, clips);
      assert ClipUniformCmds(uClips, clips) == ClipUniformCmds(init, clips) + ClipTriple(uClips[n], clips[n]);
    }
  }
}
