/** The OpenGL render command processor: a fold over the command buffer that keeps a context
    state (the bound shader, material, texture, mesh and the current camera) and skips binds
    of what is already bound. The OpenGL calls it makes are emitted as a trace of GLCall
    events; what the driver does with them is outside the model. Dereferencing a slot the
    commands left empty, or indexing a material's empty texture list, is undefined behaviour
    in the engine and stops the run here with a Fault. */
module RenderCommandProcessor {
  import opened Outcomes
  import opened RenderTypes
  import opened Selection

  /** Primitive modes, with the values the OpenGL ES 2.0 headers give them. */
  const GL_LINES: nat := 0x0001
  const GL_TRIANGLES: nat := 0x0004
  const GL_TRIANGLE_STRIP: nat := 0x0005

  function ToGLPolygonType(polygonType: PolygonType): (mode: nat)
    ensures mode == GL_TRIANGLES || mode == GL_TRIANGLE_STRIP || mode == GL_LINES
  {
    match polygonType
    case Triangle => GL_TRIANGLES
    case TriangleStrip => GL_TRIANGLE_STRIP
    case Line => GL_LINES
  }

  /** No two polygon types share a primitive mode. */
  lemma ToGLPolygonTypeInjective(a: PolygonType, b: PolygonType)
    ensures ToGLPolygonType(a) == ToGLPolygonType(b) <==> a == b
  {
  }

  /** The camera as the processor stores it: a position and a view-projection matrix. */
  datatype GLCamera = GLCamera(position: Vector3, viewProjection: Matrix4)

  /** The bound resources. None is a null slot; for the camera it is the default camera. */
  datatype ContextState = ContextState(
    shader: Option<RenderShader>,
    material: Option<RenderMaterial>,
    texture: Option<RenderTexture>,
    mesh: Option<RenderMesh>,
    camera: Option<GLCamera>)

  const ResetState := ContextState(None, None, None, None, None)

  datatype RenderCommand =
    | LoadShader(shader: RenderShader)
    | LoadTexture(texture: RenderTexture)
    | LoadMaterialGroup
    | LoadMesh(mesh: RenderMesh)
    | Begin(width: int, height: int)
    | ApplyCamera(position: Vector3, viewProjection: Matrix4)
    | ApplyMaterial(material: RenderMaterial)
    | ApplyMesh(mesh: RenderMesh)
    | RenderInstance(worldMatrix: Matrix4)
    | End
    | UnloadShader(shader: RenderShader)
    | UnloadTexture(texture: RenderTexture)
    | UnloadMaterialGroup
    | UnloadMesh(mesh: RenderMesh)

  /** The OpenGL work a command performs, one event per GL-side effect. */
  datatype GLCall =
    | CreateShader(shader: RenderShader)
    | CreateTexture(texture: RenderTexture)
    | CreateMesh(mesh: RenderMesh)
    | DeleteShader(shader: RenderShader)
    | DeleteTexture(texture: RenderTexture)
    | DeleteMesh(mesh: RenderMesh)
    | ClearFrame(width: int, height: int)
    | BindShader(shader: RenderShader)
    | BindTexture(texture: RenderTexture)
    | ApplyMaterialUniforms(material: RenderMaterial, camera: Option<GLCamera>)
    | BindMesh(mesh: RenderMesh, boundShader: RenderShader)
    | SetInstanceUniforms(worldMatrix: Matrix4, camera: Option<GLCamera>)
    | DrawElements(mode: nat, count: nat)
    | DrawArrays(mode: nat, first: nat, count: nat)

  datatype Fault = NoShaderBound | NoMeshBound | MaterialWithoutTexture

  datatype Outcome = Outcome(state: ContextState, calls: seq<GLCall>)

  //---------------------------------------------------------------- single commands

  /** Binds the material unless it is already bound. A new material drops the bound mesh,
      binds its shader and its first texture when they differ from the bound ones, then sets
      its uniforms against the current camera. */
  function ApplyMaterialStep(s: ContextState, m: RenderMaterial): (r: Result<Outcome, Fault>)
    ensures s.material == Some(m) ==> r == Ok(Outcome(s, []))
    ensures s.material != Some(m) ==> (r.Err? <==> |m.textures| == 0)
    ensures r.Err? ==> r.error == MaterialWithoutTexture
    ensures s.material != Some(m) && r.Ok? ==>
      && r.value.state == ContextState(Some(m.shader), Some(m), Some(m.textures[0]), None, s.camera)
      && (BindShader(m.shader) in r.value.calls <==> s.shader != Some(m.shader))
      && (BindTexture(m.textures[0]) in r.value.calls <==> s.texture != Some(m.textures[0]))
      && |r.value.calls| > 0 && r.value.calls[|r.value.calls| - 1] == ApplyMaterialUniforms(m, s.camera)
  {
    if s.material == Some(m) then Ok(Outcome(s, []))
    else if |m.textures| == 0 then Err(MaterialWithoutTexture)
    else
      var texture := m.textures[0];
      var shaderCalls := if s.shader != Some(m.shader) then [BindShader(m.shader)] else [];
      var textureCalls := if s.texture != Some(texture) then [BindTexture(texture)] else [];
      Ok(Outcome(ContextState(Some(m.shader), Some(m), Some(texture), None, s.camera),
                 shaderCalls + textureCalls + [ApplyMaterialUniforms(m, s.camera)]))
  }

  /** Binds the mesh against the bound shader, unless the mesh is already bound. */
  function ApplyMeshStep(s: ContextState, mesh: RenderMesh): (r: Result<Outcome, Fault>)
    ensures s.mesh == Some(mesh) ==> r == Ok(Outcome(s, []))
    ensures s.mesh != Some(mesh) ==> (r.Err? <==> s.shader.None?)
    ensures r.Err? ==> r.error == NoShaderBound
    ensures s.mesh != Some(mesh) && r.Ok? ==>
      r.value.state == s.(mesh := Some(mesh)) && r.value.calls == [BindMesh(mesh, s.shader.value)]
  {
    if s.mesh == Some(mesh) then Ok(Outcome(s, []))
    else if s.shader.None? then Err(NoShaderBound)
    else Ok(Outcome(s.(mesh := Some(mesh)), [BindMesh(mesh, s.shader.value)]))
  }

  /** The draw call for a mesh: indexed exactly when the mesh has indices. */
  function DrawCall(mesh: RenderMesh): (call: GLCall)
    ensures call.DrawElements? <==> mesh.numIndices > 0
    ensures call.DrawElements? ==> call.count == mesh.numIndices
    ensures call.DrawArrays? ==> call.first == 0 && call.count == mesh.numVertices
    ensures call.DrawElements? || call.DrawArrays?
  {
    var mode := ToGLPolygonType(mesh.polygonType);
    if mesh.numIndices > 0 then DrawElements(mode, mesh.numIndices) else DrawArrays(mode, 0, mesh.numVertices)
  }

  /** Sets the instance uniforms on the bound shader and draws the bound mesh. */
  function RenderInstanceStep(s: ContextState, worldMatrix: Matrix4): (r: Result<Outcome, Fault>)
    ensures r.Ok? <==> s.shader.Some? && s.mesh.Some?
    ensures r.Err? ==> (r.error == NoShaderBound <==> s.shader.None?)
    ensures r.Err? ==> r.error == NoShaderBound || r.error == NoMeshBound
    ensures r.Ok? ==> r.value.state == s
    ensures r.Ok? ==> r.value.calls == [SetInstanceUniforms(worldMatrix, s.camera), DrawCall(s.mesh.value)]
  {
    if s.shader.None? then Err(NoShaderBound)
    else if s.mesh.None? then Err(NoMeshBound)
    else Ok(Outcome(s, [SetInstanceUniforms(worldMatrix, s.camera), DrawCall(s.mesh.value)]))
  }

  /** One command of a command list. */
  function Step(s: ContextState, cmd: RenderCommand): (r: Result<Outcome, Fault>)
    ensures cmd.Begin? || cmd.End? ==> r.Ok? && r.value.state == ResetState
    ensures cmd.LoadMaterialGroup? || cmd.UnloadMaterialGroup? ==> r == Ok(Outcome(s, []))
    ensures cmd.ApplyCamera? ==>
      r == Ok(Outcome(s.(material := None, camera := Some(GLCamera(cmd.position, cmd.viewProjection))), []))
  {
    match cmd
    case LoadShader(shader) => Ok(Outcome(s.(shader := None, material := None), [CreateShader(shader)]))
    case LoadTexture(texture) => Ok(Outcome(s.(texture := None, material := None), [CreateTexture(texture)]))
    case LoadMaterialGroup => Ok(Outcome(s, []))
    case LoadMesh(mesh) => Ok(Outcome(s.(mesh := None), [CreateMesh(mesh)]))
    case Begin(width, height) => Ok(Outcome(ResetState, [ClearFrame(width, height)]))
    case ApplyCamera(position, viewProjection) =>
      Ok(Outcome(s.(material := None, camera := Some(GLCamera(position, viewProjection))), []))
    case ApplyMaterial(m) => ApplyMaterialStep(s, m)
    case ApplyMesh(mesh) => ApplyMeshStep(s, mesh)
    case RenderInstance(worldMatrix) => RenderInstanceStep(s, worldMatrix)
    case End => Ok(Outcome(ResetState, []))
    case UnloadShader(shader) => Ok(Outcome(s.(shader := None, material := None), [DeleteShader(shader)]))
    case UnloadTexture(texture) => Ok(Outcome(s.(texture := None, material := None), [DeleteTexture(texture)]))
    case UnloadMaterialGroup => Ok(Outcome(s, []))
    case UnloadMesh(mesh) => Ok(Outcome(s.(mesh := None), [DeleteMesh(mesh)]))
  }

  //---------------------------------------------------------------- resource invalidation

  datatype Slot = ShaderSlot | MaterialSlot | TextureSlot | MeshSlot | CameraSlot

  predicate IsResourceCommand(cmd: RenderCommand)
  {
    cmd.LoadShader? || cmd.LoadTexture? || cmd.LoadMaterialGroup? || cmd.LoadMesh?
    || cmd.UnloadShader? || cmd.UnloadTexture? || cmd.UnloadMaterialGroup? || cmd.UnloadMesh?
  }

  /** Which slots loading or unloading a resource must invalidate: a shader or texture may be
      referenced by the bound material, a mesh by nothing else. */
  function Invalidates(cmd: RenderCommand): set<Slot>
  {
    if cmd.LoadShader? || cmd.UnloadShader? then {ShaderSlot, MaterialSlot}
    else if cmd.LoadTexture? || cmd.UnloadTexture? then {TextureSlot, MaterialSlot}
    else if cmd.LoadMesh? || cmd.UnloadMesh? then {MeshSlot}
    else {}
  }

  predicate SlotBound(s: ContextState, slot: Slot)
  {
    match slot
    case ShaderSlot => s.shader.Some?
    case MaterialSlot => s.material.Some?
    case TextureSlot => s.texture.Some?
    case MeshSlot => s.mesh.Some?
    case CameraSlot => s.camera.Some?
  }

  predicate SameSlot(s: ContextState, t: ContextState, slot: Slot)
  {
    match slot
    case ShaderSlot => s.shader == t.shader
    case MaterialSlot => s.material == t.material
    case TextureSlot => s.texture == t.texture
    case MeshSlot => s.mesh == t.mesh
    case CameraSlot => s.camera == t.camera
  }

  /** A resource command never faults, empties exactly the slots it invalidates and leaves
      every other slot as it was. */
  lemma ResourceCommandInvalidates(s: ContextState, cmd: RenderCommand, slot: Slot)
    requires IsResourceCommand(cmd)
    ensures Step(s, cmd).Ok?
    ensures slot in Invalidates(cmd) ==> !SlotBound(Step(s, cmd).value.state, slot)
    ensures slot !in Invalidates(cmd) ==> SameSlot(s, Step(s, cmd).value.state, slot)
  {
  }

  //---------------------------------------------------------------- command lists

  /** Runs a command list front to back; the first fault stops the run. */
  function Run(s: ContextState, cmds: seq<RenderCommand>): (r: Result<Outcome, Fault>)
    decreases |cmds|
  {
    if |cmds| == 0 then Ok(Outcome(s, []))
    else
      match Step(s, cmds[0])
      case Err(f) => Err(f)
      case Ok(first) =>
        match Run(first.state, cmds[1..])
        case Err(f) => Err(f)
        case Ok(rest) => Ok(Outcome(rest.state, first.calls + rest.calls))
  }

  /** Continues an outcome with more commands. */
  function Then(r: Result<Outcome, Fault>, cmds: seq<RenderCommand>): Result<Outcome, Fault>
  {
    match r
    case Err(f) => Err(f)
    case Ok(o) =>
      match Run(o.state, cmds)
      case Err(f) => Err(f)
      case Ok(rest) => Ok(Outcome(rest.state, o.calls + rest.calls))
  }

  /** Running two lists one after the other is running their concatenation. */
  lemma {:induction false} RunAppend(s: ContextState, a: seq<RenderCommand>, b: seq<RenderCommand>)
    ensures Run(s, a + b) == Then(Run(s, a), b)
    decreases |a|
  {
    if |a| == 0 {
      assert a + b == b;
      match Run(s, b)
      case Err(_) =>
      case Ok(o) => assert [] + o.calls == o.calls;
    } else {
      assert (a + b)[0] == a[0] && (a + b)[1..] == a[1..] + b;
      match Step(s, a[0])
      case Err(_) =>
      case Ok(first) =>
        RunAppend(first.state, a[1..], b);
        match Run(first.state, a[1..])
        case Err(_) =>
        case Ok(mid) =>
          match Run(mid.state, b)
          case Err(_) =>
          case Ok(last) =>
            assert first.calls + (mid.calls + last.calls) == (first.calls + mid.calls) + last.calls;
    }
  }

  /** The number of commands in all lists of a queue. */
  function TotalLength(queue: seq<seq<RenderCommand>>): nat
  {
    if |queue| == 0 then 0 else |queue[0]| + TotalLength(queue[1..])
  }

  /** Where list `i` starts once the lists are laid end to end: after every list before it. */
  function ListStart(queue: seq<seq<RenderCommand>>, i: nat): nat
    requires i <= |queue|
  {
    TotalLength(queue[..i])
  }

  lemma ListStartShift(queue: seq<seq<RenderCommand>>, i: nat)
    requires 0 < i <= |queue|
    ensures ListStart(queue, i) == |queue[0]| + ListStart(queue[1..], i - 1)
  {
    assert queue[..i][0] == queue[0];
    assert queue[..i][1..] == queue[1..][..i - 1];
  }

  /** All lists of a buffer's queue, laid end to end in queue order; ConcatPlacesCommand says
      where each command lands. */
  function Concat(queue: seq<seq<RenderCommand>>): (cmds: seq<RenderCommand>)
    ensures |cmds| == TotalLength(queue)
    ensures |queue| > 0 ==> cmds[..|queue[0]|] == queue[0]
  {
    if |queue| == 0 then [] else queue[0] + Concat(queue[1..])
  }

  /** Command j of list i lands at that list's start plus j: nothing is dropped, reordered or
      moved between lists when the queue is laid end to end. */
  lemma {:induction false} ConcatPlacesCommand(queue: seq<seq<RenderCommand>>, i: nat, j: nat)
    requires i < |queue| && j < |queue[i]|
    ensures ListStart(queue, i) + j < |Concat(queue)|
    ensures Concat(queue)[ListStart(queue, i) + j] == queue[i][j]
    decreases i
  {
    if i == 0 {
      assert queue[..0] == [];
    } else {
      ConcatPlacesCommand(queue[1..], i - 1, j);
      ListStartShift(queue, i);
      assert queue[1..][i - 1] == queue[i];
    }
  }

  /** Process: every list of the queue in queue order, the commands of each in list order. */
  function Process(s: ContextState, queue: seq<seq<RenderCommand>>): Result<Outcome, Fault>
    decreases |queue|
  {
    if |queue| == 0 then Ok(Outcome(s, []))
    else
      match Run(s, queue[0])
      case Err(f) => Err(f)
      case Ok(first) =>
        match Process(first.state, queue[1..])
        case Err(f) => Err(f)
        case Ok(rest) => Ok(Outcome(rest.state, first.calls + rest.calls))
  }

  /** Processing a buffer is one run over its lists laid end to end: list boundaries carry the
      context state across and change nothing. */
  lemma {:induction false} ProcessRunsConcatenation(s: ContextState, queue: seq<seq<RenderCommand>>)
    ensures Process(s, queue) == Run(s, Concat(queue))
    decreases |queue|
  {
    if |queue| > 0 {
      RunAppend(s, queue[0], Concat(queue[1..]));
      match Run(s, queue[0])
      case Err(_) =>
      case Ok(first) => ProcessRunsConcatenation(first.state, queue[1..]);
    }
  }

  //---------------------------------------------------------------- counting

  predicate IsDraw(call: GLCall)
  {
    call.DrawElements? || call.DrawArrays?
  }

  predicate IsShaderBind(call: GLCall)
  {
    call.BindShader?
  }

  predicate IsRenderInstance(cmd: RenderCommand)
  {
    cmd.RenderInstance?
  }

  predicate IsApplyMaterial(cmd: RenderCommand)
  {
    cmd.ApplyMaterial?
  }

  /** The number of elements of `xs` that satisfy `p`. */
  function Count<T>(xs: seq<T>, p: T -> bool): nat
  {
    |Filter(xs, p)|
  }

  lemma CountAppend<T>(a: seq<T>, b: seq<T>, p: T -> bool)
    ensures Count(a + b, p) == Count(a, p) + Count(b, p)
  {
    FilterAppend(a, b, p);
  }

  lemma CountCons<T>(x: T, xs: seq<T>, p: T -> bool)
    ensures Count([x] + xs, p) == (if p(x) then 1 else 0) + Count(xs, p)
  {
    CountAppend([x], xs, p);
    CountSingleton(x, p);
  }

  lemma CountFirst<T>(xs: seq<T>, p: T -> bool)
    requires |xs| > 0
    ensures Count(xs, p) == (if p(xs[0]) then 1 else 0) + Count(xs[1..], p)
  {
    assert xs == [xs[0]] + xs[1..];
    CountCons(xs[0], xs[1..], p);
  }

  lemma CountSingleton<T>(x: T, p: T -> bool)
    ensures Count([x], p) == if p(x) then 1 else 0
  {
    FilterSnoc([], x, p);
    assert [] + [x] == [x];
  }

  /** A sequence with no element satisfying `p` counts zero; any sequence counts at most its length. */
  lemma CountBounds<T>(xs: seq<T>, p: T -> bool)
    ensures Count(xs, p) <= |xs|
    ensures (forall i :: 0 <= i < |xs| ==> !p(xs[i])) ==> Count(xs, p) == 0
  {
    var r := Filter(xs, p);
    if |r| > 0 {
      assert r[0] in xs && p(r[0]);
    }
  }

  lemma ApplyMaterialCounts(s: ContextState, m: RenderMaterial)
    ensures ApplyMaterialStep(s, m).Ok? ==> Count(ApplyMaterialStep(s, m).value.calls, IsDraw) == 0
    ensures ApplyMaterialStep(s, m).Ok? ==> Count(ApplyMaterialStep(s, m).value.calls, IsShaderBind) <= 1
  {
    if ApplyMaterialStep(s, m).Ok? {
      var calls := ApplyMaterialStep(s, m).value.calls;
      assert forall i :: 0 <= i < |calls| ==> !IsDraw(calls[i]);
      CountBounds(calls, IsDraw);
      if s.material != Some(m) {
        NewMaterialBindsShaderOnce(s, m);
      } else {
        CountBounds(calls, IsShaderBind);
      }
    }
  }

  lemma NewMaterialBindsShaderOnce(s: ContextState, m: RenderMaterial)
    requires s.material != Some(m) && |m.textures| > 0
    ensures Count(ApplyMaterialStep(s, m).value.calls, IsShaderBind) <= 1
  {
    var shaderCalls := if s.shader != Some(m.shader) then [BindShader(m.shader)] else [];
    var textureCalls := if s.texture != Some(m.textures[0]) then [BindTexture(m.textures[0])] else [];
    var uniforms := [ApplyMaterialUniforms(m, s.camera)];
    assert ApplyMaterialStep(s, m).value.calls == shaderCalls + textureCalls + uniforms;
    OneBindAtMost(shaderCalls, textureCalls, uniforms);
  }

  lemma OneBindAtMost(shaderCalls: seq<GLCall>, textureCalls: seq<GLCall>, uniforms: seq<GLCall>)
    requires |shaderCalls| <= 1
    requires forall i :: 0 <= i < |textureCalls| ==> !IsShaderBind(textureCalls[i])
    requires forall i :: 0 <= i < |uniforms| ==> !IsShaderBind(uniforms[i])
    ensures Count(shaderCalls + textureCalls + uniforms, IsShaderBind) <= 1
  {
    CountAppend(shaderCalls + textureCalls, uniforms, IsShaderBind);
    CountAppend(shaderCalls, textureCalls, IsShaderBind);
    CountBounds(shaderCalls, IsShaderBind);
    CountBounds(textureCalls, IsShaderBind);
    CountBounds(uniforms, IsShaderBind);
  }

  /** Every single command draws once if it is RenderInstance and never otherwise, and binds a
      shader at most once, and only if it is ApplyMaterial. */
  lemma StepCounts(s: ContextState, cmd: RenderCommand)
    ensures Step(s, cmd).Ok? ==> Count(Step(s, cmd).value.calls, IsDraw) == (if IsRenderInstance(cmd) then 1 else 0)
    ensures Step(s, cmd).Ok? ==> Count(Step(s, cmd).value.calls, IsShaderBind) <= (if IsApplyMaterial(cmd) then 1 else 0)
  {
    if Step(s, cmd).Ok? {
      match cmd
      case ApplyMaterial(m) => ApplyMaterialCounts(s, m);
      case RenderInstance(worldMatrix) => RenderInstanceCounts(s, worldMatrix);
      case _ => OtherCommandsCountNothing(s, cmd);
    }
  }

  lemma RenderInstanceCounts(s: ContextState, worldMatrix: Matrix4)
    requires RenderInstanceStep(s, worldMatrix).Ok?
    ensures Count(RenderInstanceStep(s, worldMatrix).value.calls, IsDraw) == 1
    ensures Count(RenderInstanceStep(s, worldMatrix).value.calls, IsShaderBind) == 0
  {
    var uniforms, draw := SetInstanceUniforms(worldMatrix, s.camera), DrawCall(s.mesh.value);
    assert RenderInstanceStep(s, worldMatrix).value.calls == [uniforms] + [draw];
    CountCons(uniforms, [draw], IsDraw);
    CountCons(uniforms, [draw], IsShaderBind);
    CountSingleton(draw, IsDraw);
    CountSingleton(draw, IsShaderBind);
  }

  lemma OtherCommandsCountNothing(s: ContextState, cmd: RenderCommand)
    requires !cmd.ApplyMaterial? && !cmd.RenderInstance? && Step(s, cmd).Ok?
    ensures Count(Step(s, cmd).value.calls, IsDraw) == 0
    ensures Count(Step(s, cmd).value.calls, IsShaderBind) == 0
  {
    var calls := Step(s, cmd).value.calls;
    assert forall i :: 0 <= i < |calls| ==> !IsDraw(calls[i]) && !IsShaderBind(calls[i]);
    CountBounds(calls, IsDraw);
    CountBounds(calls, IsShaderBind);
  }

  /** A run that completes draws exactly once per RenderInstance command. */
  lemma {:induction false} DrawsMatchRenderInstances(s: ContextState, cmds: seq<RenderCommand>)
    ensures Run(s, cmds).Ok? ==> Count(Run(s, cmds).value.calls, IsDraw) == Count(cmds, IsRenderInstance)
    decreases |cmds|
  {
    if |cmds| > 0 && Run(s, cmds).Ok? {
      var first := Step(s, cmds[0]).value;
      StepCounts(s, cmds[0]);
      DrawsMatchRenderInstances(first.state, cmds[1..]);
      CountAppend(first.calls, Run(first.state, cmds[1..]).value.calls, IsDraw);
      CountFirst(cmds, IsRenderInstance);
    }
  }

  /** A run that completes binds a shader at most once per ApplyMaterial command. */
  lemma {:induction false} ShaderBindsBoundedByMaterials(s: ContextState, cmds: seq<RenderCommand>)
    ensures Run(s, cmds).Ok? ==> Count(Run(s, cmds).value.calls, IsShaderBind) <= Count(cmds, IsApplyMaterial)
    decreases |cmds|
  {
    if |cmds| > 0 && Run(s, cmds).Ok? {
      var first := Step(s, cmds[0]).value;
      StepCounts(s, cmds[0]);
      ShaderBindsBoundedByMaterials(first.state, cmds[1..]);
      CountAppend(first.calls, Run(first.state, cmds[1..]).value.calls, IsShaderBind);
      CountFirst(cmds, IsApplyMaterial);
    }
  }

  //---------------------------------------------------------------- coherence

  /** A bound material is backed by its own shader and first texture in their slots. */
  predicate Coherent(s: ContextState)
  {
    s.material.Some? ==>
      && |s.material.value.textures| > 0
      && s.shader == Some(s.material.value.shader)
      && s.texture == Some(s.material.value.textures[0])
  }

  lemma StepPreservesCoherent(s: ContextState, cmd: RenderCommand)
    requires Coherent(s)
    ensures Step(s, cmd).Ok? ==> Coherent(Step(s, cmd).value.state)
  {
  }

  lemma {:induction false} RunPreservesCoherent(s: ContextState, cmds: seq<RenderCommand>)
    requires Coherent(s)
    ensures Run(s, cmds).Ok? ==> Coherent(Run(s, cmds).value.state)
    decreases |cmds|
  {
    if |cmds| > 0 && Step(s, cmds[0]).Ok? {
      StepPreservesCoherent(s, cmds[0]);
      RunPreservesCoherent(Step(s, cmds[0]).value.state, cmds[1..]);
    }
  }

  /** Once a material is applied, applying it again changes nothing and calls nothing; and
      the bound shader a following ApplyMesh needs is in place. */
  lemma ReapplyingMaterialIsNoOp(s: ContextState, m: RenderMaterial)
    requires Coherent(s)
    ensures Step(s, ApplyMaterial(m)).Ok? ==>
      var t := Step(s, ApplyMaterial(m)).value.state;
      Step(t, ApplyMaterial(m)) == Ok(Outcome(t, [])) && t.shader == Some(m.shader)
  {
  }

  //---------------------------------------------------------------- scenarios

  /** Begin, the same material twice, an instance and End: ApplyMaterial drops the bound mesh,
      so the instance finds no mesh and the run faults before drawing. */
  lemma InstanceWithoutMeshFaults(s: ContextState, m: RenderMaterial, world: Matrix4, width: int, height: int)
    requires |m.textures| > 0
    ensures Run(s, [Begin(width, height), ApplyMaterial(m), ApplyMaterial(m), RenderInstance(world), End]) == Err(NoMeshBound)
  {
    var cmds := [Begin(width, height), ApplyMaterial(m), ApplyMaterial(m), RenderInstance(world), End];
    var s2 := ContextState(Some(m.shader), Some(m), Some(m.textures[0]), None, None);
    assert Step(s, cmds[0]).value.state == ResetState;
    assert Step(ResetState, cmds[1]).value.state == s2;
    assert Step(s2, cmds[2]) == Ok(Outcome(s2, []));
    assert Step(s2, cmds[3]) == Err(NoMeshBound);
    var c3, c2, c1 := cmds[3..], cmds[2..], cmds[1..];
    assert c2[1..] == c3 && c1[1..] == c2 && cmds[1..] == c1;
    assert Run(s2, c3) == Err(NoMeshBound);
    assert Run(s2, c2) == Err(NoMeshBound);
    assert Run(ResetState, c1) == Err(NoMeshBound);
  }

  /** The same frame with the mesh applied: one shader bind, one texture bind, one mesh bind
      and one draw; the second ApplyMaterial emits nothing and End leaves the state reset. */
  lemma InstanceWithMeshDrawsOnce(s: ContextState, m: RenderMaterial, mesh: RenderMesh, world: Matrix4, width: int, height: int)
    requires |m.textures| > 0
    ensures Run(s, [Begin(width, height), ApplyMaterial(m), ApplyMaterial(m), ApplyMesh(mesh), RenderInstance(world), End])
      == Ok(Outcome(ResetState, [
           ClearFrame(width, height),
           BindShader(m.shader), BindTexture(m.textures[0]), ApplyMaterialUniforms(m, None),
           BindMesh(mesh, m.shader),
           SetInstanceUniforms(world, None), DrawCall(mesh)]))
  {
    var cmds := [Begin(width, height), ApplyMaterial(m), ApplyMaterial(m), ApplyMesh(mesh), RenderInstance(world), End];
    var s2 := ContextState(Some(m.shader), Some(m), Some(m.textures[0]), None, None);
    var materialCalls := [BindShader(m.shader), BindTexture(m.textures[0]), ApplyMaterialUniforms(m, None)];
    var meshCalls := [BindMesh(mesh, m.shader), SetInstanceUniforms(world, None), DrawCall(mesh)];
    assert [BindShader(m.shader)] + [BindTexture(m.textures[0])] + [ApplyMaterialUniforms(m, None)] == materialCalls;
    assert Step(s, cmds[0]) == Ok(Outcome(ResetState, [ClearFrame(width, height)]));
    assert Step(ResetState, cmds[1]) == Ok(Outcome(s2, materialCalls));
    var c1 := cmds[1..];
    assert c1[1..] == [ApplyMaterial(m), ApplyMesh(mesh), RenderInstance(world), End];
    BoundMaterialThenMeshRun(s2, m, mesh, world);
    assert Run(ResetState, c1) == Ok(Outcome(ResetState, materialCalls + meshCalls));
    assert [ClearFrame(width, height)] + (materialCalls + meshCalls) == [
           ClearFrame(width, height),
           BindShader(m.shader), BindTexture(m.textures[0]), ApplyMaterialUniforms(m, None),
           BindMesh(mesh, m.shader),
           SetInstanceUniforms(world, None), DrawCall(mesh)];
  }

  /** With the material bound and no mesh: applying the material again emits nothing, the mesh
      is bound, one draw follows, and End resets. */
  lemma BoundMaterialThenMeshRun(s2: ContextState, m: RenderMaterial, mesh: RenderMesh, world: Matrix4)
    requires |m.textures| > 0 && s2 == ContextState(Some(m.shader), Some(m), Some(m.textures[0]), None, None)
    ensures Run(s2, [ApplyMaterial(m), ApplyMesh(mesh), RenderInstance(world), End])
      == Ok(Outcome(ResetState, [BindMesh(mesh, m.shader), SetInstanceUniforms(world, None), DrawCall(mesh)]))
  {
    var cmds := [ApplyMaterial(m), ApplyMesh(mesh), RenderInstance(world), End];
    var s3 := s2.(mesh := Some(mesh));
    var instanceCalls := [SetInstanceUniforms(world, None), DrawCall(mesh)];
    assert Step(s2, cmds[0]) == Ok(Outcome(s2, []));
    assert Step(s2, cmds[1]) == Ok(Outcome(s3, [BindMesh(mesh, m.shader)]));
    assert Step(s3, cmds[2]) == Ok(Outcome(s3, instanceCalls));
    assert Step(s3, cmds[3]) == Ok(Outcome(ResetState, []));
    var c3, c2, c1 := cmds[3..], cmds[2..], cmds[1..];
    var none: seq<RenderCommand> := [];
    assert c3[1..] == none && c2[1..] == c3 && c1[1..] == c2 && cmds[1..] == c1;
    var noCalls: seq<GLCall> := [];
    assert noCalls + noCalls == noCalls;
    assert Run(s3, c3) == Ok(Outcome(ResetState, noCalls));
    assert instanceCalls + noCalls == instanceCalls;
    assert Run(s3, c2) == Ok(Outcome(ResetState, instanceCalls));
    var meshCalls := [BindMesh(mesh, m.shader)] + instanceCalls;
    assert Run(s2, c1) == Ok(Outcome(ResetState, meshCalls));
    assert noCalls + meshCalls == meshCalls;
    assert Run(s2, cmds) == Ok(Outcome(ResetState, meshCalls));
    assert meshCalls == [BindMesh(mesh, m.shader), SetInstanceUniforms(world, None), DrawCall(mesh)];
  }
}
