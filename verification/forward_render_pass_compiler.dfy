/** The forward render pass compiler: turns one render frame into the ordered list of target
    groups to draw. Shadow-map targets come first, one per directional light that owns a
    shadow map; the main target comes last and holds the scene camera group followed by the
    UI camera group. The task scheduler's child tasks are run in list order (SlotTasks). */
module ForwardRenderPassCompiler {
  import opened Outcomes
  import opened RenderTypes
  import opened RenderFrames
  import opened Selection
  import opened SlotTasks

  /** Why compiling a frame stops: a UI object without a transparent material (a fatal
      assertion in the engine), or a task writing past the end of the target vector. */
  datatype CompileError = UIObjectWithoutTransparentMaterial | TargetSlotError(cause: SlotError)

  /** Base and transparent passes are always present in the scene group. */
  const ReservedRenderPasses: nat := 2

  /** The main target, reserved on top of the shadow-map targets. */
  const ReservedTargets: nat := 1

  /** The scene group and the UI group of the main target. */
  const NumCameraGroups: nat := 2

  /** Near and far planes of the UI camera's orthographic projection. */
  const UINear: real := 0.0
  const UIFar: real := 1.0

  //---------------------------------------------------------------- object conversion

  /** The vertex format of the object's mesh, whether the mesh is static or dynamic. */
  function GetVertexFormat(o: RenderObject): (format: VertexFormat)
    ensures format == o.meshRef.mesh.vertexFormat
  {
    match o.meshRef
    case StaticMesh(mesh) => mesh.vertexFormat
    case DynamicMesh(mesh) => mesh.vertexFormat
  }

  /** The material the object's group holds for its vertex format and `pass`, if any. */
  function MaterialFor(o: RenderObject, pass: ForwardRenderPass): (m: Option<RenderMaterial>)
    ensures m.Some? <==> MaterialKey(GetVertexFormat(o), pass) in o.materialGroup.materials
    ensures m.Some? ==> m.value in o.materialGroup.materials.Values
  {
    var key := MaterialKey(GetVertexFormat(o), pass);
    if key in o.materialGroup.materials then Some(o.materialGroup.materials[key]) else None
  }

  /** Builds the pass object for `o` drawn with `material`, which must belong to the object's
      material group; the mesh keeps its static or dynamic kind. */
  function ConvertToRenderPassObject(o: RenderObject, material: RenderMaterial): (r: RenderPassObject)
    requires material in o.materialGroup.materials.Values
    ensures r.material == material
    ensures r.meshRef == o.meshRef && r.worldMatrix == o.worldMatrix
    ensures r.boundingSphere == o.boundingSphere && r.priority == o.priority
  {
    match o.meshRef
    case StaticMesh(_) => RenderPassObject(material, o.meshRef, o.worldMatrix, o.boundingSphere, o.priority)
    case DynamicMesh(_) => RenderPassObject(material, o.meshRef, o.worldMatrix, o.boundingSphere, o.priority)
  }

  //---------------------------------------------------------------- counts

  predicate HasShadowMapTarget(light: DirectionalRenderLight)
  {
    light.shadowMapTarget.Some?
  }

  /** The directional lights that own a shadow-map target, in frame order. */
  function ShadowCastingLights(lights: seq<DirectionalRenderLight>): (r: seq<DirectionalRenderLight>)
    ensures IsStableFilter(r, lights, HasShadowMapTarget)
    ensures forall k :: 0 <= k < |r| ==> r[k].shadowMapTarget.Some?
    ensures forall i :: 0 <= i < |lights| && lights[i].shadowMapTarget.Some? ==> lights[i] in r
  {
    Filter(lights, HasShadowMapTarget)
  }

  /** The target count as the source computes it: the shadow-casting lights only, leaving
      out the reserved main target. */
  function CalcNumTargetsAsWritten(frame: RenderFrame): (r: nat)
    ensures r <= |frame.directionalLights|
    ensures r + ReservedTargets == CalcNumTargets(frame)
  {
    |ShadowCastingLights(frame.directionalLights)|
  }

  /** The target count with the main target reserved: one slot more than there are
      shadow-casting lights, so the main target's slot, numbered after theirs, fits. */
  function CalcNumTargets(frame: RenderFrame): (r: nat)
    ensures |ShadowCastingLights(frame.directionalLights)| < r <= |frame.directionalLights| + ReservedTargets
  {
    |ShadowCastingLights(frame.directionalLights)| + ReservedTargets
  }

  /** The scene pass slots: the base pass, one per directional light, one per point light,
      and the transparent pass in the last slot. */
  function CalcNumScenePasses(frame: RenderFrame): (r: nat)
    ensures r >= ReservedRenderPasses
    ensures r - 1 == 1 + |frame.directionalLights| + |frame.pointLights|
  {
    ReservedRenderPasses + |frame.directionalLights| + |frame.pointLights|
  }

  //---------------------------------------------------------------- object filters

  function InLayer(layer: RenderLayer): RenderObject -> bool
  {
    (o: RenderObject) => o.layer == layer
  }

  /** The objects of `objects` that belong to `layer`, in input order. */
  function GetLayerRenderObjects(layer: RenderLayer, objects: seq<RenderObject>): (r: seq<RenderObject>)
    ensures IsStableFilter(r, objects, InLayer(layer))
    ensures forall k :: 0 <= k < |r| ==> r[k] in objects && r[k].layer == layer
    ensures forall i :: 0 <= i < |objects| && objects[i].layer == layer ==> objects[i] in r
  {
    Filter(objects, InLayer(layer))
  }

  function VisibleFrom(c: Collaborators, camera: RenderCamera): RenderObject -> bool
  {
    (o: RenderObject) => c.isVisible(camera, o)
  }

  /** RenderPassVisibilityChecker::CalculateVisibleObjects: a stable filter by the checker's
      per-object verdict. */
  function CalculateVisibleObjects(c: Collaborators, camera: RenderCamera, objects: seq<RenderObject>): (r: seq<RenderObject>)
    ensures IsStableFilter(r, objects, VisibleFrom(c, camera))
    ensures forall k :: 0 <= k < |r| ==> r[k] in objects && c.isVisible(camera, r[k])
  {
    Filter(objects, VisibleFrom(c, camera))
  }

  /** The standard-layer objects the frame's camera sees; every scene and shadow pass starts here. */
  function VisibleStandardObjects(frame: RenderFrame, c: Collaborators): seq<RenderObject>
  {
    CalculateVisibleObjects(c, frame.camera, GetLayerRenderObjects(Standard, frame.renderObjects))
  }

  //---------------------------------------------------------------- pass objects

  /** Which objects a pass considers before looking up their material. */
  datatype Admission =
    | AdmitAll
    | AdmitShadowCasters
    | AdmitContainedIn(lightSphere: Sphere, contains: (Sphere, Sphere) -> bool)

  predicate Admits(a: Admission, o: RenderObject)
  {
    match a
    case AdmitAll => true
    case AdmitShadowCasters => o.castsShadows
    case AdmitContainedIn(lightSphere, contains) => contains(lightSphere, o.boundingSphere)
  }

  /** The loop body shared by the Get*RenderPassObjects functions. */
  function Resolve(pass: ForwardRenderPass, a: Admission, o: RenderObject): Option<RenderPassObject>
  {
    if Admits(a, o) then
      match MaterialFor(o, pass)
      case Some(m) => Some(ConvertToRenderPassObject(o, m))
      case None => None
    else None
  }

  function Resolver(pass: ForwardRenderPass, a: Admission): RenderObject -> Option<RenderPassObject>
  {
    (o: RenderObject) => Resolve(pass, a, o)
  }

  /** The positions of the objects that take part in `pass`: admitted, and holding a material
      for the pass; strictly increasing, and every such position is listed. */
  function PassIndices(objects: seq<RenderObject>, pass: ForwardRenderPass, a: Admission): (idx: seq<nat>)
    ensures StrictlyIncreasing(idx) && |idx| <= |objects|
    ensures forall k :: 0 <= k < |idx| ==>
      idx[k] < |objects| && Admits(a, objects[idx[k]]) && MaterialFor(objects[idx[k]], pass).Some?
    ensures forall i :: 0 <= i < |objects| && Admits(a, objects[i]) && MaterialFor(objects[i], pass).Some? ==>
      i in idx
  {
    SomeIndices(objects, Resolver(pass, a))
  }

  /** `r` holds one pass object per object that takes part in `pass`, in input order, each
      drawn with that object's material for the pass. */
  ghost predicate ResolvesInOrder(r: seq<RenderPassObject>, objects: seq<RenderObject>, pass: ForwardRenderPass, a: Admission)
  {
    var idx := PassIndices(objects, pass, a);
    && |r| == |idx|
    && forall k :: 0 <= k < |r| ==>
         r[k] == ConvertToRenderPassObject(objects[idx[k]], MaterialFor(objects[idx[k]], pass).value)
  }

  function BuildRenderPassObjects(objects: seq<RenderObject>, pass: ForwardRenderPass, a: Admission): (r: seq<RenderPassObject>)
    ensures ResolvesInOrder(r, objects, pass, a)
  {
    FilterMapFollowsIndices(objects, Resolver(pass, a));
    FilterMap(objects, Resolver(pass, a))
  }

  /** Shadow casters with a shadow-map material; transparency is not consulted here. */
  function GetShadowMapRenderPassObjects(objects: seq<RenderObject>): (r: seq<RenderPassObject>)
    ensures ResolvesInOrder(r, objects, ShadowMap, AdmitShadowCasters)
  {
    BuildRenderPassObjects(objects, ShadowMap, AdmitShadowCasters)
  }

  function GetBaseRenderPassObjects(objects: seq<RenderObject>): (r: seq<RenderPassObject>)
    ensures ResolvesInOrder(r, objects, Base, AdmitAll)
  {
    BuildRenderPassObjects(objects, Base, AdmitAll)
  }

  /** The pass a directional light uses: the shadowed variant exactly when it owns a shadow map. */
  function DirectionalPassFor(light: DirectionalRenderLight): (pass: ForwardRenderPass)
    ensures pass == DirectionalLightShadows <==> light.shadowMapTarget.Some?
    ensures pass == DirectionalLight <==> light.shadowMapTarget.None?
  {
    if light.shadowMapTarget.Some? then DirectionalLightShadows else DirectionalLight
  }

  function GetDirectionalLightRenderPassObjects(objects: seq<RenderObject>, light: DirectionalRenderLight): (r: seq<RenderPassObject>)
    ensures ResolvesInOrder(r, objects, DirectionalPassFor(light), AdmitAll)
  {
    BuildRenderPassObjects(objects, DirectionalPassFor(light), AdmitAll)
  }

  /** The sphere of influence of a point light. */
  function LightSphere(light: PointRenderLight): Sphere
  {
    Sphere(light.position, light.rangeOfInfluence)
  }

  /** Objects with a point-light material whose bounding sphere lies inside the light's sphere. */
  function GetPointLightRenderPassObjects(objects: seq<RenderObject>, light: PointRenderLight, contains: (Sphere, Sphere) -> bool): (r: seq<RenderPassObject>)
    ensures ResolvesInOrder(r, objects, PointLight, AdmitContainedIn(LightSphere(light), contains))
  {
    BuildRenderPassObjects(objects, PointLight, AdmitContainedIn(LightSphere(light), contains))
  }

  function GetTransparentRenderPassObjects(objects: seq<RenderObject>): (r: seq<RenderPassObject>)
    ensures ResolvesInOrder(r, objects, Transparent, AdmitAll)
  {
    BuildRenderPassObjects(objects, Transparent, AdmitAll)
  }

  //---------------------------------------------------------------- scene camera group

  function BasePass(frame: RenderFrame, c: Collaborators, visible: seq<RenderObject>): RenderPass
  {
    RenderPass(Ambient(frame.ambientLight), c.opaqueSort(frame.camera, GetBaseRenderPassObjects(visible)))
  }

  function DirectionalPass(frame: RenderFrame, c: Collaborators, visible: seq<RenderObject>, light: DirectionalRenderLight): RenderPass
  {
    RenderPass(Directional(light), c.opaqueSort(frame.camera, GetDirectionalLightRenderPassObjects(visible, light)))
  }

  function PointPass(frame: RenderFrame, c: Collaborators, visible: seq<RenderObject>, light: PointRenderLight): RenderPass
  {
    RenderPass(Point(light), c.opaqueSort(frame.camera, GetPointLightRenderPassObjects(visible, light, c.contains)))
  }

  function TransparentPass(frame: RenderFrame, c: Collaborators, visible: seq<RenderObject>): RenderPass
  {
    RenderPass(Ambient(frame.ambientLight), c.transparentSort(frame.camera, GetTransparentRenderPassObjects(visible)))
  }

  /** The scene passes in the order their tasks are pushed: base in slot 0, directional light
      i in slot 1 + i, point light j after all directional lights, transparent in the last slot. */
  predicate InPushOrder(passes: seq<RenderPass>, frame: RenderFrame, c: Collaborators, visible: seq<RenderObject>)
  {
    && |passes| == CalcNumScenePasses(frame)
    && passes[0] == BasePass(frame, c, visible)
    && (forall i :: 0 <= i < |frame.directionalLights| ==>
         passes[1 + i] == DirectionalPass(frame, c, visible, frame.directionalLights[i]))
    && (forall j :: 0 <= j < |frame.pointLights| ==>
         passes[1 + |frame.directionalLights| + j] == PointPass(frame, c, visible, frame.pointLights[j]))
    && passes[|passes| - 1] == TransparentPass(frame, c, visible)
  }

  /** The passes in the order their tasks are pushed: base, one per directional light, one
      per point light, transparent. */
  function ScenePasses(frame: RenderFrame, c: Collaborators, visible: seq<RenderObject>): (passes: seq<RenderPass>)
    ensures InPushOrder(passes, frame, c, visible)
  {
    var n := CalcNumScenePasses(frame);
    var passes := seq(n, k requires 0 <= k < n => PushedPass(frame, c, visible, k));
    PushedPassesInOrder(frame, c, visible, passes);
    passes
  }

  lemma PushedPassesInOrder(frame: RenderFrame, c: Collaborators, visible: seq<RenderObject>, passes: seq<RenderPass>)
    requires |passes| == CalcNumScenePasses(frame)
    requires forall k :: 0 <= k < |passes| ==> passes[k] == PushedPass(frame, c, visible, k)
    ensures InPushOrder(passes, frame, c, visible)
  {
    var dirs, points := frame.directionalLights, frame.pointLights;
    forall i | 0 <= i < |dirs|
      ensures passes[1 + i] == DirectionalPass(frame, c, visible, dirs[i])
    {
      assert passes[1 + i] == PushedPass(frame, c, visible, 1 + i);
    }
    forall j | 0 <= j < |points|
      ensures passes[1 + |dirs| + j] == PointPass(frame, c, visible, points[j])
    {
      var k := 1 + |dirs| + j;
      assert passes[k] == PushedPass(frame, c, visible, k);
      assert k - 1 - |dirs| == j;
    }
    assert passes[0] == PushedPass(frame, c, visible, 0);
    assert passes[|passes| - 1] == PushedPass(frame, c, visible, |passes| - 1);
  }

  /** The pass whose task is pushed k-th. */
  function PushedPass(frame: RenderFrame, c: Collaborators, visible: seq<RenderObject>, k: nat): RenderPass
    requires k < CalcNumScenePasses(frame)
  {
    var dirs, points := frame.directionalLights, frame.pointLights;
    if k == 0 then BasePass(frame, c, visible)
    else if k <= |dirs| then DirectionalPass(frame, c, visible, dirs[k - 1])
    else if k <= |dirs| + |points| then PointPass(frame, c, visible, points[k - 1 - |dirs|])
    else TransparentPass(frame, c, visible)
  }

  /** Runs one task per value, the a-th writing slot a of a vector as long as the values: the
      vector ends up holding the values in push order. */
  function RunNumberedTasks<T>(empty: T, values: seq<T>): (r: seq<T>)
    ensures r == values
  {
    var slots := seq(|values|, _ => empty);
    NumberedFill(slots, values);
    assert values + slots[|values|..] == values;
    ProcessChildTasks(slots, Numbered(values)).value
  }

  /** The scene camera group. Each pushed task takes the next pass index, so the base pass
      lands in slot 0, directional light i in slot 1 + i, point light j after all directional
      lights, and the transparent pass in the last slot; every slot is written. */
  function CompileSceneCameraRenderPassGroup(frame: RenderFrame, c: Collaborators): (g: CameraRenderPassGroup)
    ensures g.camera == frame.camera
    ensures InPushOrder(g.renderPasses, frame, c, VisibleStandardObjects(frame, c))
  {
    var passes := ScenePasses(frame, c, VisibleStandardObjects(frame, c));
    CameraRenderPassGroup(frame.camera, RunNumberedTasks(EmptyRenderPass, passes))
  }

  //---------------------------------------------------------------- UI camera group

  /** The UI camera: orthographic over the frame's resolution, near 0 and far 1. */
  function UICamera(frame: RenderFrame): RenderCamera
  {
    OrthographicCamera(0.0, frame.resolution.x as real, 0.0, frame.resolution.y as real, UINear, UIFar)
  }

  function VisibleUIObjects(frame: RenderFrame, c: Collaborators): seq<RenderObject>
  {
    CalculateVisibleObjects(c, UICamera(frame), GetLayerRenderObjects(UI, frame.renderObjects))
  }

  /** The UI camera group: the visible UI objects drawn with their transparent materials,
      priority-sorted, as one pass; no pass at all when there is nothing to draw. Every visible
      UI object must have a transparent material. */
  function CompileUICameraRenderPassGroup(frame: RenderFrame, c: Collaborators): (r: Result<CameraRenderPassGroup, CompileError>)
    ensures r.Ok? <==> forall i :: 0 <= i < |VisibleUIObjects(frame, c)| ==>
      MaterialFor(VisibleUIObjects(frame, c)[i], Transparent).Some?
    ensures r.Err? ==> r.error == UIObjectWithoutTransparentMaterial
    ensures r.Ok? ==> r.value.camera == UICamera(frame) && |r.value.renderPasses| <= 1
    ensures r.Ok? && |r.value.renderPasses| == 1 ==>
      r.value.renderPasses[0].light == Ambient(frame.ambientLight) && |r.value.renderPasses[0].objects| > 0
  {
    var visible := VisibleUIObjects(frame, c);
    var objects := GetTransparentRenderPassObjects(visible);
    AllResolvedIffAllHaveMaterial(visible, Transparent);
    if |visible| != |objects| then Err(UIObjectWithoutTransparentMaterial)
    else
      var sorted := c.prioritySort(objects);
      var passes := if |sorted| > 0 then [RenderPass(Ambient(frame.ambientLight), sorted)] else [];
      Ok(CameraRenderPassGroup(UICamera(frame), passes))
  }

  /** A pass that admits everything resolves every object exactly when every object has a
      material for the pass. */
  lemma AllResolvedIffAllHaveMaterial(objects: seq<RenderObject>, pass: ForwardRenderPass)
    ensures |BuildRenderPassObjects(objects, pass, AdmitAll)| == |objects| <==>
      forall i :: 0 <= i < |objects| ==> MaterialFor(objects[i], pass).Some?
  {
    var idx := PassIndices(objects, pass, AdmitAll);
    assert |BuildRenderPassObjects(objects, pass, AdmitAll)| == |idx|;
    FullSelection(idx, |objects|);
    assert (forall i :: 0 <= i < |objects| ==> i in idx)
       <==> (forall i :: 0 <= i < |objects| ==> MaterialFor(objects[i], pass).Some?) by {
      forall i | 0 <= i < |objects| && i in idx
        ensures MaterialFor(objects[i], pass).Some?
      {
        var k :| 0 <= k < |idx| && idx[k] == i;
      }
    }
  }

  /** With sorters that only reorder, the UI group has a pass exactly when some UI object is
      visible, and that pass holds one object per visible UI object. */
  lemma UIPassPresentIffVisible(frame: RenderFrame, c: Collaborators)
    requires SortersPermute(c)
    ensures var r := CompileUICameraRenderPassGroup(frame, c);
      r.Ok? ==> (|r.value.renderPasses| == 1 <==> |VisibleUIObjects(frame, c)| > 0)
    ensures var r := CompileUICameraRenderPassGroup(frame, c);
      r.Ok? && |r.value.renderPasses| == 1 ==> |r.value.renderPasses[0].objects| == |VisibleUIObjects(frame, c)|
  {
    var visible := VisibleUIObjects(frame, c);
    var objects := GetTransparentRenderPassObjects(visible);
    var sorted := c.prioritySort(objects);
    assert multiset(sorted) == multiset(objects);
    assert |sorted| == |multiset(sorted)| == |multiset(objects)| == |objects|;
    if CompileUICameraRenderPassGroup(frame, c).Ok? {
      assert |visible| == |objects|;
    }
  }

  //---------------------------------------------------------------- target groups

  /** The main target: the default framebuffer, with the scene group in slot 0 and the UI
      group in slot 1. */
  function CompileMainTargetRenderPassGroup(frame: RenderFrame, c: Collaborators): (r: Result<TargetRenderPassGroup, CompileError>)
    ensures r.Ok? <==> CompileUICameraRenderPassGroup(frame, c).Ok?
    ensures r.Err? ==> r.error == UIObjectWithoutTransparentMaterial
    ensures r.Ok? ==> r.value.target.None?
    ensures r.Ok? ==>
      r.value.cameraGroups == [CompileSceneCameraRenderPassGroup(frame, c), CompileUICameraRenderPassGroup(frame, c).value]
  {
    match CompileUICameraRenderPassGroup(frame, c)
    case Err(e) => Err(e)
    case Ok(ui) =>
      var groups := [CompileSceneCameraRenderPassGroup(frame, c), ui];
      var slots := seq(NumCameraGroups, _ => EmptyCameraGroup);
      NumberedFill(slots, groups);
      assert groups + slots[|groups|..] == groups;
      Ok(TargetRenderPassGroup(None, ProcessChildTasks(slots, Numbered(groups)).value))
  }

  /** The shadow-map target of one light: its shadow-map texture, one group with the unset
      camera, and one unlit pass of opaque-sorted shadow-casting objects. */
  function CompileShadowMapTargetRenderPassGroup(frame: RenderFrame, light: DirectionalRenderLight, c: Collaborators): (g: TargetRenderPassGroup)
    requires light.shadowMapTarget.Some?
    ensures g.target == light.shadowMapTarget
    ensures |g.cameraGroups| == 1 && g.cameraGroups[0].camera == UnsetCamera
    ensures |g.cameraGroups[0].renderPasses| == 1 && g.cameraGroups[0].renderPasses[0].light == NoLight
    ensures g.cameraGroups[0].renderPasses[0].objects
         == c.opaqueSort(frame.camera, GetShadowMapRenderPassObjects(VisibleStandardObjects(frame, c)))
  {
    var objects := GetShadowMapRenderPassObjects(VisibleStandardObjects(frame, c));
    var renderPass := RenderPass(NoLight, c.opaqueSort(frame.camera, objects));
    TargetRenderPassGroup(light.shadowMapTarget, [CameraRenderPassGroup(UnsetCamera, [renderPass])])
  }

  /** With sorters that only reorder, a shadow-map pass draws exactly the visible standard
      objects that cast shadows and have a shadow-map material, each once, with that material. */
  lemma ShadowPassDrawsVisibleCasters(frame: RenderFrame, light: DirectionalRenderLight, c: Collaborators)
    requires light.shadowMapTarget.Some?
    requires SortersPermute(c)
    ensures var drawn := CompileShadowMapTargetRenderPassGroup(frame, light, c).cameraGroups[0].renderPasses[0].objects;
      multiset(drawn) == multiset(GetShadowMapRenderPassObjects(VisibleStandardObjects(frame, c)))
    ensures var drawn := CompileShadowMapTargetRenderPassGroup(frame, light, c).cameraGroups[0].renderPasses[0].objects;
      DrawsExactlyShadowCasters(drawn, VisibleStandardObjects(frame, c))
  {
    var visible := VisibleStandardObjects(frame, c);
    var objects := GetShadowMapRenderPassObjects(visible);
    var drawn := c.opaqueSort(frame.camera, objects);
    assert CompileShadowMapTargetRenderPassGroup(frame, light, c).cameraGroups[0].renderPasses[0].objects == drawn;
    ShadowObjectsAreCasters(visible);
    CastersSurviveReordering(objects, drawn, visible);
  }

  /** `drawn` holds the shadow-map pass object of every shadow caster in `visible` that has a
      shadow-map material, and nothing else. */
  ghost predicate DrawsExactlyShadowCasters(drawn: seq<RenderPassObject>, visible: seq<RenderObject>)
  {
    && (forall p :: p in drawn ==> exists i :: 0 <= i < |visible| && ShadowCasterDrawnAs(visible[i], p))
    && (forall i :: 0 <= i < |visible| && visible[i].castsShadows && MaterialFor(visible[i], ShadowMap).Some? ==>
          ShadowPassObject(visible[i]) in drawn)
  }

  lemma CastersSurviveReordering(objects: seq<RenderPassObject>, drawn: seq<RenderPassObject>, visible: seq<RenderObject>)
    requires multiset(drawn) == multiset(objects)
    requires DrawsExactlyShadowCasters(objects, visible)
    ensures DrawsExactlyShadowCasters(drawn, visible)
  {
    forall p | p in drawn
      ensures exists i :: 0 <= i < |visible| && ShadowCasterDrawnAs(visible[i], p)
    {
      assert p in multiset(objects);
      assert p in objects;
    }
    forall i | 0 <= i < |visible| && visible[i].castsShadows && MaterialFor(visible[i], ShadowMap).Some?
      ensures ShadowPassObject(visible[i]) in drawn
    {
      assert ShadowPassObject(visible[i]) in multiset(objects);
    }
  }

  /** The shadow-map objects of `visible` are exactly the pass objects of its shadow casters
      that have a shadow-map material. */
  lemma ShadowObjectsAreCasters(visible: seq<RenderObject>)
    ensures DrawsExactlyShadowCasters(GetShadowMapRenderPassObjects(visible), visible)
  {
    var objects := GetShadowMapRenderPassObjects(visible);
    var idx := PassIndices(visible, ShadowMap, AdmitShadowCasters);
    assert ResolvesInOrder(objects, visible, ShadowMap, AdmitShadowCasters);
    forall p | p in objects
      ensures exists i :: 0 <= i < |visible| && ShadowCasterDrawnAs(visible[i], p)
    {
      var k :| 0 <= k < |objects| && objects[k] == p;
      assert ShadowCasterDrawnAs(visible[idx[k]], p);
    }
    forall i | 0 <= i < |visible| && visible[i].castsShadows && MaterialFor(visible[i], ShadowMap).Some?
      ensures ShadowPassObject(visible[i]) in objects
    {
      assert i in idx;
      var k :| 0 <= k < |idx| && idx[k] == i;
      assert objects[k] == ShadowPassObject(visible[i]);
    }
  }

  /** The shadow-map pass object of a shadow caster that has a shadow-map material. */
  function ShadowPassObject(o: RenderObject): RenderPassObject
    requires MaterialFor(o, ShadowMap).Some?
  {
    ConvertToRenderPassObject(o, MaterialFor(o, ShadowMap).value)
  }

  /** `p` is how the shadow-map pass draws `o`. */
  predicate ShadowCasterDrawnAs(o: RenderObject, p: RenderPassObject)
  {
    o.castsShadows && MaterialFor(o, ShadowMap).Some? && p == ShadowPassObject(o)
  }

  /** The shadow-map targets in the order their tasks are pushed: the loop visits every
      directional light but takes a target index only for those that own a shadow map. */
  function ShadowTargetGroups(frame: RenderFrame, c: Collaborators): (groups: seq<TargetRenderPassGroup>)
    ensures |groups| == |ShadowCastingLights(frame.directionalLights)|
    ensures forall i :: 0 <= i < |groups| ==>
      groups[i] == CompileShadowMapTargetRenderPassGroup(frame, ShadowCastingLights(frame.directionalLights)[i], c)
  {
    var lights := ShadowCastingLights(frame.directionalLights);
    seq(|lights|, i requires 0 <= i < |lights| => CompileShadowMapTargetRenderPassGroup(frame, lights[i], c))
  }

  /** Runs the shadow tasks and then the main task against a vector of `numTargets` targets. */
  function CompileWithTargetCount(frame: RenderFrame, c: Collaborators, numTargets: nat): Result<seq<TargetRenderPassGroup>, CompileError>
  {
    match CompileMainTargetRenderPassGroup(frame, c)
    case Err(e) => Err(e)
    case Ok(main) =>
      match ProcessChildTasks(seq(numTargets, _ => EmptyTargetGroup), Numbered(ShadowTargetGroups(frame, c) + [main]))
      case Ok(groups) => Ok(groups)
      case Err(e) => Err(TargetSlotError(e))
  }

  /** CompileTargetRenderPassGroups as the source has it, with the vector sized by
      CalcNumTargetsAsWritten. */
  function CompileTargetRenderPassGroupsAsWritten(frame: RenderFrame, c: Collaborators): Result<seq<TargetRenderPassGroup>, CompileError>
  {
    CompileWithTargetCount(frame, c, CalcNumTargetsAsWritten(frame))
  }

  /** The main task's slot is the number of shadow-casting lights, one past the end of the
      vector the source allocates: no frame compiles. */
  lemma AsWrittenMainSlotOutOfRange(frame: RenderFrame, c: Collaborators)
    ensures CompileTargetRenderPassGroupsAsWritten(frame, c).Err?
    ensures CompileMainTargetRenderPassGroup(frame, c).Ok? ==>
      var n := |ShadowCastingLights(frame.directionalLights)|;
      CompileTargetRenderPassGroupsAsWritten(frame, c) == Err(TargetSlotError(SlotOutOfRange(n, n)))
  {
    var main := CompileMainTargetRenderPassGroup(frame, c);
    if main.Ok? {
      NumberedFill(seq(CalcNumTargetsAsWritten(frame), _ => EmptyTargetGroup), ShadowTargetGroups(frame, c) + [main.value]);
    }
  }

  /** The smallest witness: a frame with no lights and no objects. The source allocates an
      empty vector and writes the main target at index 0. */
  lemma EmptyFrameFailsAsWritten(c: Collaborators)
    ensures var frame := RenderFrame(SceneCamera(0), Resolution(1, 1), AmbientRenderLight(0), [], [], []);
      CompileTargetRenderPassGroupsAsWritten(frame, c) == Err(TargetSlotError(SlotOutOfRange(0, 0)))
  {
    var frame := RenderFrame(SceneCamera(0), Resolution(1, 1), AmbientRenderLight(0), [], [], []);
    assert CompileUICameraRenderPassGroup(frame, c).Ok?;
    AsWrittenMainSlotOutOfRange(frame, c);
  }

  /** CompileTargetRenderPassGroups with the main target reserved: the shadow-map targets in
      light order, then the main target. It fails only on the UI material assertion. */
  function CompileTargetRenderPassGroups(frame: RenderFrame, c: Collaborators): (r: Result<seq<TargetRenderPassGroup>, CompileError>)
    ensures r.Ok? <==> CompileMainTargetRenderPassGroup(frame, c).Ok?
    ensures r.Err? ==> r.error == UIObjectWithoutTransparentMaterial
    ensures r.Ok? ==> |r.value| == |ShadowCastingLights(frame.directionalLights)| + 1
    ensures r.Ok? ==> forall i :: 0 <= i < |ShadowCastingLights(frame.directionalLights)| ==>
      r.value[i] == CompileShadowMapTargetRenderPassGroup(frame, ShadowCastingLights(frame.directionalLights)[i], c)
    ensures r.Ok? ==> r.value[|r.value| - 1] == CompileMainTargetRenderPassGroup(frame, c).value
  {
    var r := CompileWithTargetCount(frame, c, CalcNumTargets(frame));
    ReservedTargetHoldsMain(frame, c);
    var main := CompileMainTargetRenderPassGroup(frame, c);
    if main.Ok? then
      var shadows := ShadowTargetGroups(frame, c);
      AppendOneLayout(shadows, main.value);
      r
    else r
  }

  lemma AppendOneLayout<T>(xs: seq<T>, x: T)
    ensures |xs + [x]| == |xs| + 1 && (xs + [x])[|xs|] == x
    ensures forall i :: 0 <= i < |xs| ==> (xs + [x])[i] == xs[i]
  {
  }

  /** With room for the main target, every task's write lands in its own slot and the vector
      comes back as the shadow-map targets followed by the main target. */
  lemma ReservedTargetHoldsMain(frame: RenderFrame, c: Collaborators)
    ensures var main := CompileMainTargetRenderPassGroup(frame, c);
      CompileWithTargetCount(frame, c, CalcNumTargets(frame))
        == if main.Ok? then Ok(ShadowTargetGroups(frame, c) + [main.value]) else Err(main.error)
  {
    var main := CompileMainTargetRenderPassGroup(frame, c);
    if main.Ok? {
      var groups := ShadowTargetGroups(frame, c) + [main.value];
      var slots := seq(CalcNumTargets(frame), _ => EmptyTargetGroup);
      assert |groups| == |slots|;
      NumberedFillInRange(slots, groups);
      assert slots[|groups|..] == [];
      assert groups + slots[|groups|..] == groups;
    }
  }
}
