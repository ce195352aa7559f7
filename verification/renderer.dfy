/** The legacy scene renderer: it finds the renderables, cameras and lights of a scene, culls
    and partitions the renderables, and draws the frame as a fixed sequence of passes. The
    render system calls it makes are recorded as a trace of FrameEvent values; the renderables'
    own drawing, the sprite batch and render-target creation are not modelled. Culling, sphere
    intersection and sort predicates are engine components outside the model and are passed
    in as functions. */
module Renderer {
  import opened Outcomes
  import opened RenderTypes
  import opened Selection

  /** A render component as the renderer's filters see it. */
  datatype Renderable = Renderable(
    handle: nat,
    visible: bool,
    cullingEnabled: bool,
    transparent: bool,
    castsShadows: bool,
    boundingSphere: Sphere)

  /** A culling or sort predicate, identified by a handle. */
  datatype PredicateRef = PredicateRef(handle: nat)

  datatype Camera = Camera(
    handle: nat,
    orthographic: bool,
    cullPredicate: Option<PredicateRef>,
    opaqueSort: Option<PredicateRef>,
    transparentSort: Option<PredicateRef>)

  /** The renderer's own predicates, used when a camera has none. */
  datatype RendererDefaults = RendererDefaults(
    orthoCull: Option<PredicateRef>,
    perspectiveCull: Option<PredicateRef>,
    opaqueSort: Option<PredicateRef>,
    transparentSort: Option<PredicateRef>)

  /** The engine components the renderer calls: the predicate's CullItem, sphere
      intersection, and std::sort under a sort predicate. */
  datatype Engine = Engine(
    cullItem: (PredicateRef, Camera, Renderable) -> bool,
    intersects: (Sphere, Sphere) -> bool,
    sortWith: (PredicateRef, seq<Renderable>) -> seq<Renderable>)

  /** All that is relied on about sorting: it reorders, never adds or drops. */
  ghost predicate SortPermutes(e: Engine)
  {
    forall pred, items :: multiset(e.sortWith(pred, items)) == multiset(items)
  }

  //---------------------------------------------------------------- predicate choice

  /** The first predicate that is set. */
  function Fallback(own: Option<PredicateRef>, default: Option<PredicateRef>): (r: Option<PredicateRef>)
    ensures r.Some? <==> own.Some? || default.Some?
    ensures r.Some? ==> r == own || r == default
    ensures own.Some? ==> r == own
  {
    if own.Some? then own else default
  }

  /** The camera's own culling predicate if it has one, else the renderer's orthographic or
      perspective predicate according to the camera's projection. */
  function GetCullPredicate(camera: Camera, defaults: RendererDefaults): (r: Option<PredicateRef>)
    ensures camera.cullPredicate.Some? ==> r == camera.cullPredicate
    ensures camera.cullPredicate.None? && camera.orthographic ==> r == defaults.orthoCull
    ensures camera.cullPredicate.None? && !camera.orthographic ==> r == defaults.perspectiveCull
  {
    Fallback(camera.cullPredicate, if camera.orthographic then defaults.orthoCull else defaults.perspectiveCull)
  }

  /** Sorts with the camera's predicate, else the renderer's; leaves the list as it is when
      neither is set. */
  function SortWith(pred: Option<PredicateRef>, e: Engine, items: seq<Renderable>): (r: seq<Renderable>)
    ensures pred.None? ==> r == items
    ensures SortPermutes(e) ==> multiset(r) == multiset(items) && |r| == |items|
  {
    if pred.None? then items
    else
      var sorted := e.sortWith(pred.value, items);
      assert SortPermutes(e) ==> |sorted| == |multiset(sorted)| == |multiset(items)| == |items|;
      sorted
  }

  /** Sorts the opaque items with the camera's opaque predicate, else the renderer's. */
  function SortOpaque(camera: Camera, defaults: RendererDefaults, e: Engine, items: seq<Renderable>): (r: seq<Renderable>)
    ensures camera.opaqueSort.None? && defaults.opaqueSort.None? ==> r == items
    ensures SortPermutes(e) ==> multiset(r) == multiset(items)
  {
    SortWith(Fallback(camera.opaqueSort, defaults.opaqueSort), e, items)
  }

  /** Sorts the transparent items with the camera's transparent predicate, else the renderer's. */
  function SortTransparent(camera: Camera, defaults: RendererDefaults, e: Engine, items: seq<Renderable>): (r: seq<Renderable>)
    ensures camera.transparentSort.None? && defaults.transparentSort.None? ==> r == items
    ensures SortPermutes(e) ==> multiset(r) == multiset(items)
  {
    SortWith(Fallback(camera.transparentSort, defaults.transparentSort), e, items)
  }

  /** A camera's own sort predicates win over the renderer's; with no predicate on either
      side the list is left unsorted. */
  lemma SortPredicateChoice(camera: Camera, defaults: RendererDefaults, e: Engine, items: seq<Renderable>)
    ensures camera.opaqueSort.Some? ==>
      SortOpaque(camera, defaults, e, items) == e.sortWith(camera.opaqueSort.value, items)
    ensures camera.opaqueSort.None? && defaults.opaqueSort.Some? ==>
      SortOpaque(camera, defaults, e, items) == e.sortWith(defaults.opaqueSort.value, items)
    ensures camera.opaqueSort.None? && defaults.opaqueSort.None? ==> SortOpaque(camera, defaults, e, items) == items
    ensures camera.transparentSort.Some? ==>
      SortTransparent(camera, defaults, e, items) == e.sortWith(camera.transparentSort.value, items)
    ensures camera.transparentSort.None? && defaults.transparentSort.Some? ==>
      SortTransparent(camera, defaults, e, items) == e.sortWith(defaults.transparentSort.value, items)
    ensures camera.transparentSort.None? && defaults.transparentSort.None? ==>
      SortTransparent(camera, defaults, e, items) == items
  {
  }

  //---------------------------------------------------------------- culling and filters

  /** The camera cull's loop test: visible, and either exempt from culling or not culled. */
  function SurvivesCull(e: Engine, pred: PredicateRef, camera: Camera): Renderable -> bool
  {
    (o: Renderable) => o.visible && (!o.cullingEnabled || !e.cullItem(pred, camera, o))
  }

  /** Camera culling: a copy of the input when no culling predicate applies, else the visible
      renderables that are exempt from culling or that the predicate keeps, in input order. */
  function CullRenderables(camera: Camera, defaults: RendererDefaults, e: Engine, items: seq<Renderable>): (r: seq<Renderable>)
    ensures GetCullPredicate(camera, defaults).None? ==> r == items
    ensures GetCullPredicate(camera, defaults).Some? ==>
      IsStableFilter(r, items, SurvivesCull(e, GetCullPredicate(camera, defaults).value, camera))
    ensures GetCullPredicate(camera, defaults).Some? ==> forall k :: 0 <= k < |r| ==>
      r[k] in items && r[k].visible
      && (!r[k].cullingEnabled || !e.cullItem(GetCullPredicate(camera, defaults).value, camera, r[k]))
    ensures GetCullPredicate(camera, defaults).Some? ==> forall i :: 0 <= i < |items| ==>
      items[i].visible && (!items[i].cullingEnabled || !e.cullItem(GetCullPredicate(camera, defaults).value, camera, items[i]))
      ==> items[i] in r
  {
    var pred := GetCullPredicate(camera, defaults);
    if pred.None? then items else Filter(items, SurvivesCull(e, pred.value, camera))
  }

  datatype PointLight = PointLight(handle: nat, position: Vector3, rangeOfInfluence: real)

  function IntersectsLight(e: Engine, lightSphere: Sphere): Renderable -> bool
  {
    (o: Renderable) => e.intersects(lightSphere, o.boundingSphere)
  }

  /** Point-light culling: the renderables whose bounding sphere intersects the light's sphere
      of influence, in input order. */
  function CullRenderablesForPointLight(light: PointLight, e: Engine, items: seq<Renderable>): (r: seq<Renderable>)
    ensures IsStableFilter(r, items, IntersectsLight(e, Sphere(light.position, light.rangeOfInfluence)))
    ensures forall k :: 0 <= k < |r| ==>
      r[k] in items && e.intersects(Sphere(light.position, light.rangeOfInfluence), r[k].boundingSphere)
    ensures forall i :: 0 <= i < |items| && e.intersects(Sphere(light.position, light.rangeOfInfluence), items[i].boundingSphere) ==>
      items[i] in r
  {
    Filter(items, IntersectsLight(e, Sphere(light.position, light.rangeOfInfluence)))
  }

  predicate IsTransparent(o: Renderable)
  {
    o.transparent
  }

  /** Splits the renderables into opaque and transparent lists, each in input order; together
      they hold every renderable exactly once. */
  function FilterSceneRenderables(items: seq<Renderable>): (r: (seq<Renderable>, seq<Renderable>))
    ensures IsStableFilter(r.0, items, Not(IsTransparent)) && IsStableFilter(r.1, items, IsTransparent)
    ensures forall k :: 0 <= k < |r.0| ==> !r.0[k].transparent
    ensures forall k :: 0 <= k < |r.1| ==> r.1[k].transparent
    ensures |r.0| + |r.1| == |items|
    ensures multiset(r.0) + multiset(r.1) == multiset(items)
  {
    PartitionIsExact(items, IsTransparent);
    (Filter(items, Not(IsTransparent)), Filter(items, IsTransparent))
  }

  predicate CastsOpaqueShadow(o: Renderable)
  {
    o.castsShadows && !o.transparent
  }

  /** The renderables drawn into shadow maps: shadow casters that are not transparent. */
  function FilterShadowMapRenderables(items: seq<Renderable>): (r: seq<Renderable>)
    ensures IsStableFilter(r, items, CastsOpaqueShadow)
    ensures forall k :: 0 <= k < |r| ==> r[k] in items && r[k].castsShadows && !r[k].transparent
    ensures forall i :: 0 <= i < |items| && items[i].castsShadows && !items[i].transparent ==> items[i] in r
  {
    Filter(items, CastsOpaqueShadow)
  }

  //---------------------------------------------------------------- scene contents

  datatype DirectionalLight = DirectionalLight(handle: nat, hasShadowMap: bool)

  datatype AmbientLight = AmbientLight(handle: nat)

  /** What a light component is; other light types are ignored by the split. */
  datatype LightKind =
    | DirectionalKind(directional: DirectionalLight)
    | PointKind(point: PointLight)
    | AmbientKind(ambient: AmbientLight)
    | OtherKind

  datatype LightComponent = LightComponent(entityVisible: bool, kind: LightKind)

  datatype Scene = Scene(renderables: seq<Renderable>, cameras: seq<Camera>, lights: seq<LightComponent>)

  datatype LightSplit = LightSplit(directionals: seq<DirectionalLight>, points: seq<PointLight>, ambient: Option<AmbientLight>)

  function AsDirectional(l: LightComponent): Option<DirectionalLight>
  {
    if l.entityVisible && l.kind.DirectionalKind? then Some(l.kind.directional) else None
  }

  function AsPoint(l: LightComponent): Option<PointLight>
  {
    if l.entityVisible && l.kind.PointKind? then Some(l.kind.point) else None
  }

  predicate IsVisibleAmbient(l: LightComponent)
  {
    l.entityVisible && l.kind.AmbientKind?
  }

  /** `lights[i]` is a visible ambient light carrying `ambient`, and no visible ambient light
      follows it. */
  ghost predicate LastVisibleAmbient(lights: seq<LightComponent>, i: nat, ambient: AmbientLight)
    requires i < |lights|
  {
    && IsVisibleAmbient(lights[i])
    && lights[i].kind.ambient == ambient
    && forall j :: i < j < |lights| ==> !IsVisibleAmbient(lights[j])
  }

  /** The light split of FindRenderableObjectsInScene: lights on invisible entities are
      skipped; directional and point lights are collected in scene order; the ambient light is
      the last visible one, or none. */
  function SplitLights(lights: seq<LightComponent>): (r: LightSplit)
    ensures r.directionals == FilterMap(lights, AsDirectional)
    ensures r.points == FilterMap(lights, AsPoint)
    ensures r.ambient.Some? <==> exists i :: 0 <= i < |lights| && IsVisibleAmbient(lights[i])
    ensures r.ambient.Some? ==> exists i :: 0 <= i < |lights| && LastVisibleAmbient(lights, i, r.ambient.value)
  {
    if |lights| == 0 then LightSplit([], [], None)
    else
      var init, last := lights[..|lights| - 1], lights[|lights| - 1];
      var earlier := SplitLights(init);
      FilterMapSnoc(init, last, AsDirectional);
      FilterMapSnoc(init, last, AsPoint);
      SplitLast(lights);
      AmbientStep(init, last, earlier.ambient);
      if !last.entityVisible then earlier
      else match last.kind
        case DirectionalKind(d) => earlier.(directionals := earlier.directionals + [d])
        case PointKind(p) => earlier.(points := earlier.points + [p])
        case AmbientKind(a) => earlier.(ambient := Some(a))
        case OtherKind => earlier
  }

  /** One step of the split loop keeps "the ambient light is the last visible one". */
  lemma AmbientStep(init: seq<LightComponent>, last: LightComponent, earlier: Option<AmbientLight>)
    requires earlier.Some? <==> exists i :: 0 <= i < |init| && IsVisibleAmbient(init[i])
    requires earlier.Some? ==> exists i :: 0 <= i < |init| && LastVisibleAmbient(init, i, earlier.value)
    ensures var lights := init + [last];
      var next := if IsVisibleAmbient(last) then Some(last.kind.ambient) else earlier;
      && (next.Some? <==> exists i :: 0 <= i < |lights| && IsVisibleAmbient(lights[i]))
      && (next.Some? ==> exists i :: 0 <= i < |lights| && LastVisibleAmbient(lights, i, next.value))
  {
    var lights := init + [last];
    assert forall i :: 0 <= i < |init| ==> lights[i] == init[i];
    if IsVisibleAmbient(last) {
      assert LastVisibleAmbient(lights, |init|, last.kind.ambient);
    } else if earlier.Some? {
      var i :| 0 <= i < |init| && LastVisibleAmbient(init, i, earlier.value);
      assert LastVisibleAmbient(lights, i, earlier.value);
    } else {
      assert forall i :: 0 <= i < |lights| ==> !IsVisibleAmbient(lights[i]);
    }
  }

  predicate HasShadowMap(light: DirectionalLight)
  {
    light.hasShadowMap
  }

  //---------------------------------------------------------------- frame trace

  datatype ShaderPass = AmbientPass | DirectionalPass | PointPass

  /** The light handed to the render system; NoLight is a null light. */
  datatype LightRef =
    | NoLight
    | AmbientRef(ambient: AmbientLight)
    | DirectionalRef(directional: DirectionalLight)
    | PointRef(point: PointLight)

  function AmbientRefOf(ambient: Option<AmbientLight>): LightRef
  {
    match ambient
    case None => NoLight
    case Some(a) => AmbientRef(a)
  }

  /** The render-system calls of one frame. A shadow-map pass stands for the whole
      begin/draw/end cycle on the light's shadow target; the additive blend, depth-write and
      alpha-blend lock calls of the light passes are grouped into one lock and one unlock. */
  datatype FrameEvent =
    | ApplySceneCamera(camera: Camera)
    | SetLight(light: LightRef)
    | ShadowMapPass(shadowLight: DirectionalLight, items: seq<Renderable>)
    | BeginFrame
    | Render(pass: ShaderPass, items: seq<Renderable>)
    | LockLightBlending
    | UnlockLightBlending
    | RenderUI
    | DiscardTarget
    | EndFrame

  /** The shadow-map stage: the shadow casters are filtered only when the scene has a
      directional light; each light that owns a shadow map is set and then rendered into. */
  function ShadowMapEvents(lights: seq<DirectionalLight>, items: seq<Renderable>): seq<FrameEvent>
  {
    var casters := if |lights| > 0 then FilterShadowMapRenderables(items) else [];
    ShadowMapLoop(lights, casters)
  }

  function ShadowMapLoop(lights: seq<DirectionalLight>, casters: seq<Renderable>): seq<FrameEvent>
  {
    if |lights| == 0 then []
    else
      var earlier := ShadowMapLoop(lights[..|lights| - 1], casters);
      var light := lights[|lights| - 1];
      if light.hasShadowMap then earlier + [SetLight(DirectionalRef(light)), ShadowMapPass(light, casters)] else earlier
  }

  function DirectionalLightEvents(lights: seq<DirectionalLight>, opaqueItems: seq<Renderable>): seq<FrameEvent>
  {
    if |lights| == 0 then []
    else
      DirectionalLightEvents(lights[..|lights| - 1], opaqueItems)
      + [SetLight(DirectionalRef(lights[|lights| - 1])), Render(DirectionalPass, opaqueItems)]
  }

  function PointLightEvents(lights: seq<PointLight>, e: Engine, opaqueItems: seq<Renderable>): seq<FrameEvent>
  {
    if |lights| == 0 then []
    else
      var light := lights[|lights| - 1];
      PointLightEvents(lights[..|lights| - 1], e, opaqueItems)
      + [SetLight(PointRef(light)), Render(PointPass, CullRenderablesForPointLight(light, e, opaqueItems))]
  }

  function PresentEvents(target: Option<nat>): seq<FrameEvent>
  {
    (if target.Some? then [DiscardTarget] else []) + [EndFrame]
  }

  /** Width and height of a texture target. */
  datatype TextureSize = TextureSize(width: nat, height: nat)

  /** RenderToTexture's off-screen target size: the colour texture's size when there is one,
      else the depth texture's, else 1 x 1. */
  function RenderToTextureSize(colour: Option<TextureSize>, depth: Option<TextureSize>): (r: TextureSize)
    ensures colour.Some? ==> r == colour.value
    ensures colour.None? ==> r == (if depth.Some? then depth.value else TextureSize(1, 1))
    ensures r.width > 0 && r.height > 0 <==>
      (if colour.Some? then colour.value.width > 0 && colour.value.height > 0
       else depth.None? || (depth.value.width > 0 && depth.value.height > 0))
  {
    match colour
    case Some(size) => size
    case None => if depth.Some? then depth.value else TextureSize(1, 1)
  }

  /** RenderSceneToTarget. `target` is the render target, None for a null target. The active
      camera is the last camera found in the scene; without one only the UI is drawn. */
  function RenderSceneToTarget(scene: Scene, target: Option<nat>, defaults: RendererDefaults, e: Engine): (trace: seq<FrameEvent>)
    ensures |trace| > 0
    ensures trace[0] == if |scene.cameras| > 0 then ApplySceneCamera(scene.cameras[|scene.cameras| - 1]) else BeginFrame
    ensures trace[|trace| - 1] == EndFrame
    ensures target.Some? ==> trace[|trace| - 2] == DiscardTarget
  {
    if |scene.cameras| == 0 then UIOnlyFrame(target)
    else SceneFrame(scene, scene.cameras[|scene.cameras| - 1], target, defaults, e)
  }

  function UIOnlyFrame(target: Option<nat>): seq<FrameEvent>
  {
    [BeginFrame, SetLight(NoLight), RenderUI] + PresentEvents(target)
  }

  /** The frame drawn through `camera`: shadow maps, then the scene passes, then the UI. */
  function SceneFrame(scene: Scene, camera: Camera, target: Option<nat>, defaults: RendererDefaults, e: Engine): seq<FrameEvent>
  {
    var split := SplitLights(scene.lights);
    var opaqueItems := SceneOpaqueItems(scene, camera, defaults, e);
    var transparentItems := SceneTransparentItems(scene, camera, defaults, e);
    [ApplySceneCamera(camera)]
    + ShadowMapEvents(split.directionals, scene.renderables)
    + AmbientOpaqueEvents(split.ambient, opaqueItems)
    + LightPassEvents(split, e, opaqueItems)
    + TransparentAndUIEvents(transparentItems)
    + PresentEvents(target)
  }

  /** The camera-culled opaque renderables, sorted for drawing. */
  function SceneOpaqueItems(scene: Scene, camera: Camera, defaults: RendererDefaults, e: Engine): seq<Renderable>
  {
    SortOpaque(camera, defaults, e, FilterSceneRenderables(CullRenderables(camera, defaults, e, scene.renderables)).0)
  }

  /** The camera-culled transparent renderables, sorted for drawing. */
  function SceneTransparentItems(scene: Scene, camera: Camera, defaults: RendererDefaults, e: Engine): seq<Renderable>
  {
    SortTransparent(camera, defaults, e, FilterSceneRenderables(CullRenderables(camera, defaults, e, scene.renderables)).1)
  }

  function AmbientOpaqueEvents(ambient: Option<AmbientLight>, opaqueItems: seq<Renderable>): seq<FrameEvent>
  {
    [BeginFrame, SetLight(AmbientRefOf(ambient)), Render(AmbientPass, opaqueItems)]
  }

  function TransparentAndUIEvents(transparentItems: seq<Renderable>): seq<FrameEvent>
  {
    [Render(AmbientPass, transparentItems), SetLight(NoLight), RenderUI]
  }


  //---------------------------------------------------------------- stage order

  /** What a frame draws, in the order it draws it, each with the light the render system has
      been handed when it is drawn: a shadow map of a light over its casters, a scene pass over
      its items, or the UI. */
  datatype Stage =
    | ShadowStage(light: DirectionalLight, under: LightRef, casters: seq<Renderable>)
    | PassStage(pass: ShaderPass, under: LightRef, items: seq<Renderable>)
    | UIStage(under: LightRef)

  /** The light in force after a trace: the one its last SetLight hands over, or `before`, the
      light in force when the trace starts, if it sets none. */
  function LightAfter(trace: seq<FrameEvent>, before: LightRef): LightRef
  {
    if |trace| == 0 then before
    else match trace[|trace| - 1]
      case SetLight(light) => light
      case _ => LightAfter(trace[..|trace| - 1], before)
  }

  /** The stage an event draws while `light` is in force, if it draws one. */
  function StagesOf(event: FrameEvent, light: LightRef): seq<Stage>
  {
    match event
    case ShadowMapPass(shadowLight, casters) => [ShadowStage(shadowLight, light, casters)]
    case Render(pass, items) => [PassStage(pass, light, items)]
    case RenderUI => [UIStage(light)]
    case _ => []
  }

  /** The stages of a trace that starts with `before` in force, in order; the calls that draw
      nothing are left out. */
  function Stages(trace: seq<FrameEvent>, before: LightRef): seq<Stage>
  {
    if |trace| == 0 then []
    else
      var init := trace[..|trace| - 1];
      Stages(init, before) + StagesOf(trace[|trace| - 1], LightAfter(init, before))
  }

  /** A call that neither draws nor sets a light. */
  predicate Inert(event: FrameEvent)
  {
    !(event.SetLight? || event.ShadowMapPass? || event.Render? || event.RenderUI?)
  }

  /** One shadow-map stage per light, in light order, each drawn under its own light and over
      the same casters. */
  function ShadowStages(lights: seq<DirectionalLight>, casters: seq<Renderable>): (r: seq<Stage>)
    ensures |r| == |lights|
    ensures forall k :: 0 <= k < |r| ==> r[k] == ShadowStage(lights[k], DirectionalRef(lights[k]), casters)
  {
    seq(|lights|, k requires 0 <= k < |lights| => ShadowStage(lights[k], DirectionalRef(lights[k]), casters))
  }

  /** One directional pass per directional light, in light order, each drawn under its light
      and over the opaque items. */
  function DirectionalStages(lights: seq<DirectionalLight>, opaqueItems: seq<Renderable>): (r: seq<Stage>)
    ensures |r| == |lights|
    ensures forall k :: 0 <= k < |r| ==> r[k] == PassStage(DirectionalPass, DirectionalRef(lights[k]), opaqueItems)
  {
    seq(|lights|, k requires 0 <= k < |lights| => PassStage(DirectionalPass, DirectionalRef(lights[k]), opaqueItems))
  }

  /** One point pass per point light, in light order, each drawn under its light and over the
      opaque items that meet the light's sphere of influence. */
  function PointStages(lights: seq<PointLight>, e: Engine, opaqueItems: seq<Renderable>): (r: seq<Stage>)
    ensures |r| == |lights|
    ensures forall k :: 0 <= k < |r| ==>
      r[k] == PassStage(PointPass, PointRef(lights[k]), CullRenderablesForPointLight(lights[k], e, opaqueItems))
  {
    seq(|lights|, k requires 0 <= k < |lights| =>
      PassStage(PointPass, PointRef(lights[k]), CullRenderablesForPointLight(lights[k], e, opaqueItems)))
  }

  /** The light the light passes leave in force: the last point light, else the last
      directional light, else the light in force before them. */
  function LightAfterLightPasses(split: LightSplit, before: LightRef): LightRef
  {
    if |split.points| > 0 then PointRef(split.points[|split.points| - 1])
    else if |split.directionals| > 0 then DirectionalRef(split.directionals[|split.directionals| - 1])
    else before
  }

  lemma ShadowStagesSnoc(init: seq<DirectionalLight>, light: DirectionalLight, casters: seq<Renderable>)
    ensures ShadowStages(init + [light], casters)
         == ShadowStages(init, casters) + [ShadowStage(light, DirectionalRef(light), casters)]
  {
    var whole, front := ShadowStages(init + [light], casters), ShadowStages(init, casters);
    assert forall k :: 0 <= k < |init| ==> whole[k] == front[k];
  }

  lemma DirectionalStagesSnoc(init: seq<DirectionalLight>, light: DirectionalLight, opaqueItems: seq<Renderable>)
    ensures DirectionalStages(init + [light], opaqueItems)
         == DirectionalStages(init, opaqueItems) + [PassStage(DirectionalPass, DirectionalRef(light), opaqueItems)]
  {
    var whole, front := DirectionalStages(init + [light], opaqueItems), DirectionalStages(init, opaqueItems);
    assert forall k :: 0 <= k < |init| ==> whole[k] == front[k];
  }

  lemma PointStagesSnoc(init: seq<PointLight>, light: PointLight, e: Engine, opaqueItems: seq<Renderable>)
    ensures PointStages(init + [light], e, opaqueItems)
         == PointStages(init, e, opaqueItems)
            + [PassStage(PointPass, PointRef(light), CullRenderablesForPointLight(light, e, opaqueItems))]
  {
    var whole, front := PointStages(init + [light], e, opaqueItems), PointStages(init, e, opaqueItems);
    assert forall k :: 0 <= k < |init| ==> whole[k] == front[k];
  }

  lemma StagesSnoc(init: seq<FrameEvent>, last: FrameEvent, before: LightRef)
    ensures Stages(init + [last], before) == Stages(init, before) + StagesOf(last, LightAfter(init, before))
    ensures LightAfter(init + [last], before) == if last.SetLight? then last.light else LightAfter(init, before)
  {
    assert (init + [last])[..|init|] == init;
  }

  /** Two traces run in turn: the second starts under the light the first leaves in force. */
  lemma {:induction false} StagesAppend(a: seq<FrameEvent>, b: seq<FrameEvent>, before: LightRef)
    ensures Stages(a + b, before) == Stages(a, before) + Stages(b, LightAfter(a, before))
    ensures LightAfter(a + b, before) == LightAfter(b, LightAfter(a, before))
    decreases |b|
  {
    if |b| == 0 {
      assert a + b == a;
    } else {
      var init, last := b[..|b| - 1], b[|b| - 1];
      var mid := LightAfter(a, before);
      StagesAppend(a, init, before);
      SplitLast(b);
      AppendSnoc(a, init, last);
      StagesSnoc(a + init, last, before);
      StagesSnoc(init, last, mid);
      AppendAssociates(Stages(a, before), Stages(init, mid), StagesOf(last, LightAfter(init, mid)));
    }
  }

  /** Calls that neither draw nor set a light add no stage and keep the light in force. */
  lemma {:induction false} InertStages(xs: seq<FrameEvent>, before: LightRef)
    requires forall i :: 0 <= i < |xs| ==> Inert(xs[i])
    ensures Stages(xs, before) == [] && LightAfter(xs, before) == before
    decreases |xs|
  {
    if |xs| > 0 {
      InertStages(xs[..|xs| - 1], before);
    }
  }

  /** Joins the stages of two traces run in turn. */
  lemma JoinStages(a: seq<FrameEvent>, b: seq<FrameEvent>, before: LightRef, first: seq<Stage>, mid: LightRef, second: seq<Stage>)
    requires Stages(a, before) == first && LightAfter(a, before) == mid && Stages(b, mid) == second
    ensures Stages(a + b, before) == first + second && LightAfter(a + b, before) == LightAfter(b, mid)
  {
    StagesAppend(a, b, before);
  }

  /** A SetLight followed by a call that draws: the call draws under that light, which stays in
      force. */
  lemma LitStepStages(earlier: seq<FrameEvent>, light: LightRef, draw: FrameEvent, before: LightRef)
    requires !draw.SetLight?
    ensures Stages(earlier + [SetLight(light), draw], before) == Stages(earlier, before) + StagesOf(draw, light)
    ensures LightAfter(earlier + [SetLight(light), draw], before) == light
  {
    var pair := [SetLight(light), draw];
    StagesAppend(earlier, pair, before);
    LitDrawStages(light, draw, LightAfter(earlier, before));
  }

  lemma LitDrawStages(light: LightRef, draw: FrameEvent, before: LightRef)
    requires !draw.SetLight?
    ensures Stages([SetLight(light), draw], before) == StagesOf(draw, light)
    ensures LightAfter([SetLight(light), draw], before) == light
  {
    var setLight: seq<FrameEvent> := [SetLight(light)];
    assert [] + setLight == setLight;
    assert setLight + [draw] == [SetLight(light), draw];
    StagesSnoc([], SetLight(light), before);
    StagesSnoc(setLight, draw, before);
  }

  /** The directional-light loop draws one directional pass per light, in light order, each
      under that light and over the opaque items, and nothing else; it leaves the last
      directional light in force. */
  lemma {:induction false} DirectionalLightPasses(lights: seq<DirectionalLight>, opaqueItems: seq<Renderable>, before: LightRef)
    ensures Stages(DirectionalLightEvents(lights, opaqueItems), before) == DirectionalStages(lights, opaqueItems)
    ensures LightAfter(DirectionalLightEvents(lights, opaqueItems), before)
         == if |lights| > 0 then DirectionalRef(lights[|lights| - 1]) else before
    decreases |lights|
  {
    if |lights| > 0 {
      var init, light := lights[..|lights| - 1], lights[|lights| - 1];
      DirectionalLightPasses(init, opaqueItems, before);
      LitStepStages(DirectionalLightEvents(init, opaqueItems), DirectionalRef(light), Render(DirectionalPass, opaqueItems), before);
      SplitLast(lights);
      DirectionalStagesSnoc(init, light, opaqueItems);
    }
  }

  /** The point-light loop draws one point pass per light, in light order, each under that
      light and over the opaque items its sphere of influence meets, and nothing else; it
      leaves the last point light in force. */
  lemma {:induction false} PointLightPasses(lights: seq<PointLight>, e: Engine, opaqueItems: seq<Renderable>, before: LightRef)
    ensures Stages(PointLightEvents(lights, e, opaqueItems), before) == PointStages(lights, e, opaqueItems)
    ensures LightAfter(PointLightEvents(lights, e, opaqueItems), before)
         == if |lights| > 0 then PointRef(lights[|lights| - 1]) else before
    decreases |lights|
  {
    if |lights| > 0 {
      var init, light := lights[..|lights| - 1], lights[|lights| - 1];
      PointLightPasses(init, e, opaqueItems, before);
      SplitLast(lights);
      PointStepOrder(PointLightEvents(init, e, opaqueItems), init, light, e, opaqueItems, before);
    }
  }

  /** One iteration of the point-light loop adds the light's pass over its culled items. */
  lemma PointStepOrder(earlier: seq<FrameEvent>, init: seq<PointLight>, light: PointLight, e: Engine,
                       opaqueItems: seq<Renderable>, before: LightRef)
    requires Stages(earlier, before) == PointStages(init, e, opaqueItems)
    ensures var culled := CullRenderablesForPointLight(light, e, opaqueItems);
      Stages(earlier + [SetLight(PointRef(light)), Render(PointPass, culled)], before) == PointStages(init + [light], e, opaqueItems)
  {
    var culled := CullRenderablesForPointLight(light, e, opaqueItems);
    LitStepStages(earlier, PointRef(light), Render(PointPass, culled), before);
    PointStagesSnoc(init, light, e, opaqueItems);
  }

  /** The shadow-map loop renders the maps of exactly the lights that own one, in light order,
      each under its own light and over the casters, and draws nothing else. */
  lemma {:induction false} ShadowMapLoopOrder(lights: seq<DirectionalLight>, casters: seq<Renderable>, before: LightRef)
    ensures Stages(ShadowMapLoop(lights, casters), before) == ShadowStages(Filter(lights, HasShadowMap), casters)
    decreases |lights|
  {
    if |lights| > 0 {
      var init, light := lights[..|lights| - 1], lights[|lights| - 1];
      ShadowMapLoopOrder(init, casters, before);
      SplitLast(lights);
      FilterSnoc(init, light, HasShadowMap);
      ShadowMapStepOrder(ShadowMapLoop(init, casters), Filter(init, HasShadowMap), light, casters, before);
    }
  }

  /** One iteration of the shadow-map loop adds a stage for the light exactly when it owns a
      shadow map. */
  lemma ShadowMapStepOrder(earlier: seq<FrameEvent>, kept: seq<DirectionalLight>, light: DirectionalLight,
                           casters: seq<Renderable>, before: LightRef)
    requires Stages(earlier, before) == ShadowStages(kept, casters)
    ensures var step := if light.hasShadowMap then [SetLight(DirectionalRef(light)), ShadowMapPass(light, casters)] else [];
      Stages(earlier + step, before) == ShadowStages(kept + (if HasShadowMap(light) then [light] else []), casters)
  {
    if light.hasShadowMap {
      LitStepStages(earlier, DirectionalRef(light), ShadowMapPass(light, casters), before);
      ShadowStagesSnoc(kept, light, casters);
    } else {
      assert earlier + [] == earlier;
      assert kept + [] == kept;
    }
  }

  /** The shadow-map loop draws no scene pass and no UI: all it draws are shadow maps. */
  lemma ShadowMapLoopDrawsNoPass(lights: seq<DirectionalLight>, casters: seq<Renderable>, before: LightRef)
    ensures forall k :: 0 <= k < |Stages(ShadowMapLoop(lights, casters), before)| ==>
      Stages(ShadowMapLoop(lights, casters), before)[k].ShadowStage?
  {
    ShadowMapLoopOrder(lights, casters, before);
  }

  /** The shadow-map phase: the casters are the shadow-casting opaque renderables, and the maps
      are those of the lights that own one, in light order, each under its own light. */
  lemma ShadowMapEventsOrder(lights: seq<DirectionalLight>, items: seq<Renderable>, before: LightRef)
    ensures Stages(ShadowMapEvents(lights, items), before)
         == ShadowStages(Filter(lights, HasShadowMap), FilterShadowMapRenderables(items))
  {
    var casters := if |lights| > 0 then FilterShadowMapRenderables(items) else [];
    ShadowMapLoopOrder(lights, casters, before);
    if |lights| == 0 {
      assert Filter(lights, HasShadowMap) == [];
    }
  }

  /** The directional and point light passes, bracketed by the blend locks, when the scene has
      any such light; nothing otherwise. */
  function LightPassEvents(split: LightSplit, e: Engine, opaqueItems: seq<Renderable>): seq<FrameEvent>
  {
    if |split.directionals| > 0 || |split.points| > 0 then
      [LockLightBlending]
      + DirectionalLightEvents(split.directionals, opaqueItems)
      + PointLightEvents(split.points, e, opaqueItems)
      + [UnlockLightBlending]
    else []
  }

  /** The light phase draws the directional passes, then the point passes, each under its own
      light, and no shadow map; it leaves the last light it set in force. */
  lemma LightPassOrder(split: LightSplit, e: Engine, opaqueItems: seq<Renderable>, before: LightRef)
    ensures Stages(LightPassEvents(split, e, opaqueItems), before)
         == DirectionalStages(split.directionals, opaqueItems) + PointStages(split.points, e, opaqueItems)
    ensures LightAfter(LightPassEvents(split, e, opaqueItems), before) == LightAfterLightPasses(split, before)
  {
    if |split.directionals| > 0 || |split.points| > 0 {
      var dirs := DirectionalLightEvents(split.directionals, opaqueItems);
      var points := PointLightEvents(split.points, e, opaqueItems);
      var mid := LightAfter(dirs, before);
      assert LightPassEvents(split, e, opaqueItems) == [LockLightBlending] + dirs + points + [UnlockLightBlending];
      DirectionalLightPasses(split.directionals, opaqueItems, before);
      PointLightPasses(split.points, e, opaqueItems, mid);
      LightPhaseStages(dirs, points, before, DirectionalStages(split.directionals, opaqueItems), mid,
        PointStages(split.points, e, opaqueItems));
    } else {
      var none: seq<Stage> := [];
      assert DirectionalStages(split.directionals, opaqueItems) == none;
      assert PointStages(split.points, e, opaqueItems) == none;
      assert none + none == none;
    }
  }

  /** The lock and unlock calls around the light loops draw nothing and set no light. */
  lemma LightPhaseStages(dirs: seq<FrameEvent>, points: seq<FrameEvent>, before: LightRef,
                         dirStages: seq<Stage>, mid: LightRef, pointStages: seq<Stage>)
    requires Stages(dirs, before) == dirStages && LightAfter(dirs, before) == mid && Stages(points, mid) == pointStages
    ensures Stages([LockLightBlending] + dirs + points + [UnlockLightBlending], before) == dirStages + pointStages
    ensures LightAfter([LockLightBlending] + dirs + points + [UnlockLightBlending], before) == LightAfter(points, mid)
  {
    BracketedStages([LockLightBlending], dirs, points, [UnlockLightBlending], before);
  }

  /** Calls that neither draw nor set a light around two parts leave the parts' stages, in
      order, and the light the second part leaves. */
  lemma BracketedStages(pre: seq<FrameEvent>, a: seq<FrameEvent>, b: seq<FrameEvent>, post: seq<FrameEvent>, before: LightRef)
    requires forall i :: 0 <= i < |pre| ==> Inert(pre[i])
    requires forall i :: 0 <= i < |post| ==> Inert(post[i])
    ensures Stages(pre + a + b + post, before) == Stages(a, before) + Stages(b, LightAfter(a, before))
    ensures LightAfter(pre + a + b + post, before) == LightAfter(b, LightAfter(a, before))
  {
    InertStages(pre, before);
    StagesAppend(pre, a, before);
    StagesAppend(pre + a, b, before);
    StagesAppend(pre + a + b, post, before);
    InertStages(post, LightAfter(pre + a + b, before));
    assert [] + Stages(a, before) == Stages(a, before);
    assert Stages(a, before) + Stages(b, LightAfter(a, before)) + [] == Stages(a, before) + Stages(b, LightAfter(a, before));
  }

  /** The light passes are bracketed by the blend, depth-write and alpha locks exactly when the
      scene has a directional or point light; otherwise the phase is empty. */
  lemma LightBlendingIffLights(split: LightSplit, e: Engine, opaqueItems: seq<Renderable>)
    ensures var events := LightPassEvents(split, e, opaqueItems);
      (LockLightBlending in events <==> |split.directionals| > 0 || |split.points| > 0)
      && (UnlockLightBlending in events <==> |split.directionals| > 0 || |split.points| > 0)
    ensures |split.directionals| == 0 && |split.points| == 0 ==> LightPassEvents(split, e, opaqueItems) == []
  {
    var events := LightPassEvents(split, e, opaqueItems);
    if |split.directionals| > 0 || |split.points| > 0 {
      assert events[0] == LockLightBlending;
      assert events[|events| - 1] == UnlockLightBlending;
    }
  }

  /** The stages of a frame, whatever light was in force before it. With a camera, the frame
      applies the last camera found, then renders the shadow maps of exactly the directional
      lights that own one, in light order, each under its own light, over the shadow-casting
      opaque renderables; then draws the ambient pass under the ambient light over the sorted
      opaque items, one directional pass under each directional light, one point pass under
      each point light over the opaque items that meet it, and the ambient pass over the sorted
      transparent items under whichever light the light passes left in force (the ambient
      light when there are none); and the UI last, under no light. Without a camera it draws
      only the UI, under no light. */
  lemma FramePassOrder(scene: Scene, target: Option<nat>, defaults: RendererDefaults, e: Engine, before: LightRef)
    ensures var trace := RenderSceneToTarget(scene, target, defaults, e);
      |scene.cameras| == 0 ==> Stages(trace, before) == [UIStage(NoLight)]
    ensures var trace := RenderSceneToTarget(scene, target, defaults, e);
      |scene.cameras| > 0 ==>
        var camera := scene.cameras[|scene.cameras| - 1];
        var split := SplitLights(scene.lights);
        var ambient := AmbientRefOf(split.ambient);
        var opaqueItems := SceneOpaqueItems(scene, camera, defaults, e);
        && trace[0] == ApplySceneCamera(camera)
        && Stages(trace, before)
           == ShadowStages(Filter(split.directionals, HasShadowMap), FilterShadowMapRenderables(scene.renderables))
              + [PassStage(AmbientPass, ambient, opaqueItems)]
              + DirectionalStages(split.directionals, opaqueItems)
              + PointStages(split.points, e, opaqueItems)
              + [PassStage(AmbientPass, LightAfterLightPasses(split, ambient), SceneTransparentItems(scene, camera, defaults, e)),
                 UIStage(NoLight)]
  {
    if |scene.cameras| == 0 {
      UIOnlyFrameOrder(target, before);
    } else {
      SceneFrameOrder(scene, scene.cameras[|scene.cameras| - 1], target, defaults, e, before);
    }
  }

  lemma UIOnlyFrameOrder(target: Option<nat>, before: LightRef)
    ensures Stages(UIOnlyFrame(target), before) == [UIStage(NoLight)]
  {
    var front: seq<FrameEvent> := [BeginFrame, SetLight(NoLight), RenderUI];
    assert UIOnlyFrame(target) == front + PresentEvents(target);
    UIFrontStages(before);
    PresentOrder(target, NoLight);
    JoinStages(front, PresentEvents(target), before, [UIStage(NoLight)], NoLight, []);
    assert [UIStage(NoLight)] + [] == [UIStage(NoLight)];
  }

  /** The UI-only frame sets no light and then draws the UI under it. */
  lemma UIFrontStages(before: LightRef)
    ensures Stages([BeginFrame, SetLight(NoLight), RenderUI], before) == [UIStage(NoLight)]
    ensures LightAfter([BeginFrame, SetLight(NoLight), RenderUI], before) == NoLight
  {
    var begin: seq<FrameEvent> := [BeginFrame];
    assert begin + [SetLight(NoLight), RenderUI] == [BeginFrame, SetLight(NoLight), RenderUI];
    InertStages(begin, before);
    LitStepStages(begin, NoLight, RenderUI, before);
    assert [] + [UIStage(NoLight)] == [UIStage(NoLight)];
  }

  lemma SceneFrameOrder(scene: Scene, camera: Camera, target: Option<nat>, defaults: RendererDefaults, e: Engine, before: LightRef)
    ensures var trace := SceneFrame(scene, camera, target, defaults, e);
      var split := SplitLights(scene.lights);
      var ambient := AmbientRefOf(split.ambient);
      var opaqueItems := SceneOpaqueItems(scene, camera, defaults, e);
      && trace[0] == ApplySceneCamera(camera)
      && Stages(trace, before)
         == ShadowStages(Filter(split.directionals, HasShadowMap), FilterShadowMapRenderables(scene.renderables))
            + [PassStage(AmbientPass, ambient, opaqueItems)]
            + DirectionalStages(split.directionals, opaqueItems)
            + PointStages(split.points, e, opaqueItems)
            + [PassStage(AmbientPass, LightAfterLightPasses(split, ambient), SceneTransparentItems(scene, camera, defaults, e)),
               UIStage(NoLight)]
  {
    var split := SplitLights(scene.lights);
    var ambient := AmbientRefOf(split.ambient);
    var opaqueItems := SceneOpaqueItems(scene, camera, defaults, e);
    var transparentItems := SceneTransparentItems(scene, camera, defaults, e);
    var lit := LightAfterLightPasses(split, ambient);
    var p0: seq<FrameEvent> := [ApplySceneCamera(camera)];
    var p1 := ShadowMapEvents(split.directionals, scene.renderables);
    var p2 := AmbientOpaqueEvents(split.ambient, opaqueItems);
    var p3 := LightPassEvents(split, e, opaqueItems);
    var p4 := TransparentAndUIEvents(transparentItems);
    var p5 := PresentEvents(target);
    assert SceneFrame(scene, camera, target, defaults, e) == p0 + p1 + p2 + p3 + p4 + p5;
    InertStages(p0, before);
    ShadowMapEventsOrder(split.directionals, scene.renderables, before);
    AmbientOpaqueStages(split.ambient, opaqueItems, LightAfter(p1, before));
    LightPassOrder(split, e, opaqueItems, ambient);
    TransparentAndUIStages(transparentItems, lit);
    PresentOrder(target, NoLight);
    var shadows := ShadowStages(Filter(split.directionals, HasShadowMap), FilterShadowMapRenderables(scene.renderables));
    var ambientPass := [PassStage(AmbientPass, ambient, opaqueItems)];
    var dirs := DirectionalStages(split.directionals, opaqueItems);
    var points := PointStages(split.points, e, opaqueItems);
    var last := [PassStage(AmbientPass, lit, transparentItems), UIStage(NoLight)];
    SceneFramePartsOrder(p0, p1, p2, p3, p4, p5, before, shadows, ambientPass, ambient, dirs + points, lit, last);
    AppendAssociates(shadows + ambientPass, dirs, points);
  }

  lemma PresentOrder(target: Option<nat>, before: LightRef)
    ensures Stages(PresentEvents(target), before) == [] && LightAfter(PresentEvents(target), before) == before
  {
    var present := PresentEvents(target);
    assert forall i :: 0 <= i < |present| ==> present[i] == DiscardTarget || present[i] == EndFrame;
    InertStages(present, before);
  }

  /** Assembles the stages of the six parts of a camera frame, passing on the light each part
      leaves in force. */
  lemma SceneFramePartsOrder(p0: seq<FrameEvent>, p1: seq<FrameEvent>, p2: seq<FrameEvent>, p3: seq<FrameEvent>,
                             p4: seq<FrameEvent>, p5: seq<FrameEvent>, before: LightRef,
                             shadows: seq<Stage>, ambientPass: seq<Stage>, ambient: LightRef,
                             lightPasses: seq<Stage>, lit: LightRef, last: seq<Stage>)
    requires Stages(p0, before) == [] && LightAfter(p0, before) == before
    requires Stages(p1, before) == shadows
    requires Stages(p2, LightAfter(p1, before)) == ambientPass && LightAfter(p2, LightAfter(p1, before)) == ambient
    requires Stages(p3, ambient) == lightPasses && LightAfter(p3, ambient) == lit
    requires Stages(p4, lit) == last
    requires Stages(p5, LightAfter(p4, lit)) == []
    ensures Stages(p0 + p1 + p2 + p3 + p4 + p5, before) == shadows + ambientPass + lightPasses + last
  {
    FrontPartsOrder(p0, p1, p2, before, shadows, ambientPass, ambient);
    BackPartsOrder(p0 + p1 + p2, p3, p4, p5, before, shadows + ambientPass, ambient, lightPasses, lit, last);
  }

  /** The camera, shadow-map and ambient parts of a camera frame. */
  lemma FrontPartsOrder(p0: seq<FrameEvent>, p1: seq<FrameEvent>, p2: seq<FrameEvent>, before: LightRef,
                        shadows: seq<Stage>, ambientPass: seq<Stage>, ambient: LightRef)
    requires Stages(p0, before) == [] && LightAfter(p0, before) == before
    requires Stages(p1, before) == shadows
    requires Stages(p2, LightAfter(p1, before)) == ambientPass && LightAfter(p2, LightAfter(p1, before)) == ambient
    ensures Stages(p0 + p1 + p2, before) == shadows + ambientPass && LightAfter(p0 + p1 + p2, before) == ambient
  {
    var none: seq<Stage> := [];
    JoinStages(p0, p1, before, none, before, shadows);
    assert none + shadows == shadows;
    JoinStages(p0 + p1, p2, before, shadows, LightAfter(p1, before), ambientPass);
  }

  /** The light, transparent and UI, and present parts of a camera frame. */
  lemma BackPartsOrder(front: seq<FrameEvent>, p3: seq<FrameEvent>, p4: seq<FrameEvent>, p5: seq<FrameEvent>, before: LightRef,
                       first: seq<Stage>, ambient: LightRef, lightPasses: seq<Stage>, lit: LightRef, last: seq<Stage>)
    requires Stages(front, before) == first && LightAfter(front, before) == ambient
    requires Stages(p3, ambient) == lightPasses && LightAfter(p3, ambient) == lit
    requires Stages(p4, lit) == last
    requires Stages(p5, LightAfter(p4, lit)) == []
    ensures Stages(front + p3 + p4 + p5, before) == first + lightPasses + last
  {
    var none: seq<Stage> := [];
    JoinStages(front, p3, before, first, ambient, lightPasses);
    JoinStages(front + p3, p4, before, first + lightPasses, lit, last);
    var all := first + lightPasses + last;
    JoinStages(front + p3 + p4, p5, before, all, LightAfter(p4, lit), none);
    assert all + none == all;
  }

  /** The ambient pass over the opaque items is drawn under the ambient light, or under no
      light when the scene has none, whatever was in force before. */
  lemma AmbientOpaqueStages(ambient: Option<AmbientLight>, opaqueItems: seq<Renderable>, before: LightRef)
    ensures Stages(AmbientOpaqueEvents(ambient, opaqueItems), before) == [PassStage(AmbientPass, AmbientRefOf(ambient), opaqueItems)]
    ensures LightAfter(AmbientOpaqueEvents(ambient, opaqueItems), before) == AmbientRefOf(ambient)
  {
    var begin: seq<FrameEvent> := [BeginFrame];
    assert begin + [SetLight(AmbientRefOf(ambient)), Render(AmbientPass, opaqueItems)] == AmbientOpaqueEvents(ambient, opaqueItems);
    InertStages(begin, before);
    LitStepStages(begin, AmbientRefOf(ambient), Render(AmbientPass, opaqueItems), before);
  }

  /** The transparent pass is drawn under the light in force before it, then the UI under no
      light. */
  lemma TransparentAndUIStages(transparentItems: seq<Renderable>, before: LightRef)
    ensures Stages(TransparentAndUIEvents(transparentItems), before)
         == [PassStage(AmbientPass, before, transparentItems), UIStage(NoLight)]
    ensures LightAfter(TransparentAndUIEvents(transparentItems), before) == NoLight
  {
    var render: seq<FrameEvent> := [Render(AmbientPass, transparentItems)];
    assert [] + render == render;
    assert render + [SetLight(NoLight), RenderUI] == TransparentAndUIEvents(transparentItems);
    StagesSnoc([], Render(AmbientPass, transparentItems), before);
    LitStepStages(render, NoLight, RenderUI, before);
  }
}
