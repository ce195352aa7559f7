/** The per-frame snapshot the forward pass compiler consumes, and the pass plan it produces:
    render objects, lights, render passes and their camera and target groups. */
module RenderFrames {
  import opened Outcomes
  import opened RenderTypes

  datatype RenderLayer = Standard | UI

  /** The pass identifiers under which a material group stores its materials. */
  datatype ForwardRenderPass =
    | ShadowMap
    | Base
    | DirectionalLight
    | DirectionalLightShadows
    | PointLight
    | Transparent

  datatype MaterialKey = MaterialKey(vertexFormat: VertexFormat, pass: ForwardRenderPass)

  /** The materials of one object, one per (vertex format, pass) key it supports. */
  datatype RenderMaterialGroup = RenderMaterialGroup(materials: map<MaterialKey, RenderMaterial>)

  /** RenderObject::Type: the object draws either a static or a dynamic mesh. */
  datatype ObjectMesh = StaticMesh(mesh: RenderMesh) | DynamicMesh(mesh: RenderMesh)

  datatype RenderObject = RenderObject(
    meshRef: ObjectMesh,
    materialGroup: RenderMaterialGroup,
    worldMatrix: Matrix4,
    boundingSphere: Sphere,
    layer: RenderLayer,
    priority: int,
    castsShadows: bool)

  /** A render object after its material for one pass has been resolved. */
  datatype RenderPassObject = RenderPassObject(
    material: RenderMaterial,
    meshRef: ObjectMesh,
    worldMatrix: Matrix4,
    boundingSphere: Sphere,
    priority: int)

  datatype RenderTarget = RenderTarget(handle: nat)

  datatype AmbientRenderLight = AmbientRenderLight(handle: nat)

  datatype DirectionalRenderLight = DirectionalRenderLight(handle: nat, shadowMapTarget: Option<RenderTarget>)

  datatype PointRenderLight = PointRenderLight(handle: nat, position: Vector3, rangeOfInfluence: real)

  /** The light a pass is lit by; shadow-map passes have none. */
  datatype PassLight =
    | NoLight
    | Ambient(ambient: AmbientRenderLight)
    | Directional(directional: DirectionalRenderLight)
    | Point(point: PointRenderLight)

  datatype RenderPass = RenderPass(light: PassLight, objects: seq<RenderPassObject>)

  /** The frame's scene camera, an orthographic camera built by the compiler, or the
      default-constructed camera the shadow-map groups use. */
  datatype RenderCamera =
    | UnsetCamera
    | SceneCamera(handle: nat)
    | OrthographicCamera(left: real, right: real, bottom: real, top: real, near: real, far: real)

  datatype CameraRenderPassGroup = CameraRenderPassGroup(camera: RenderCamera, renderPasses: seq<RenderPass>)

  /** A target (None for the default framebuffer) and the camera groups drawn into it. */
  datatype TargetRenderPassGroup = TargetRenderPassGroup(target: Option<RenderTarget>, cameraGroups: seq<CameraRenderPassGroup>)

  datatype Resolution = Resolution(x: int, y: int)

  datatype RenderFrame = RenderFrame(
    camera: RenderCamera,
    resolution: Resolution,
    ambientLight: AmbientRenderLight,
    directionalLights: seq<DirectionalRenderLight>,
    pointLights: seq<PointRenderLight>,
    renderObjects: seq<RenderObject>)

  /** Default-constructed values, which fill a vector before the tasks write its slots. */
  const EmptyRenderPass := RenderPass(NoLight, [])
  const EmptyCameraGroup := CameraRenderPassGroup(UnsetCamera, [])
  const EmptyTargetGroup := TargetRenderPassGroup(None, [])

  /** The engine components the compiler calls but whose code is outside this model: the
      visibility checker's per-object verdict, sphere containment, and the three sorters. */
  datatype Collaborators = Collaborators(
    isVisible: (RenderCamera, RenderObject) -> bool,
    contains: (Sphere, Sphere) -> bool,
    opaqueSort: (RenderCamera, seq<RenderPassObject>) -> seq<RenderPassObject>,
    transparentSort: (RenderCamera, seq<RenderPassObject>) -> seq<RenderPassObject>,
    prioritySort: seq<RenderPassObject> -> seq<RenderPassObject>)

  /** All that is relied on about the sorters: they reorder, never add or drop. */
  ghost predicate SortersPermute(c: Collaborators)
  {
    && (forall camera, objects :: multiset(c.opaqueSort(camera, objects)) == multiset(objects))
    && (forall camera, objects :: multiset(c.transparentSort(camera, objects)) == multiset(objects))
    && (forall objects :: multiset(c.prioritySort(objects)) == multiset(objects))
  }
}
