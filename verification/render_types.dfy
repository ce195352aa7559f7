/** GPU-side resources shared by the pass compiler and the command processor. Resources are
    identified by a handle; their contents (shader source, pixel data, vertex data) are not
    modelled. Matrices are opaque handles: matrix arithmetic is outside the model. */
module RenderTypes {

  datatype Vector3 = Vector3(x: real, y: real, z: real)

  /** A bounding sphere: centre and radius. */
  datatype Sphere = Sphere(centre: Vector3, radius: real)

  /** A 4x4 matrix, kept opaque. */
  datatype Matrix4 = Matrix4(handle: nat)

  datatype RenderShader = RenderShader(handle: nat)

  datatype RenderTexture = RenderTexture(handle: nat)

  /** A material: the shader it draws with and its textures (only the first is bound). */
  datatype RenderMaterial = RenderMaterial(handle: nat, shader: RenderShader, textures: seq<RenderTexture>)

  datatype PolygonType = Triangle | TriangleStrip | Line

  /** Identifies the vertex layout of a mesh; materials are looked up per vertex format. */
  datatype VertexFormat = VertexFormat(handle: nat)

  datatype RenderMesh = RenderMesh(
    handle: nat,
    vertexFormat: VertexFormat,
    polygonType: PolygonType,
    numVertices: nat,
    numIndices: nat)
}
