/** The vertex type of the triangle, the three vertices uploaded to the vertex
    buffer, and the buffer layout (`Vertex::ATTRIBUTES`, `Vertex::desc`) the
    render pipeline reads them with. Coordinates are kept as exact decimals;
    nothing is computed with them. */
module VertexLayout {

  /** `size_of::<f32>()`. */
  const F32_SIZE: nat := 4

  /** `[f32; 3]`. */
  datatype Vec3 = Vec3(x: real, y: real, z: real)

  /** `size_of::<[f32; 3]>()`. */
  const VEC3_SIZE: nat := 3 * F32_SIZE

  /** `#[repr(C)] struct Vertex { position: [f32; 3], color: [f32; 3] }`. */
  datatype Vertex = Vertex(position: Vec3, color: Vec3)

  /** With `repr(C)` the fields are laid out in declaration order, each
      `[f32; 3]` aligned to 4 bytes, so there is no padding. */
  const POSITION_OFFSET: nat := 0
  const COLOR_OFFSET: nat := POSITION_OFFSET + VEC3_SIZE
  const VERTEX_SIZE: nat := COLOR_OFFSET + VEC3_SIZE

  /** The triangle: a red top corner, a green bottom left and a blue bottom right. */
  const VERTICES: seq<Vertex> := [
    Vertex(Vec3(0.0, 0.5, 0.0), Vec3(1.0, 0.0, 0.0)),
    Vertex(Vec3(-0.5, -0.5, 0.0), Vec3(0.0, 1.0, 0.0)),
    Vertex(Vec3(0.5, -0.5, 0.0), Vec3(0.0, 0.0, 1.0))
  ]

  datatype VertexFormat = Float32x3

  /** wgpu's `VertexFormat::size`. */
  function FormatSize(f: VertexFormat): nat
  {
    match f
    case Float32x3 => 3 * F32_SIZE
  }

  datatype VertexAttribute = VertexAttribute(offset: nat, shaderLocation: nat, format: VertexFormat)

  datatype VertexStepMode = PerVertex | PerInstance

  datatype VertexBufferLayout = VertexBufferLayout(
    arrayStride: nat,
    stepMode: VertexStepMode,
    attributes: seq<VertexAttribute>)

  /** `Vertex::ATTRIBUTES`: position at shader location 0, colour at location 1. */
  const ATTRIBUTES: seq<VertexAttribute> := [
    VertexAttribute(POSITION_OFFSET, 0, Float32x3),
    VertexAttribute(VEC3_SIZE, 1, Float32x3)
  ]

  /** Every attribute lies inside one vertex's stride, no two attributes
      overlap and no two share a shader location. */
  predicate WellFormed(layout: VertexBufferLayout)
  {
    && (forall i :: 0 <= i < |layout.attributes| ==>
          layout.attributes[i].offset + FormatSize(layout.attributes[i].format) <= layout.arrayStride)
    && (forall i, j :: 0 <= i < j < |layout.attributes| ==>
          layout.attributes[i].shaderLocation != layout.attributes[j].shaderLocation &&
          (layout.attributes[i].offset + FormatSize(layout.attributes[i].format) <= layout.attributes[j].offset ||
           layout.attributes[j].offset + FormatSize(layout.attributes[j].format) <= layout.attributes[i].offset))
  }

  /** `Vertex::desc()`: one `Vertex` per step of the vertex index. Its
      attributes read exactly the two fields of `Vertex`, and the stride is the
      size of a whole `Vertex`, so consecutive vertices neither overlap nor
      leave gaps. */
  function Desc(): (layout: VertexBufferLayout)
    ensures WellFormed(layout)
    ensures layout.stepMode == PerVertex && layout.arrayStride == VERTEX_SIZE
    ensures |layout.attributes| == 2
    ensures layout.attributes[0].shaderLocation == 0 && layout.attributes[0].offset == POSITION_OFFSET
    ensures layout.attributes[1].shaderLocation == 1 && layout.attributes[1].offset == COLOR_OFFSET
    ensures forall i :: 0 <= i < |layout.attributes| ==> FormatSize(layout.attributes[i].format) == VEC3_SIZE
  {
    VertexBufferLayout(VERTEX_SIZE, PerVertex, ATTRIBUTES)
  }
}
