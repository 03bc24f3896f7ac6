/**
 * The vertex descriptor (class Vertex): what a vertex of a buffer holds, its
 * stride in floats, and when two descriptors describe the same layout.
 * A Vertex is a value here: every operation on it is const or builds a new
 * one.
 */
module Vertices {
  import opened Wrappers

  /** Vertex::IEType: how the vertices of a buffer make primitives. */
  datatype VertexType = UnknownType | Triangles | TriangleStrip | TriangleFan | Quads | QuadStrip

  /** Vertex::IECoordType: 2D or 3D positions. */
  datatype CoordType = UnknownCoord | XY | XYZ

  /** Vertex::IEFormat, a combination of three flags: the bit of each flag as a boolean. */
  datatype Flags = Flags(normals: bool, texCoords: bool, colors: bool)

  const NO_FLAGS := Flags(false, false, false)

  datatype Vertex = Vertex(
    name: string, stride: nat, vertexType: VertexType, format: Flags, coordType: CoordType, buffer: seq<real>)

  /** Vertex(): no name, stride 0, unknown type, no flag, 3D positions, an empty buffer. */
  const NEW_VERTEX := Vertex("", 0, UnknownType, NO_FLAGS, XYZ, [])

  /** The number of floats of a position. */
  function PositionSize(c: CoordType): nat
    requires c != UnknownCoord
  {
    if c == XY then 2 else 3
  }

  /**
   * CalculateStride: the floats of one vertex, position first, then 3 for a
   * normal, 2 for texture coordinates and 4 for a colour when the format has
   * them; an unknown coordinate type throws, here no stride.
   */
  function CalculateStride(coordType: CoordType, format: Flags): (r: Option<nat>)
    ensures r.None? <==> coordType == UnknownCoord
    ensures r.Some? ==> 2 <= r.value <= 12
    ensures r.Some? ==> r.value >= PositionSize(coordType)
  {
    if coordType == UnknownCoord then None
    else
      Some(PositionSize(coordType)
        + (if format.normals then 3 else 0)
        + (if format.texCoords then 2 else 0)
        + (if format.colors then 4 else 0))
  }

  /** The stride of a descriptor, computed from its coordinate type and format; the descriptor itself is unchanged. */
  function StrideOf(v: Vertex): Option<nat> {
    CalculateStride(v.coordType, v.format)
  }

  /** Every flag adds its components to the stride, independently of the others. */
  lemma StrideGrowsWithFlags(c: CoordType, f: Flags)
    requires c != UnknownCoord
    ensures CalculateStride(c, f.(normals := true)).value == CalculateStride(c, f.(normals := false)).value + 3
    ensures CalculateStride(c, f.(texCoords := true)).value == CalculateStride(c, f.(texCoords := false)).value + 2
    ensures CalculateStride(c, f.(colors := true)).value == CalculateStride(c, f.(colors := false)).value + 4
    ensures CalculateStride(XYZ, f).value == CalculateStride(XY, f).value + 1
  {
  }

  /** A fresh descriptor has stride 3, and the loader's default format (3D, colours and texture coordinates) stride 9. */
  lemma KnownStrides()
    ensures StrideOf(NEW_VERTEX) == Some(3)
    ensures CalculateStride(XYZ, Flags(false, true, true)) == Some(9)
    ensures CalculateStride(XY, NO_FLAGS) == Some(2)
    ensures CalculateStride(XYZ, Flags(true, true, true)) == Some(12)
  {
  }

  /** CompareFormat: same stride, type, format and coordinate type. */
  predicate CompareFormat(a: Vertex, b: Vertex) {
    a.stride == b.stride && a.vertexType == b.vertexType && a.format == b.format && a.coordType == b.coordType
  }

  /** CompareFormat holds exactly when the descriptors differ at most in their names and buffers. */
  lemma CompareFormatIgnoresNameAndBuffer(a: Vertex, b: Vertex)
    ensures CompareFormat(a, b) <==> a.(name := "", buffer := []) == b.(name := "", buffer := [])
  {
  }

  /** CompareFormat is an equivalence. */
  lemma CompareFormatIsEquivalence(a: Vertex, b: Vertex, c: Vertex)
    ensures CompareFormat(a, a)
    ensures CompareFormat(a, b) ==> CompareFormat(b, a)
    ensures CompareFormat(a, b) && CompareFormat(b, c) ==> CompareFormat(a, c)
  {
  }

  /** Clone: a descriptor with the same name and layout and an empty buffer. */
  function Clone(v: Vertex): (r: Vertex)
    ensures CompareFormat(r, v) && CompareFormat(v, r)
    ensures r.name == v.name && r.buffer == []
    ensures StrideOf(r) == StrideOf(v)
  {
    Vertex(v.name, v.stride, v.vertexType, v.format, v.coordType, [])
  }

  /** Cloning is idempotent on a descriptor with an empty buffer. */
  lemma CloneOfEmpty(v: Vertex)
    ensures v.buffer == [] ==> Clone(v) == v
    ensures Clone(Clone(v)) == Clone(v)
  {
  }
}
