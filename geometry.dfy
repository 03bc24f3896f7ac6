/**
 * The geometry builder's data and its vertex writer (MHX2Model::VertexBufferAdd):
 * the loader's vertex buffers, the floats one vertex adds to a buffer, and the
 * floats a whole geometry adds once its faces are fan-triangulated.
 *
 * VertexFormat, VertexCulling, Material, ColorF and VertexBuffer are not part
 * of this model's sources; they are records holding the members the loader
 * reads or writes.
 */
module Geometry {
  import opened Wrappers
  import opened Math3D
  import opened Vertices
  import opened ModelSpec
  import opened SkeletonBuilder
  import opened ParseCore

  /** VertexFormat: stride (in floats), primitive type, flags and coordinate type. */
  datatype VertexFormat = VertexFormat(stride: nat, vertexType: VertexType, format: Flags, coordType: CoordType)

  datatype CullingType = CullingNone | CullingFront | CullingBack | CullingBoth
  datatype CullingFace = CW | CCW
  datatype VertexCulling = VertexCulling(cullingType: CullingType, face: CullingFace)

  /** A texture returned by the texture loader callback, by an identifying number; none is a null texture. */
  type TextureId = nat

  datatype Material = Material(color: Color, texture: Option<TextureId>, transparent: bool)

  /**
   * The vertex colour callback, given the vertex's normal and group index.
   * The source also hands it the buffer being filled, which the model does
   * not: the results below hold for callbacks that ignore that buffer.
   */
  type ColorCallback = (Option<Vector3>, nat) -> Color

  /** The texture loader callback: from a texture name and a transparency flag to a texture. */
  type TextureLoader = (string, bool) -> Option<TextureId>

  /** The stride of a format is the one its layout calls for (VertexFormat::CalculateStride stored its result). */
  ghost predicate StrideSet(f: VertexFormat) {
    f.coordType != UnknownCoord && CalculateStride(f.coordType, f.format) == Some(f.stride)
  }

  /** VertexBuffer: a format, a culling mode, a material and the interleaved floats. */
  class VertexBuffer {
    var format: VertexFormat
    var culling: VertexCulling
    var material: Material
    var data: seq<real>

    constructor (format: VertexFormat, culling: VertexCulling, material: Material)
      ensures this.format == format && this.culling == culling && this.material == material && data == []
    {
      this.format := format;
      this.culling := culling;
      this.material := material;
      data := [];
    }
  }

  /** A Mesh: its vertex buffers. */
  type Mesh = seq<VertexBuffer>

  /** IModel: the built skeleton and one mesh per geometry (the weights are built only outside pose-only mode). */
  class Model {
    var skeleton: Skeleton?
    var meshes: seq<Mesh>

    constructor ()
      ensures skeleton == null && meshes == []
    {
      skeleton := null;
      meshes := [];
    }
  }

  function Or3(v: Option<Vector3>): Vector3 {
    if v.Some? then v.value else ZERO3
  }

  function Or2(v: Option<Vector2>): Vector2 {
    if v.Some? then v.value else ZERO2
  }

  /** The colour of a new vertex: the callback's when one is set, otherwise the buffer material's. */
  function VertexColor(onGetVertexColor: Option<ColorCallback>, material: Material, normal: Option<Vector3>, groupIndex: nat): Color {
    if onGetVertexColor.Some? then onGetVertexColor.value(normal, groupIndex) else material.color
  }

  /** The position floats of a vertex: X and Y, and Z for 3D positions. */
  function PositionPart(c: CoordType, vertex: Option<Vector3>): (r: seq<real>)
    requires c != UnknownCoord
    ensures |r| == PositionSize(c) && r == Or3(vertex)[..|r|]
  {
    if c == XY then Or3(vertex)[..2] else Or3(vertex)
  }

  /** The normal floats of a vertex, when the format has normals. */
  function NormalPart(format: Flags, normal: Option<Vector3>): (r: seq<real>)
    ensures |r| == if format.normals then 3 else 0
    ensures format.normals ==> r == Or3(normal)
  {
    if format.normals then Or3(normal) else []
  }

  /** The texture coordinate floats of a vertex, when the format has them. */
  function TexCoordPart(format: Flags, uv: Option<Vector2>): (r: seq<real>)
    ensures |r| == if format.texCoords then 2 else 0
    ensures format.texCoords ==> r == Or2(uv)
  {
    if format.texCoords then Or2(uv) else []
  }

  /** The colour floats of a vertex, when the format has colours. */
  function ColorPart(format: Flags, color: Color): (r: seq<real>)
    ensures |r| == if format.colors then 4 else 0
    ensures format.colors ==> r == color
  {
    if format.colors then color else []
  }

  /**
   * The floats one vertex takes in a buffer, in layout order: its position
   * (two or three floats), then its normal, texture coordinates and colour
   * when the format has them. An absent source gives zeros.
   */
  function VertexValues(f: VertexFormat, vertex: Option<Vector3>, normal: Option<Vector3>, uv: Option<Vector2>, color: Color): (r: seq<real>)
    requires f.coordType != UnknownCoord
  {
    PositionPart(f.coordType, vertex) + NormalPart(f.format, normal) + TexCoordPart(f.format, uv) + ColorPart(f.format, color)
  }

  /** A vertex takes exactly the stride of its format. */
  lemma VertexValuesFitStride(f: VertexFormat, vertex: Option<Vector3>, normal: Option<Vector3>, uv: Option<Vector2>, color: Color)
    requires f.coordType != UnknownCoord
    ensures Some(|VertexValues(f, vertex, normal, uv, color)|) == CalculateStride(f.coordType, f.format)
  {
  }

  /**
   * Where each part of a vertex lies: the position at 0, the normal right
   * after it, the texture coordinates after the normal and the colour last,
   * each part present only when its flag is set.
   */
  lemma VertexLayout(f: VertexFormat, vertex: Option<Vector3>, normal: Option<Vector3>, uv: Option<Vector2>, color: Color)
    requires f.coordType != UnknownCoord
    ensures var r := VertexValues(f, vertex, normal, uv, color);
      var n := PositionSize(f.coordType);
      var t := n + (if f.format.normals then 3 else 0);
      var c := t + (if f.format.texCoords then 2 else 0);
      && |r| == c + (if f.format.colors then 4 else 0)
      && r[..n] == Or3(vertex)[..n]
      && (f.format.normals ==> r[n..n + 3] == Or3(normal))
      && (f.format.texCoords ==> r[t..t + 2] == Or2(uv))
      && (f.format.colors ==> r[c..] == color)
  {
    var pos := PositionPart(f.coordType, vertex);
    var nor := NormalPart(f.format, normal);
    var tex := TexCoordPart(f.format, uv);
    var col := ColorPart(f.format, color);
    var r := VertexValues(f, vertex, normal, uv, color);
    assert r == pos + nor + tex + col;
    assert r[..|pos|] == pos;
    assert r[|pos|..|pos| + |nor|] == nor;
    assert r[|pos| + |nor|..|pos| + |nor| + |tex|] == tex;
    assert r[|pos| + |nor| + |tex|..] == col;
  }

  /** The buffer holds total floats, of which the first are the ones written so far. */
  ghost predicate Filled(data: seq<real>, written: seq<real>, total: nat) {
    |data| == total && |written| <= total && data[..|written|] == written
  }

  /** Writes the floats of one part at an offset of the buffer, float by float; the floats before it are kept. */
  method WritePart(vb: VertexBuffer, offset: nat, part: seq<real>, ghost written: seq<real>, ghost total: nat)
    requires Filled(vb.data, written, total) && offset == |written| && offset + |part| <= total
    modifies vb
    ensures vb.format == old(vb.format) && vb.culling == old(vb.culling) && vb.material == old(vb.material)
    ensures Filled(vb.data, written + part, total)
  {
    vb.data := vb.data[..offset] + part + vb.data[offset + |part|..];
    assert vb.data[..offset + |part|] == written + part;
  }

  /**
   * VertexBufferAdd: a null buffer or one whose stride is 0 is refused and
   * left unchanged; otherwise the buffer grows by exactly one vertex, its
   * earlier floats unchanged.
   */
  method VertexBufferAdd(vertex: Option<Vector3>, normal: Option<Vector3>, uv: Option<Vector2>, groupIndex: nat,
                         onGetVertexColor: Option<ColorCallback>, vb: VertexBuffer?) returns (ok: bool)
    requires vb != null && vb.format.stride != 0 ==> StrideSet(vb.format)
    modifies vb
    ensures ok <==> vb != null && vb.format.stride != 0
    ensures vb != null ==> vb.format == old(vb.format) && vb.culling == old(vb.culling) && vb.material == old(vb.material)
    ensures vb != null && !ok ==> vb.data == old(vb.data)
    ensures ok ==> (vb.data == old(vb.data) +
      VertexValues(vb.format, vertex, normal, uv, VertexColor(onGetVertexColor, vb.material, normal, groupIndex)))
  {
    if vb == null {
      return false;
    }
    if vb.format.stride == 0 {
      return false;
    }
    var f := vb.format;
    ghost var before := vb.data;
    var offset := |vb.data|;
    vb.data := vb.data + seq(f.stride, _ => 0.0);
    ghost var total := |vb.data|;
    assert Filled(vb.data, before, total);
    ghost var color := VertexColor(onGetVertexColor, vb.material, normal, groupIndex);
    VertexValuesFitStride(f, vertex, normal, uv, color);
    ghost var nors, texs, cols := NormalPart(f.format, normal), TexCoordPart(f.format, uv), ColorPart(f.format, color);
    var pos := PositionPart(f.coordType, vertex);
    WritePart(vb, offset, pos, before, total);
    offset := offset + |pos|;
    ghost var written := before + pos;
    if f.format.normals {
      var n := NormalPart(f.format, normal);
      WritePart(vb, offset, n, written, total);
      offset := offset + 3;
    }
    written := written + nors;
    if f.format.texCoords {
      var t := TexCoordPart(f.format, uv);
      WritePart(vb, offset, t, written, total);
      offset := offset + 2;
    }
    written := written + texs;
    if f.format.colors {
      var c := ColorPart(f.format, VertexColor(onGetVertexColor, vb.material, normal, groupIndex));
      WritePart(vb, offset, c, written, total);
      offset := offset + 4;
    }
    written := written + cols;
    AppendAssoc(before, pos, nors);
    AppendAssoc(before, pos + nors, texs);
    AppendAssoc(before, pos + nors + texs, cols);
    assert vb.data == vb.data[..|written|];
    return true;
  }

  /**
   * The floats VertexBufferAdd writes as the source has it: three position
   * floats whatever the coordinate type, then the normal, texture
   * coordinates and colour parts.
   */
  function AsWrittenVertexValues(f: VertexFormat, vertex: Option<Vector3>, normal: Option<Vector3>, uv: Option<Vector2>, color: Color): seq<real> {
    Or3(vertex)
    + (if f.format.normals then Or3(normal) else [])
    + (if f.format.texCoords then Or2(uv) else [])
    + (if f.format.colors then color else [])
  }

  /**
   * With 2D positions the source writes one float more than the stride it
   * grew the buffer by, so its last write lies one past the end of the data;
   * with 3D positions it writes exactly the corrected vertex.
   */
  lemma AsWrittenOverrunsXY(f: VertexFormat, vertex: Option<Vector3>, normal: Option<Vector3>, uv: Option<Vector2>, color: Color)
    ensures f.coordType == XY ==>
      |AsWrittenVertexValues(f, vertex, normal, uv, color)| == CalculateStride(XY, f.format).value + 1
    ensures f.coordType == XYZ ==>
      AsWrittenVertexValues(f, vertex, normal, uv, color) == VertexValues(f, vertex, normal, uv, color)
  {
  }

  /** The smallest case: a 2D format without flags has stride 2, but the source writes data[offset + 2]. */
  lemma AsWrittenOverrunExample(data: seq<real>, vertex: Vector3)
    ensures var f := VertexFormat(2, Triangles, NO_FLAGS, XY);
      var grown := |data| + CalculateStride(XY, NO_FLAGS).value;
      && grown == |data| + 2
      && |data| + |AsWrittenVertexValues(f, Some(vertex), None, None, ZERO_COLOR)| - 1 == grown
  {
  }

  // ---------------------------------------------------------------------
  // Fan triangulation

  /** The faces of a mesh can be triangulated without reading outside its lists: what BuildGeometry demands of its mesh. */
  ghost predicate Triangulable(m: MeshData) {
    && |m.uvFaces| >= |m.faces|
    && (forall i :: 0 <= i < |m.faces| ==> |m.faces[i]| >= 2)
    && (forall i, p :: 0 <= i < |m.faces| && |m.faces[i]| >= 3 && 0 <= p < |m.faces[i]| ==>
          p < |m.uvFaces[i]| && m.faces[i][p] < |m.vertices| && m.uvFaces[i][p] < |m.uvCoords|)
  }

  /** Corner k of fan triangle j of a face, as a position in the face. */
  function FanCorner(j: nat, k: nat): nat {
    if k == 0 then 0 else j + k
  }

  /** The face positions of the corners of fan triangle j: 0, j + 1 and j + 2. */
  function FanTriangle(j: nat): (r: seq<nat>)
    ensures |r| == 3 && forall k :: 0 <= k < 3 ==> r[k] == FanCorner(j, k)
  {
    [FanCorner(j, 0), FanCorner(j, 1), FanCorner(j, 2)]
  }

  /** The face positions of the corners of the first j fan triangles, in order. */
  function FanIndices(j: nat): seq<nat> {
    if j == 0 then [] else FanIndices(j - 1) + FanTriangle(j - 1)
  }

  /** The corners of the first j fan triangles are positions at most j + 1. */
  lemma {:induction false} FanIndicesBound(j: nat)
    ensures |FanIndices(j)| == 3 * j
    ensures forall q :: 0 <= q < |FanIndices(j)| ==> FanIndices(j)[q] <= j + 1
  {
    if j > 0 {
      FanIndicesBound(j - 1);
    }
  }

  /** The first j fan triangles have 3j corners; triangle t is (0, t + 1, t + 2). */
  lemma {:induction false} FanIndicesShape(j: nat)
    ensures |FanIndices(j)| == 3 * j
    ensures forall t, k :: 0 <= t < j && 0 <= k < 3 ==> FanIndices(j)[3 * t + k] == FanCorner(t, k)
  {
    if j > 0 {
      FanIndicesShape(j - 1);
      assert FanIndices(j)[..3 * (j - 1)] == FanIndices(j - 1);
    }
  }

  /** Every entry of ps is a position of a face of n indices. */
  predicate InFace(ps: seq<nat>, n: nat) {
    forall q :: 0 <= q < |ps| ==> ps[q] < n
  }

  lemma InFaceAppend(ps: seq<nat>, qs: seq<nat>, n: nat)
    requires InFace(ps, n) && InFace(qs, n)
    ensures InFace(ps + qs, n)
  {
  }

  lemma InFacePrefix(ps: seq<nat>, k: nat, n: nat)
    requires InFace(ps, n) && k <= |ps|
    ensures InFace(ps[..k], n)
  {
  }

  /** The corners of the first j fan triangles, and of triangle j, lie in a face with more than j + 1, and j + 2, indices. */
  lemma FanInFace(j: nat, n: nat)
    ensures j + 2 <= n ==> InFace(FanIndices(j), n)
    ensures j + 2 < n ==> InFace(FanTriangle(j), n)
  {
    FanIndicesBound(j);
  }

  /** The floats of corner p of face i: its vertex, a zero normal, its texture coordinates and the given colour. */
  function CornerValues(f: VertexFormat, m: MeshData, color: Color, i: nat, p: nat): (r: seq<real>)
    requires f.coordType != UnknownCoord && Triangulable(m) && i < |m.faces| && |m.faces[i]| >= 3 && p < |m.faces[i]|
  {
    VertexValues(f, Some(m.vertices[m.faces[i][p]]), Some(ZERO3), Some(m.uvCoords[m.uvFaces[i][p]].value), color)
  }

  /** The floats of the corners at positions ps of face i, in order. */
  function CornersValues(f: VertexFormat, m: MeshData, color: Color, i: nat, ps: seq<nat>): (r: seq<real>)
    requires f.coordType != UnknownCoord && Triangulable(m) && i < |m.faces|
    requires ps != [] ==> |m.faces[i]| >= 3
    requires InFace(ps, |m.faces[i]|)
    decreases |ps|
  {
    if ps == [] then []
    else CornersValues(f, m, color, i, ps[..|ps| - 1]) + CornerValues(f, m, color, i, ps[|ps| - 1])
  }

  /** The floats of face i: those of its fan triangles' corners, none for a face of two indices. */
  function FaceValues(f: VertexFormat, m: MeshData, color: Color, i: nat): seq<real>
    requires f.coordType != UnknownCoord && Triangulable(m) && i < |m.faces|
  {
    var n := |m.faces[i]|;
    if n < 3 then []
    else FanInFace(n - 2, n); CornersValues(f, m, color, i, FanIndices(n - 2))
  }

  /** The floats of the first n faces. */
  function FacesValues(f: VertexFormat, m: MeshData, color: Color, n: nat): seq<real>
    requires f.coordType != UnknownCoord && Triangulable(m) && n <= |m.faces|
  {
    if n == 0 then [] else FacesValues(f, m, color, n - 1) + FaceValues(f, m, color, n - 1)
  }

  /** The number of vertices the fan of a face holds: 3 (k - 2) for a face of k >= 3 indices, none otherwise. */
  function FaceVertexCount(face: seq<nat>): nat {
    if |face| < 3 then 0 else 3 * (|face| - 2)
  }

  /** The number of vertices the fans of the first n faces hold. */
  function FanVertexCount(m: MeshData, n: nat): nat
    requires n <= |m.faces|
  {
    if n == 0 then 0 else FanVertexCount(m, n - 1) + FaceVertexCount(m.faces[n - 1])
  }

  /** One corner takes one vertex of stride floats. */
  lemma CornerLength(f: VertexFormat, m: MeshData, color: Color, i: nat, p: nat, s: nat)
    requires f.coordType != UnknownCoord && Triangulable(m) && i < |m.faces| && |m.faces[i]| >= 3 && p < |m.faces[i]|
    requires CalculateStride(f.coordType, f.format) == Some(s)
    ensures |CornerValues(f, m, color, i, p)| == s
  {
    VertexValuesFitStride(f, Some(m.vertices[m.faces[i][p]]), Some(ZERO3), Some(m.uvCoords[m.uvFaces[i][p]].value), color);
  }

  lemma {:induction false} CornersLength(f: VertexFormat, m: MeshData, color: Color, i: nat, ps: seq<nat>, s: nat)
    requires f.coordType != UnknownCoord && Triangulable(m) && i < |m.faces|
    requires ps != [] ==> |m.faces[i]| >= 3
    requires InFace(ps, |m.faces[i]|)
    requires CalculateStride(f.coordType, f.format) == Some(s)
    ensures |CornersValues(f, m, color, i, ps)| == |ps| * s
    decreases |ps|
  {
    if ps != [] {
      CornersLength(f, m, color, i, ps[..|ps| - 1], s);
      CornerLength(f, m, color, i, ps[|ps| - 1], s);
      Distribute(|ps| - 1, 1, s);
    }
  }

  /** A face of k >= 3 indices gives 3 (k - 2) vertices, a face of two none. */
  lemma FaceLength(f: VertexFormat, m: MeshData, color: Color, i: nat, s: nat)
    requires f.coordType != UnknownCoord && Triangulable(m) && i < |m.faces|
    requires CalculateStride(f.coordType, f.format) == Some(s)
    ensures |FaceValues(f, m, color, i)| == FaceVertexCount(m.faces[i]) * s
  {
    var k := |m.faces[i]|;
    if k >= 3 {
      FanIndicesBound(k - 2);
      FanInFace(k - 2, k);
      CornersLength(f, m, color, i, FanIndices(k - 2), s);
    }
  }

  lemma Distribute(a: int, b: int, c: int)
    ensures (a + b) * c == a * c + b * c
  {
  }

  lemma LengthStep(x: nat, y: nat, a: nat, b: nat, s: nat)
    requires x == a * s && y == b * s
    ensures x + y == (a + b) * s
  {
    Distribute(a, b, s);
  }

  /** The floats the first n faces add, summed face by face: one stride per fan vertex of each face. */
  function FacesFloatCount(m: MeshData, n: nat, s: nat): nat
    requires n <= |m.faces|
  {
    if n == 0 then 0 else FacesFloatCount(m, n - 1, s) + FaceVertexCount(m.faces[n - 1]) * s
  }

  lemma {:induction false} FacesFloatCountIsProduct(m: MeshData, n: nat, s: nat)
    requires n <= |m.faces|
    ensures FacesFloatCount(m, n, s) == FanVertexCount(m, n) * s
  {
    if n > 0 {
      FacesFloatCountIsProduct(m, n - 1, s);
      LengthStep(FacesFloatCount(m, n - 1, s), FaceVertexCount(m.faces[n - 1]) * s,
                 FanVertexCount(m, n - 1), FaceVertexCount(m.faces[n - 1]), s);
    }
  }

  lemma {:induction false} FacesLengthSum(f: VertexFormat, m: MeshData, color: Color, n: nat, s: nat)
    requires f.coordType != UnknownCoord && Triangulable(m) && n <= |m.faces|
    requires forall i | 0 <= i < n :: |FaceValues(f, m, color, i)| == FaceVertexCount(m.faces[i]) * s
    ensures |FacesValues(f, m, color, n)| == FacesFloatCount(m, n, s)
  {
    if n > 0 {
      FacesLengthSum(f, m, color, n - 1, s);
    }
  }

  /** A geometry's floats are one vertex of stride floats per fan corner. */
  lemma FacesLength(f: VertexFormat, m: MeshData, color: Color, n: nat, s: nat)
    requires f.coordType != UnknownCoord && Triangulable(m) && n <= |m.faces|
    requires CalculateStride(f.coordType, f.format) == Some(s)
    ensures |FacesValues(f, m, color, n)| == FanVertexCount(m, n) * s
  {
    forall i | 0 <= i < n
      ensures |FaceValues(f, m, color, i)| == FaceVertexCount(m.faces[i]) * s
    {
      FaceLength(f, m, color, i, s);
    }
    FacesLengthSum(f, m, color, n, s);
    FacesFloatCountIsProduct(m, n, s);
  }

  /**
   * The vertex of fan triangle t, corner k, of a face lies right after the
   * 3t + k vertices before it, and holds the face's entry at position 0,
   * t + 1 or t + 2.
   */
  lemma FaceCornerAt(f: VertexFormat, m: MeshData, color: Color, i: nat, t: nat, k: nat, s: nat)
    requires f.coordType != UnknownCoord && Triangulable(m) && i < |m.faces|
    requires |m.faces[i]| >= 3 && t < |m.faces[i]| - 2 && k < 3
    requires CalculateStride(f.coordType, f.format) == Some(s)
    ensures var r := FaceValues(f, m, color, i);
      var q := 3 * t + k;
      q * s + s <= |r| && r[q * s..q * s + s] == CornerValues(f, m, color, i, FanCorner(t, k))
  {
    FanIndicesShape(|m.faces[i]| - 2);
    FaceValuesAt(f, m, color, i, 3 * t + k, FanCorner(t, k), s);
  }

  /** Vertex q of a face's floats is the corner at position p, where p is entry q of the face's fan. */
  lemma FaceValuesAt(f: VertexFormat, m: MeshData, color: Color, i: nat, q: nat, p: nat, s: nat)
    requires f.coordType != UnknownCoord && Triangulable(m) && i < |m.faces| && |m.faces[i]| >= 3
    requires q < |FanIndices(|m.faces[i]| - 2)| && FanIndices(|m.faces[i]| - 2)[q] == p && p < |m.faces[i]|
    requires CalculateStride(f.coordType, f.format) == Some(s)
    ensures var r := FaceValues(f, m, color, i);
      q * s + s <= |r| && r[q * s..q * s + s] == CornerValues(f, m, color, i, p)
  {
    FaceValuesFan(f, m, color, i);
    CornersValuesAt(f, m, color, i, FanIndices(|m.faces[i]| - 2), q, s);
  }

  /** A face of three or more indices holds the floats of its fan's corners. */
  lemma FaceValuesFan(f: VertexFormat, m: MeshData, color: Color, i: nat)
    requires f.coordType != UnknownCoord && Triangulable(m) && i < |m.faces| && |m.faces[i]| >= 3
    ensures InFace(FanIndices(|m.faces[i]| - 2), |m.faces[i]|)
    ensures FaceValues(f, m, color, i) == CornersValues(f, m, color, i, FanIndices(|m.faces[i]| - 2))
  {
    FanInFace(|m.faces[i]| - 2, |m.faces[i]|);
  }

  lemma {:induction false} CornersValuesAt(f: VertexFormat, m: MeshData, color: Color, i: nat, ps: seq<nat>, q: nat, s: nat)
    requires f.coordType != UnknownCoord && Triangulable(m) && i < |m.faces|
    requires ps != [] ==> |m.faces[i]| >= 3
    requires InFace(ps, |m.faces[i]|)
    requires q < |ps|
    requires CalculateStride(f.coordType, f.format) == Some(s)
    ensures var r := CornersValues(f, m, color, i, ps);
      q * s + s <= |r| && r[q * s..q * s + s] == CornerValues(f, m, color, i, ps[q])
    decreases |ps|
  {
    var front := ps[..|ps| - 1];
    CornersLength(f, m, color, i, front, s);
    CornerLength(f, m, color, i, ps[|ps| - 1], s);
    var a := CornersValues(f, m, color, i, front);
    var b := CornerValues(f, m, color, i, ps[|ps| - 1]);
    MulNonNegative(q, s);
    var o: nat := q * s;
    assert CornersValues(f, m, color, i, ps) == a + b;
    if q < |front| {
      CornersValuesAt(f, m, color, i, front, q, s);
      assert front[q] == ps[q];
      SliceOfFront(a, b, o, s);
    } else {
      assert q == |front|;
      SliceOfBack(a, b, o, s);
    }
  }

  lemma SliceOfFront(a: seq<real>, b: seq<real>, o: nat, s: nat)
    requires o + s <= |a|
    ensures (a + b)[o..o + s] == a[o..o + s]
  {
  }

  lemma SliceOfBack(a: seq<real>, b: seq<real>, o: nat, s: nat)
    requires o == |a| && |b| == s
    ensures (a + b)[o..o + s] == b
  {
  }

  /** The floats of a list of corners are those of its parts, one after the other. */
  lemma {:induction false} CornersValuesAppend(f: VertexFormat, m: MeshData, color: Color, i: nat, ps: seq<nat>, qs: seq<nat>)
    requires f.coordType != UnknownCoord && Triangulable(m) && i < |m.faces|
    requires |m.faces[i]| >= 3 && InFace(ps, |m.faces[i]|) && InFace(qs, |m.faces[i]|)
    ensures InFace(ps + qs, |m.faces[i]|)
    ensures CornersValues(f, m, color, i, ps + qs) == CornersValues(f, m, color, i, ps) + CornersValues(f, m, color, i, qs)
    decreases |qs|
  {
    InFaceAppend(ps, qs, |m.faces[i]|);
    if qs == [] {
      assert ps + qs == ps;
    } else {
      var last := |qs| - 1;
      assert (ps + qs)[..|ps + qs| - 1] == ps + qs[..last];
      InFacePrefix(qs, last, |m.faces[i]|);
      CornersValuesAppend(f, m, color, i, ps, qs[..last]);
    }
  }

  /** The floats one vertex of a face corner adds, computed by VertexBufferAdd for the corner's vertex and texture coordinates. */
  function CornerColor(onGetVertexColor: Option<ColorCallback>, material: Material): Color {
    VertexColor(onGetVertexColor, material, Some(ZERO3), 0)
  }

  /**
   * The innermost loop of BuildGeometry: the three corners of fan triangle
   * j of face i, each added with its vertex, a zero normal, its texture
   * coordinates and group 0.
   */
  method AddFanTriangle(m: MeshData, i: nat, j: nat, onGetVertexColor: Option<ColorCallback>, vb: VertexBuffer)
    requires Triangulable(m) && i < |m.faces| && j + 2 < |m.faces[i]|
    requires StrideSet(vb.format)
    modifies vb
    ensures vb.format == old(vb.format) && vb.culling == old(vb.culling) && vb.material == old(vb.material)
    ensures vb.data == old(vb.data) + CornersValues(vb.format, m, CornerColor(onGetVertexColor, vb.material), i, FanTriangle(j))
  {
    ghost var f, color, before := vb.format, CornerColor(onGetVertexColor, vb.material), vb.data;
    ghost var ps := FanTriangle(j);
    var face, uvFace := m.faces[i], m.uvFaces[i];
    var k := 0;
    while k < 3
      invariant k <= 3
      invariant vb.format == f && vb.culling == old(vb.culling) && vb.material == old(vb.material)
      invariant vb.data == before + CornersValues(f, m, color, i, ps[..k])
    {
      var index := if k == 0 then 0 else j + k;
      ghost var mid := vb.data;
      var ok := VertexBufferAdd(Some(m.vertices[face[index]]), Some(ZERO3), Some(m.uvCoords[uvFace[index]].value), 0, onGetVertexColor, vb);
      assert index == ps[k];
      CornersValuesSnoc(f, m, color, i, ps, k, before, mid, vb.data);
      k := k + 1;
    }
    assert ps[..3] == ps;
  }

  /** Extending a list of corners by the next one extends its floats by that corner's. */
  lemma CornersValuesSnoc(f: VertexFormat, m: MeshData, color: Color, i: nat, ps: seq<nat>, k: nat,
                          before: seq<real>, mid: seq<real>, data: seq<real>)
    requires f.coordType != UnknownCoord && Triangulable(m) && i < |m.faces| && |m.faces[i]| >= 3
    requires InFace(ps, |m.faces[i]|) && k < |ps|
    requires mid == before + CornersValues(f, m, color, i, ps[..k])
    requires data == mid + CornerValues(f, m, color, i, ps[k])
    ensures data == before + CornersValues(f, m, color, i, ps[..k + 1])
  {
    var qs := ps[..k + 1];
    assert qs[..k] == ps[..k] && qs[k] == ps[k];
    assert CornersValues(f, m, color, i, qs) == CornersValues(f, m, color, i, ps[..k]) + CornerValues(f, m, color, i, ps[k]);
    AppendAssoc(before, CornersValues(f, m, color, i, ps[..k]), CornerValues(f, m, color, i, ps[k]));
  }

  lemma AppendAssoc(a: seq<real>, b: seq<real>, c: seq<real>)
    ensures a + b + c == a + (b + c)
  {
  }

  /** Adding the floats of fan triangle j after those of the first j triangles gives those of the first j + 1. */
  lemma FanStep(f: VertexFormat, m: MeshData, color: Color, i: nat, j: nat, before: seq<real>, data: seq<real>)
    requires f.coordType != UnknownCoord && Triangulable(m) && i < |m.faces| && j + 2 < |m.faces[i]|
    requires InFace(FanIndices(j), |m.faces[i]|) && InFace(FanTriangle(j), |m.faces[i]|)
    requires data == before + CornersValues(f, m, color, i, FanIndices(j)) + CornersValues(f, m, color, i, FanTriangle(j))
    ensures InFace(FanIndices(j + 1), |m.faces[i]|)
    ensures data == before + CornersValues(f, m, color, i, FanIndices(j + 1))
  {
    CornersValuesAppend(f, m, color, i, FanIndices(j), FanTriangle(j));
    assert FanIndices(j + 1) == FanIndices(j) + FanTriangle(j);
    AppendAssoc(before, CornersValues(f, m, color, i, FanIndices(j)), CornersValues(f, m, color, i, FanTriangle(j)));
  }

  /**
   * The fan triangles 0..j-1 of face i have been added after before. The
   * fact is guarded by the At marker, so a proof only unfolds the floats it
   * stands for where it mentions At(j).
   */
  ghost predicate FanAdded(f: VertexFormat, m: MeshData, color: Color, i: nat, j: nat, before: seq<real>, data: seq<real>) {
    forall k: nat | At(k) && k == j ::
      && f.coordType != UnknownCoord && Triangulable(m) && i < |m.faces| && k + 2 <= |m.faces[i]|
      && InFace(FanIndices(k), |m.faces[i]|)
      && data == before + CornersValues(f, m, color, i, FanIndices(k))
  }

  /** One pass of the fan loop of AddFace: triangle j is added, so triangles 0..j are. */
  method AddFanStep(m: MeshData, i: nat, j: nat, onGetVertexColor: Option<ColorCallback>, vb: VertexBuffer, ghost before: seq<real>)
    requires Triangulable(m) && i < |m.faces| && j + 2 < |m.faces[i]|
    requires StrideSet(vb.format)
    requires FanAdded(vb.format, m, CornerColor(onGetVertexColor, vb.material), i, j, before, vb.data)
    modifies vb
    ensures vb.format == old(vb.format) && vb.culling == old(vb.culling) && vb.material == old(vb.material)
    ensures FanAdded(vb.format, m, CornerColor(onGetVertexColor, vb.material), i, j + 1, before, vb.data)
  {
    ghost var f, color := vb.format, CornerColor(onGetVertexColor, vb.material);
    assert At(j);
    AddFanTriangle(m, i, j, onGetVertexColor, vb);
    FanInFace(j, |m.faces[i]|);
    FanStep(f, m, color, i, j, before, vb.data);
  }

  /** Once all |face| - 2 fan triangles are added, the face's floats are. */
  lemma FanAddedAll(f: VertexFormat, m: MeshData, color: Color, i: nat, before: seq<real>, data: seq<real>)
    requires f.coordType != UnknownCoord && Triangulable(m) && i < |m.faces|
    requires FanAdded(f, m, color, i, |m.faces[i]| - 2, before, data)
    ensures data == before + FaceValues(f, m, color, i)
  {
    assert At(|m.faces[i]| - 2);
    if |m.faces[i]| >= 3 {
      FaceValuesFan(f, m, color, i);
    }
  }

  /** The middle loop of BuildGeometry: the fan triangles of face i, in order. */
  method AddFace(m: MeshData, i: nat, onGetVertexColor: Option<ColorCallback>, vb: VertexBuffer)
    requires Triangulable(m) && i < |m.faces|
    requires StrideSet(vb.format)
    modifies vb
    ensures vb.format == old(vb.format) && vb.culling == old(vb.culling) && vb.material == old(vb.material)
    ensures vb.data == old(vb.data) + FaceValues(vb.format, m, CornerColor(onGetVertexColor, vb.material), i)
  {
    ghost var f, color, before := vb.format, CornerColor(onGetVertexColor, vb.material), vb.data;
    var valueCount := |m.faces[i]|;
    var j := 0;
    assert At(0);
    while j < valueCount - 2
      invariant j <= valueCount - 2
      invariant vb.format == f && vb.culling == old(vb.culling) && vb.material == old(vb.material)
      invariant FanAdded(f, m, color, i, j, before, vb.data)
    {
      AddFanStep(m, i, j, onGetVertexColor, vb, before);
      j := j + 1;
    }
    FanAddedAll(f, m, color, i, before, vb.data);
  }

  /** The outer loop of BuildGeometry: the faces of the mesh, in order. */
  method AddFaces(m: MeshData, onGetVertexColor: Option<ColorCallback>, vb: VertexBuffer)
    requires Triangulable(m)
    requires StrideSet(vb.format)
    requires vb.data == []
    modifies vb
    ensures vb.format == old(vb.format) && vb.culling == old(vb.culling) && vb.material == old(vb.material)
    ensures vb.data == FacesValues(vb.format, m, CornerColor(onGetVertexColor, vb.material), |m.faces|)
  {
    ghost var f, color := vb.format, CornerColor(onGetVertexColor, vb.material);
    var faceCount := |m.faces|;
    var i := 0;
    while i < faceCount
      invariant i <= faceCount
      invariant vb.format == f && vb.culling == old(vb.culling) && vb.material == old(vb.material)
      invariant vb.data == FacesValues(f, m, color, i)
    {
      AddFace(m, i, onGetVertexColor, vb);
      FacesValuesSnoc(f, m, color, i);
      i := i + 1;
    }
  }

  lemma FacesValuesSnoc(f: VertexFormat, m: MeshData, color: Color, n: nat)
    requires f.coordType != UnknownCoord && Triangulable(m) && n < |m.faces|
    ensures FacesValues(f, m, color, n + 1) == FacesValues(f, m, color, n) + FaceValues(f, m, color, n)
  {
  }

  // ---------------------------------------------------------------------
  // Material of a geometry

  /** The first material of the list with the given name. */
  function FirstMaterial(ms: seq<MaterialData>, name: string): (r: Option<nat>)
    ensures r.Some? ==> r.value < |ms| && ms[r.value].name == name && forall k :: 0 <= k < r.value ==> ms[k].name != name
    ensures r.None? ==> forall k :: 0 <= k < |ms| ==> ms[k].name != name
  {
    if ms == [] then None
    else if ms[0].name == name then Some(0)
    else match FirstMaterial(ms[1..], name)
      case None => None
      case Some(k) => Some(k + 1)
  }

  /**
   * The buffer material of a geometry: the loader's template, with, when a
   * texture loader is set and a material of the geometry's material name
   * exists, the texture loaded for the first such material and its
   * transparency flag.
   */
  function GeometryMaterial(template: Material, onLoadTexture: Option<TextureLoader>, ms: seq<MaterialData>, name: string): Material {
    if onLoadTexture.None? then template
    else match FirstMaterial(ms, name)
      case None => template
      case Some(k) => template.(texture := onLoadTexture.value(ms[k].diffuseTexture, ms[k].transparent), transparent := ms[k].transparent)
  }

  /** The calls made to the texture loader for a geometry: one for the first matching material, none otherwise. */
  function TextureLoads(onLoadTexture: Option<TextureLoader>, ms: seq<MaterialData>, name: string): (r: seq<(string, bool)>)
    ensures |r| <= 1
    ensures r != [] <==> onLoadTexture.Some? && FirstMaterial(ms, name).Some?
    ensures r != [] ==> var k := FirstMaterial(ms, name).value; r[0] == (ms[k].diffuseTexture, ms[k].transparent)
  {
    if onLoadTexture.Some? && FirstMaterial(ms, name).Some? then
      var k := FirstMaterial(ms, name).value;
      [(ms[k].diffuseTexture, ms[k].transparent)]
    else []
  }
}
