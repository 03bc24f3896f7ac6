/**
 * The item records of the lenient loader (MHX2Model::I*Item) as values, the
 * values their constructors give them, and what each Parse does to an item:
 * a dispatch on the node's JSON type and, for a named node, its key. A key
 * the item does not know is a warning (one log line, the parse goes on); a
 * JSON type the item does not handle is fatal.
 */
module ModelSpec {
  import opened Wrappers
  import opened Json
  import opened Logging
  import opened Math3D
  import opened ParseCore

  datatype BoneData = BoneData(name: string, parent: string, head: Vector3, tail: Vector3, roll: real, matrix: Matrix4x4)

  datatype SkeletonData = SkeletonData(name: string, offset: Vector3, scale: real, bones: seq<BoneData>)

  datatype MaterialData = MaterialData(
    name: string, diffuseTexture: string, normalMapTexture: string,
    ambient: Color, diffuse: Color, specular: Color, emissive: Color,
    diffuseMapIntensity: real, specularMapIntensity: real, transparencyMapIntensity: real,
    shininess: real, opacity: real, translucency: real,
    sssRScale: real, sssGScale: real, sssBScale: real,
    shadeless: bool, wireframe: bool, transparent: bool, alphaToCoverage: bool, backfaceCull: bool,
    depthless: bool, castShadows: bool, receiveShadows: bool, sssEnabled: bool)

  datatype LicenseData = LicenseData(author: string, license: string, homepage: string)

  /** IUVCoordItem: the coordinate and the member counter of the next slot to fill. */
  datatype UVCoordData = UVCoordData(value: Vector2, internalIndex: nat)

  /** IWeightItem: a [vertex index, weight] pair and the member counter of the next one to read. */
  datatype WeightData = WeightData(index: nat, internalIndex: nat, value: real)

  datatype WeightGroupData = WeightGroupData(key: string, weights: seq<WeightData>)

  /** IMeshItem; a face (IFaceItem) is its list of size_t values, a fit (IFitItem) its list of vectors. */
  datatype MeshData = MeshData(
    vertices: seq<Vector3>, faces: seq<seq<nat>>, uvCoords: seq<UVCoordData>,
    uvFaces: seq<seq<nat>>, weightGroups: seq<WeightGroupData>)

  datatype ProxyData = ProxyData(
    license: LicenseData, name: string, proxyType: string, uuid: string, basemesh: string,
    tags: seq<string>, deleteVerts: seq<bool>, fitting: seq<seq<Vector3>>)

  datatype GeometryData = GeometryData(
    name: string, uuid: string, material: string, license: LicenseData,
    mesh: MeshData, seedMesh: MeshData, proxySeedMesh: MeshData, proxy: ProxyData,
    offset: Vector3, scale: real, isHuman: bool, isSubdivided: bool)

  datatype ModelData = ModelData(version: string, skeleton: SkeletonData, materials: seq<MaterialData>, geometries: seq<GeometryData>)

  // ---------------------------------------------------------------------
  // Constructor defaults. A vector the item constructors leave to its own
  // default constructor is taken to start at zero, and a matrix at the
  // identity; those constructors are not part of this model.

  const DEFAULT_BONE := BoneData("", "", ZERO3, ZERO3, 0.0, IDENTITY)
  const DEFAULT_SKELETON := SkeletonData("", ZERO3, 0.0, [])
  const DEFAULT_MATERIAL := MaterialData(
    "", "", "", WHITE, WHITE, ZERO_COLOR, WHITE,
    1.0, 1.0, 1.0, 0.0, 1.0, 0.0, 1.0, 1.0, 1.0,
    false, false, false, false, false, false, false, false, false)
  const DEFAULT_LICENSE := LicenseData("", "", "")
  const DEFAULT_UV := UVCoordData(ZERO2, 0)
  const DEFAULT_WEIGHT := WeightData(0, 0, 0.0)
  const DEFAULT_WEIGHT_GROUP := WeightGroupData("", [])
  const DEFAULT_MESH := MeshData([], [], [], [], [])
  const DEFAULT_PROXY := ProxyData(DEFAULT_LICENSE, "", "", "", "", [], [], [])
  const DEFAULT_GEOMETRY := GeometryData(
    "", "", "", DEFAULT_LICENSE, DEFAULT_MESH, DEFAULT_MESH, DEFAULT_MESH, DEFAULT_PROXY,
    ZERO3, 1.0, true, false)
  const DEFAULT_MODEL := ModelData("", DEFAULT_SKELETON, [], [])

  // ---------------------------------------------------------------------
  // IBoneItem::Parse

  const BONE_UNKNOWN_VALUE := "Parse bone - unknown value"
  const BONE_UNKNOWN_TYPE := "Parse bone - unknown type"

  function ParseBone(j: Json, b: BoneData): Parsed<BoneData>
    decreases j
  {
    if IsContainer(j) then
      if j.name.None? then ParseBoneSeq(Children(j), b)
      else if HasName(j, "head") then var v := VectorField(j, b.head); Parsed(v.ok, b.(head := v.value), v.log)
      else if HasName(j, "tail") then var v := VectorField(j, b.tail); Parsed(v.ok, b.(tail := v.value), v.log)
      else if HasName(j, "matrix") then var m := MatrixField(j, b.matrix); Parsed(m.ok, b.(matrix := m.value), m.log)
      else Warn(b, j, BONE_UNKNOWN_VALUE)
    else if j.value.String? then
      if HasName(j, "name") then Done(b.(name := j.value.s))
      else if HasName(j, "parent") then Done(b.(parent := j.value.s))
      else Warn(b, j, BONE_UNKNOWN_VALUE)
    else if IsNumber(j) then
      if HasName(j, "roll") then Done(b.(roll := NumberValue(j)))
      else Warn(b, j, BONE_UNKNOWN_VALUE)
    else Refuse(b, j, BONE_UNKNOWN_TYPE)
  }

  /** The children of an unnamed container, parsed into the same bone one after the other. */
  function ParseBoneSeq(cs: seq<Json>, b: BoneData): Parsed<BoneData>
    decreases cs
  {
    if cs == [] then Done(b)
    else var first := ParseBone(cs[0], b); if !first.ok then first else first.Then(ParseBoneSeq(cs[1..], first.value))
  }

  /** A child of "bones": a fresh bone item. */
  function BoneElement(c: Json): Parsed<BoneData> {
    ParseBone(c, DEFAULT_BONE)
  }

  // ---------------------------------------------------------------------
  // ISkeletonItem::Parse

  const SKELETON_UNKNOWN_VALUE := "Parse skeleton - unknown value"

  function ParseSkeleton(j: Json, s: SkeletonData): Parsed<SkeletonData>
    decreases j
  {
    if IsContainer(j) then
      if HasName(j, "skeleton") then ParseSkeletonSeq(Children(j), s)
      else if HasName(j, "offset") then var v := VectorField(j, s.offset); Parsed(v.ok, s.(offset := v.value), v.log)
      else if HasName(j, "bones") then
        var l := ParseList(Children(j), BoneElement); Parsed(l.ok, s.(bones := s.bones + l.value), l.log)
      else Warn(s, j, SKELETON_UNKNOWN_VALUE)
    else if j.value.String? then
      if HasName(j, "name") then Done(s.(name := j.value.s)) else Warn(s, j, SKELETON_UNKNOWN_VALUE)
    else if IsNumber(j) then
      if HasName(j, "scale") then Done(s.(scale := NumberValue(j))) else Warn(s, j, SKELETON_UNKNOWN_VALUE)
    else Refuse(s, j, BONE_UNKNOWN_TYPE)
  }

  function ParseSkeletonSeq(cs: seq<Json>, s: SkeletonData): Parsed<SkeletonData>
    decreases cs
  {
    if cs == [] then Done(s)
    else var first := ParseSkeleton(cs[0], s); if !first.ok then first else first.Then(ParseSkeletonSeq(cs[1..], first.value))
  }

  // ---------------------------------------------------------------------
  // IMaterialItem::Parse

  const MATERIAL_UNKNOWN_VALUE := "Parse material - unknown value"
  const MATERIAL_UNKNOWN_TYPE := "Parse material - unknown type"

  /** The color keys of a material; None for any other key. */
  function MaterialColor(m: MaterialData, j: Json): Option<Parsed<MaterialData>> {
    if HasName(j, "diffuse_color") then var c := ColorField(j, m.diffuse); Some(Parsed(c.ok, m.(diffuse := c.value), c.log))
    else if HasName(j, "specular_color") then var c := ColorField(j, m.specular); Some(Parsed(c.ok, m.(specular := c.value), c.log))
    else if HasName(j, "emissive_color") then var c := ColorField(j, m.emissive); Some(Parsed(c.ok, m.(emissive := c.value), c.log))
    else if HasName(j, "ambient_color") then var c := ColorField(j, m.ambient); Some(Parsed(c.ok, m.(ambient := c.value), c.log))
    else None
  }

  /** The string keys of a material; None for any other key. */
  function MaterialString(m: MaterialData, j: Json, s: string): Option<MaterialData> {
    if HasName(j, "name") then Some(m.(name := s))
    else if HasName(j, "diffuse_texture") then Some(m.(diffuseTexture := s))
    else if HasName(j, "normal_map_texture") then Some(m.(normalMapTexture := s))
    else None
  }

  /** The number keys of a material; None for any other key. */
  function MaterialNumber(m: MaterialData, j: Json, v: real): Option<MaterialData> {
    if HasName(j, "diffuse_map_intensity") then Some(m.(diffuseMapIntensity := v))
    else if HasName(j, "specular_map_intensity") then Some(m.(specularMapIntensity := v))
    else if HasName(j, "transparency_map_intensity") then Some(m.(transparencyMapIntensity := v))
    else if HasName(j, "shininess") then Some(m.(shininess := v))
    else if HasName(j, "opacity") then Some(m.(opacity := v))
    else if HasName(j, "translucency") then Some(m.(translucency := v))
    else if HasName(j, "sssRScale") then Some(m.(sssRScale := v))
    else if HasName(j, "sssGScale") then Some(m.(sssGScale := v))
    else if HasName(j, "sssBScale") then Some(m.(sssBScale := v))
    else None
  }

  /** The flag keys of a material; None for any other key. */
  function MaterialFlag(m: MaterialData, j: Json, b: bool): Option<MaterialData> {
    if HasName(j, "shadeless") then Some(m.(shadeless := b))
    else if HasName(j, "wireframe") then Some(m.(wireframe := b))
    else if HasName(j, "transparent") then Some(m.(transparent := b))
    else if HasName(j, "alphaToCoverage") then Some(m.(alphaToCoverage := b))
    else if HasName(j, "backfaceCull") then Some(m.(backfaceCull := b))
    else if HasName(j, "depthless") then Some(m.(depthless := b))
    else if HasName(j, "castShadows") then Some(m.(castShadows := b))
    else if HasName(j, "receiveShadows") then Some(m.(receiveShadows := b))
    else if HasName(j, "sssEnabled") then Some(m.(sssEnabled := b))
    else None
  }

  /** A value for a known key, or the unknown-key warning. */
  function KnownOrWarn<T>(found: Option<T>, v: T, j: Json, message: string): Parsed<T> {
    if found.Some? then Done(found.value) else Warn(v, j, message)
  }

  function ParseMaterial(j: Json, m: MaterialData): Parsed<MaterialData>
    decreases j
  {
    if IsContainer(j) then
      if j.name.None? then ParseMaterialSeq(Children(j), m)
      else var c := MaterialColor(m, j); if c.Some? then c.value else Warn(m, j, MATERIAL_UNKNOWN_VALUE)
    else if j.value.String? then KnownOrWarn(MaterialString(m, j, j.value.s), m, j, MATERIAL_UNKNOWN_VALUE)
    else if IsNumber(j) then KnownOrWarn(MaterialNumber(m, j, NumberValue(j)), m, j, MATERIAL_UNKNOWN_VALUE)
    else if j.value.Bool? then KnownOrWarn(MaterialFlag(m, j, j.value.b), m, j, MATERIAL_UNKNOWN_VALUE)
    else Refuse(m, j, MATERIAL_UNKNOWN_TYPE)
  }

  function ParseMaterialSeq(cs: seq<Json>, m: MaterialData): Parsed<MaterialData>
    decreases cs
  {
    if cs == [] then Done(m)
    else var first := ParseMaterial(cs[0], m); if !first.ok then first else first.Then(ParseMaterialSeq(cs[1..], first.value))
  }

  /** A child of "materials": a fresh material item. */
  function MaterialElement(c: Json): Parsed<MaterialData> {
    ParseMaterial(c, DEFAULT_MATERIAL)
  }

  // ---------------------------------------------------------------------
  // ILicenseItem::Parse

  const LICENSE_UNKNOWN_VALUE := "Parse license - unknown value"
  const LICENSE_UNKNOWN_TYPE := "Parse license - unknown type"

  function ParseLicense(j: Json, l: LicenseData): Parsed<LicenseData>
    decreases j
  {
    if IsContainer(j) then
      if HasName(j, "license") then ParseLicenseSeq(Children(j), l) else Warn(l, j, LICENSE_UNKNOWN_VALUE)
    else if j.value.String? then
      if HasName(j, "author") then Done(l.(author := j.value.s))
      else if HasName(j, "license") then Done(l.(license := j.value.s))
      else if HasName(j, "homepage") then Done(l.(homepage := j.value.s))
      else Warn(l, j, LICENSE_UNKNOWN_VALUE)
    else Refuse(l, j, LICENSE_UNKNOWN_TYPE)
  }

  function ParseLicenseSeq(cs: seq<Json>, l: LicenseData): Parsed<LicenseData>
    decreases cs
  {
    if cs == [] then Done(l)
    else var first := ParseLicense(cs[0], l); if !first.ok then first else first.Then(ParseLicenseSeq(cs[1..], first.value))
  }

  // ---------------------------------------------------------------------
  // IFaceItem::Parse: every number, at any depth, is appended as a size_t

  const FACE_UNKNOWN_TYPE := "Parse face - unknown type"

  function ParseFace(j: Json, values: seq<nat>): Parsed<seq<nat>>
    decreases j
  {
    if IsContainer(j) then ParseFaceSeq(Children(j), values)
    else if IsNumber(j) then Done(values + [FloatToSizeT(NumberValue(j))])
    else Refuse(values, j, FACE_UNKNOWN_TYPE)
  }

  function ParseFaceSeq(cs: seq<Json>, values: seq<nat>): Parsed<seq<nat>>
    decreases cs
  {
    if cs == [] then Done(values)
    else var first := ParseFace(cs[0], values); if !first.ok then first else first.Then(ParseFaceSeq(cs[1..], first.value))
  }

  /** A child of "faces" or "uv_faces": a fresh face item. */
  function FaceElement(c: Json): Parsed<seq<nat>> {
    ParseFace(c, [])
  }

  // ---------------------------------------------------------------------
  // IUVCoordItem::Parse: the slot reader with the member counter as index

  function ParseUVCoord(j: Json, u: UVCoordData): Parsed<UVCoordData> {
    var s := ParseSlots(j, u.value, u.internalIndex, UV_MESSAGES);
    Parsed(s.ok, UVCoordData(s.slots, s.index), s.log)
  }

  /** A child of "uv_coordinates": a fresh UV coordinate item. */
  function UVCoordElement(c: Json): Parsed<UVCoordData> {
    ParseUVCoord(c, DEFAULT_UV)
  }

  // ---------------------------------------------------------------------
  // IWeightItem::Parse: the first number is the vertex index, the second the weight

  function ParseWeight(j: Json, w: WeightData): Parsed<WeightData>
    decreases j
  {
    if IsContainer(j) then ParseWeightSeq(Children(j), w)
    else if IsNumber(j) then WeightNumber(j, w)
    else Refuse(w, j, WEIGHT_UNKNOWN_TYPE)
  }

  const WEIGHT_UNKNOWN_TYPE := "Parse weight - unknown type"

  /** One number read by a weight item: an int or a float, under the member counter. */
  function WeightNumber(j: Json, w: WeightData): Parsed<WeightData>
    requires IsNumber(j)
  {
    if w.internalIndex == 0 then
      var index := if j.value.Int? then IntToSizeT(j.value.i) else FloatToSizeT(j.value.f);
      Done(w.(index := index, internalIndex := 1))
    else if w.internalIndex == 1 then Done(w.(value := NumberValue(j), internalIndex := 2))
    else Parsed(false, w, [JsonValueLine(Some(j), "Parse weight - index is out of bounds", w.internalIndex)])
  }

  function ParseWeightSeq(cs: seq<Json>, w: WeightData): Parsed<WeightData>
    decreases cs
  {
    if cs == [] then Done(w)
    else var first := ParseWeight(cs[0], w); if !first.ok then first else first.Then(ParseWeightSeq(cs[1..], first.value))
  }

  /** A child of a weight group: a fresh weight item. */
  function WeightElement(c: Json): Parsed<WeightData> {
    ParseWeight(c, DEFAULT_WEIGHT)
  }

  // ---------------------------------------------------------------------
  // IWeightGroupItem::Parse and IFitItem::Parse

  /** A container names the group (when it has a name) and holds one weight item per child. */
  function ParseWeightGroup(j: Json, g: WeightGroupData): Parsed<WeightGroupData> {
    if IsContainer(j) then
      var named := if j.name.Some? then g.(key := j.name.value) else g;
      var l := ParseList(Children(j), WeightElement);
      Parsed(l.ok, named.(weights := named.weights + l.value), l.log)
    else Refuse(g, j, FACE_UNKNOWN_TYPE)
  }

  /** A child of "weights": a fresh weight group item. */
  function WeightGroupElement(c: Json): Parsed<WeightGroupData> {
    ParseWeightGroup(c, DEFAULT_WEIGHT_GROUP)
  }

  /** A fresh vector read from index 0: a child of "vertices" or of a fit. */
  function VertexElement(c: Json): Parsed<Vector3> {
    VectorField(c, ZERO3)
  }

  /** A container holds one vector per child. */
  function ParseFit(j: Json, values: seq<Vector3>): Parsed<seq<Vector3>> {
    if IsContainer(j) then
      var l := ParseList(Children(j), VertexElement);
      Parsed(l.ok, values + l.value, l.log)
    else Refuse(values, j, "Parse proxy - unknown type")
  }

  /** A child of "fitting": a fresh fit item. */
  function FitElement(c: Json): Parsed<seq<Vector3>> {
    ParseFit(c, [])
  }

  // ---------------------------------------------------------------------
  // IMeshItem::Parse

  const MESH_UNKNOWN_VALUE := "Parse mesh - unknown value"
  const MESH_UNKNOWN_TYPE := "Parse mesh - unknown type"

  function ParseMesh(j: Json, m: MeshData): Parsed<MeshData>
    decreases j
  {
    if IsContainer(j) then
      if HasName(j, "mesh") || HasName(j, "seed_mesh") || HasName(j, "proxy_seed_mesh") then ParseMeshSeq(Children(j), m)
      else if HasName(j, "vertices") then
        var l := ParseList(Children(j), VertexElement); Parsed(l.ok, m.(vertices := m.vertices + l.value), l.log)
      else if HasName(j, "faces") then
        var l := ParseList(Children(j), FaceElement); Parsed(l.ok, m.(faces := m.faces + l.value), l.log)
      else if HasName(j, "uv_coordinates") then
        var l := ParseList(Children(j), UVCoordElement); Parsed(l.ok, m.(uvCoords := m.uvCoords + l.value), l.log)
      else if HasName(j, "uv_faces") then
        var l := ParseList(Children(j), FaceElement); Parsed(l.ok, m.(uvFaces := m.uvFaces + l.value), l.log)
      else if HasName(j, "weights") then
        var l := ParseList(Children(j), WeightGroupElement); Parsed(l.ok, m.(weightGroups := m.weightGroups + l.value), l.log)
      else Warn(m, j, MESH_UNKNOWN_VALUE)
    else Refuse(m, j, MESH_UNKNOWN_TYPE)
  }

  function ParseMeshSeq(cs: seq<Json>, m: MeshData): Parsed<MeshData>
    decreases cs
  {
    if cs == [] then Done(m)
    else var first := ParseMesh(cs[0], m); if !first.ok then first else first.Then(ParseMeshSeq(cs[1..], first.value))
  }

  // ---------------------------------------------------------------------
  // IProxyItem::Parse

  const PROXY_UNKNOWN_VALUE := "Parse proxy - unknown value"
  const PROXY_UNKNOWN_TYPE := "Parse proxy - unknown type"

  function ParseProxy(j: Json, p: ProxyData): Parsed<ProxyData>
    decreases j
  {
    if IsContainer(j) then
      if HasName(j, "proxy") || HasName(j, "tags") || HasName(j, "delete_verts") then ParseProxySeq(Children(j), p)
      else if HasName(j, "license") then var l := ParseLicense(j, p.license); Parsed(l.ok, p.(license := l.value), l.log)
      else if HasName(j, "fitting") then
        var l := ParseList(Children(j), FitElement); Parsed(l.ok, p.(fitting := p.fitting + l.value), l.log)
      else
        // unnamed and unknown containers: their children are read, then the warning is logged
        var r := ParseProxySeq(Children(j), p);
        if !r.ok then r else Parsed(true, r.value, r.log + [JsonLine(Some(j), PROXY_UNKNOWN_VALUE)])
    else if j.value.String? then
      if j.name.None? then Done(p.(tags := p.tags + [j.value.s]))
      else if HasName(j, "name") then Done(p.(name := j.value.s))
      else if HasName(j, "type") then Done(p.(proxyType := j.value.s))
      else if HasName(j, "uuid") then Done(p.(uuid := j.value.s))
      else if HasName(j, "basemesh") then Done(p.(basemesh := j.value.s))
      else Warn(p, j, PROXY_UNKNOWN_VALUE)
    else if j.value.Bool? then
      if j.name.None? then Done(p.(deleteVerts := p.deleteVerts + [j.value.b])) else Warn(p, j, PROXY_UNKNOWN_VALUE)
    else if j.value.Null? then
      if HasName(j, "vertex_bone_weights") then Done(p) else Warn(p, j, PROXY_UNKNOWN_VALUE)
    else Refuse(p, j, PROXY_UNKNOWN_TYPE)
  }

  function ParseProxySeq(cs: seq<Json>, p: ProxyData): Parsed<ProxyData>
    decreases cs
  {
    if cs == [] then Done(p)
    else var first := ParseProxy(cs[0], p); if !first.ok then first else first.Then(ParseProxySeq(cs[1..], first.value))
  }

  // ---------------------------------------------------------------------
  // IGeometryItem::Parse

  const GEOMETRY_UNKNOWN_VALUE := "Parse geometry - unknown value"
  const GEOMETRY_UNKNOWN_TYPE := "Parse geometry - unknown type"

  function ParseGeometry(j: Json, g: GeometryData): Parsed<GeometryData>
    decreases j
  {
    if IsContainer(j) then
      if j.name.None? then ParseGeometrySeq(Children(j), g)
      else if HasName(j, "license") then var l := ParseLicense(j, g.license); Parsed(l.ok, g.(license := l.value), l.log)
      else if HasName(j, "offset") then var v := VectorField(j, g.offset); Parsed(v.ok, g.(offset := v.value), v.log)
      else if HasName(j, "mesh") then var m := ParseMesh(j, g.mesh); Parsed(m.ok, g.(mesh := m.value), m.log)
      else if HasName(j, "seed_mesh") then var m := ParseMesh(j, g.seedMesh); Parsed(m.ok, g.(seedMesh := m.value), m.log)
      else if HasName(j, "proxy_seed_mesh") then
        var m := ParseMesh(j, g.proxySeedMesh); Parsed(m.ok, g.(proxySeedMesh := m.value), m.log)
      else if HasName(j, "proxy") then var p := ParseProxy(j, g.proxy); Parsed(p.ok, g.(proxy := p.value), p.log)
      else Warn(g, j, GEOMETRY_UNKNOWN_VALUE)
    else if j.value.String? then
      if HasName(j, "name") then Done(g.(name := j.value.s))
      else if HasName(j, "uuid") then Done(g.(uuid := j.value.s))
      else if HasName(j, "material") then Done(g.(material := j.value.s))
      else Warn(g, j, GEOMETRY_UNKNOWN_VALUE)
    else if IsNumber(j) then
      if HasName(j, "scale") then Done(g.(scale := NumberValue(j))) else Warn(g, j, GEOMETRY_UNKNOWN_VALUE)
    else if j.value.Bool? then
      if HasName(j, "issubdivided") then Done(g.(isSubdivided := j.value.b))
      else if HasName(j, "human") then Done(g.(isHuman := j.value.b))
      else Warn(g, j, GEOMETRY_UNKNOWN_VALUE)
    else Refuse(g, j, GEOMETRY_UNKNOWN_TYPE)
  }

  function ParseGeometrySeq(cs: seq<Json>, g: GeometryData): Parsed<GeometryData>
    decreases cs
  {
    if cs == [] then Done(g)
    else var first := ParseGeometry(cs[0], g); if !first.ok then first else first.Then(ParseGeometrySeq(cs[1..], first.value))
  }

  /** A child of "geometries": a fresh geometry item. */
  function GeometryElement(c: Json): Parsed<GeometryData> {
    ParseGeometry(c, DEFAULT_GEOMETRY)
  }

  // ---------------------------------------------------------------------
  // IModelItem::Parse

  function ParseModel(j: Json, m: ModelData): Parsed<ModelData>
    decreases j
  {
    if IsContainer(j) then
      if HasName(j, "skeleton") then var s := ParseSkeleton(j, m.skeleton); Parsed(s.ok, m.(skeleton := s.value), s.log)
      else if HasName(j, "materials") then
        var l := ParseList(Children(j), MaterialElement); Parsed(l.ok, m.(materials := m.materials + l.value), l.log)
      else if HasName(j, "geometries") then
        var l := ParseList(Children(j), GeometryElement); Parsed(l.ok, m.(geometries := m.geometries + l.value), l.log)
      else ParseModelSeq(Children(j), m)
    else if j.value.String? then
      if HasName(j, "mhx2_version") then Done(m.(version := j.value.s)) else Warn(m, j, "Parse model - unknown value")
    else Refuse(m, j, "Parse model - unknown type")
  }

  function ParseModelSeq(cs: seq<Json>, m: ModelData): Parsed<ModelData>
    decreases cs
  {
    if cs == [] then Done(m)
    else var first := ParseModel(cs[0], m); if !first.ok then first else first.Then(ParseModelSeq(cs[1..], first.value))
  }

  // ---------------------------------------------------------------------
  // Faces and weights read the numbers of a document in pre-order

  /** The size_t values stored for a list of numbers. */
  function SizeTs(ns: seq<real>): (vs: seq<nat>)
    ensures |vs| == |ns|
    ensures forall k | 0 <= k < |ns| :: vs[k] == FloatToSizeT(ns[k])
  {
    if ns == [] then [] else [FloatToSizeT(ns[0])] + SizeTs(ns[1..])
  }

  /** The face reader over the nodes of a document in pre-order: a reference without recursion into the tree. */
  function RunFace(nodes: seq<Json>, values: seq<nat>): Parsed<seq<nat>>
    decreases |nodes|
  {
    if nodes == [] then Done(values)
    else if IsContainer(nodes[0]) then RunFace(nodes[1..], values)
    else if IsNumber(nodes[0]) then RunFace(nodes[1..], values + [FloatToSizeT(NumberValue(nodes[0]))])
    else Refuse(values, nodes[0], FACE_UNKNOWN_TYPE)
  }

  /**
   * The flat face reader succeeds exactly when every node is a container or
   * a number; it then appends the numbers in order, as size_t, and logs
   * nothing; a failure logs one line.
   */
  lemma {:induction false} RunFaceResult(nodes: seq<Json>, values: seq<nat>)
    ensures var r := RunFace(nodes, values);
      && (r.ok <==> OnlyNumbers(nodes))
      && (r.ok ==> r.value == values + SizeTs(Numbers(nodes)) && r.log == [])
      && (!r.ok ==> |r.log| == 1)
    decreases |nodes|, 1
  {
    if nodes != [] {
      OnlyNumbersCons(nodes);
      if IsContainer(nodes[0]) {
        RunFaceResult(nodes[1..], values);
      } else if IsNumber(nodes[0]) {
        RunFaceNumber(nodes, values);
      } else {
        assert !OnlyNumbers(nodes);
      }
    }
  }

  /** The number case of RunFaceResult: the number is appended, then the rest is read. */
  lemma {:induction false} RunFaceNumber(nodes: seq<Json>, values: seq<nat>)
    requires nodes != [] && IsNumber(nodes[0])
    ensures var r := RunFace(nodes, values);
      && (r.ok <==> OnlyNumbers(nodes))
      && (r.ok ==> r.value == values + SizeTs(Numbers(nodes)) && r.log == [])
      && (!r.ok ==> |r.log| == 1)
    decreases |nodes|, 0
  {
    OnlyNumbersCons(nodes);
    var x := NumberValue(nodes[0]);
    RunFaceResult(nodes[1..], values + [FloatToSizeT(x)]);
    NumbersCons(nodes);
    SizeTsCons(values, x, Numbers(nodes[1..]));
  }

  /** A number at the front of the nodes is the first of their numbers. */
  lemma NumbersCons(nodes: seq<Json>)
    requires nodes != [] && IsNumber(nodes[0])
    ensures Numbers(nodes) == [NumberValue(nodes[0])] + Numbers(nodes[1..])
  {
  }

  /** Appending the size_t of one number, then those of the rest, appends those of them all. */
  lemma SizeTsCons(values: seq<nat>, x: real, rest: seq<real>)
    ensures values + [FloatToSizeT(x)] + SizeTs(rest) == values + SizeTs([x] + rest)
  {
    var ns := [x] + rest;
    assert ns[0] == x && ns[1..] == rest;
    assert SizeTs(ns) == [FloatToSizeT(x)] + SizeTs(rest);
  }

  lemma {:induction false} RunFaceAppend(a: seq<Json>, b: seq<Json>, values: seq<nat>)
    ensures var r := RunFace(a, values);
      RunFace(a + b, values) == if r.ok then RunFace(b, r.value) else r
    decreases |a|
  {
    if a == [] {
      assert a + b == b;
    } else {
      assert (a + b)[0] == a[0];
      assert (a + b)[1..] == a[1..] + b;
      if IsContainer(a[0]) {
        RunFaceAppend(a[1..], b, values);
      } else if IsNumber(a[0]) {
        RunFaceAppend(a[1..], b, values + [FloatToSizeT(NumberValue(a[0]))]);
      }
    }
  }

  /** The tree face reader and the flat one agree on every document. */
  lemma {:induction false} FaceFollowsPreOrder(j: Json, values: seq<nat>)
    ensures ParseFace(j, values) == RunFace(PreOrder(j), values)
    decreases j
  {
    var nodes := PreOrder(j);
    if IsContainer(j) {
      assert nodes[1..] == PreOrderSeq(Children(j));
      FaceSeqFollowsPreOrder(Children(j), values);
    } else if IsNumber(j) {
      assert nodes[1..] == [];
    }
  }

  lemma {:induction false} FaceSeqFollowsPreOrder(cs: seq<Json>, values: seq<nat>)
    ensures ParseFaceSeq(cs, values) == RunFace(PreOrderSeq(cs), values)
    decreases cs
  {
    if cs != [] {
      FaceFollowsPreOrder(cs[0], values);
      RunFaceAppend(PreOrder(cs[0]), PreOrderSeq(cs[1..]), values);
      var first := ParseFace(cs[0], values);
      RunFaceResult(PreOrder(cs[0]), values);
      if first.ok {
        FaceSeqFollowsPreOrder(cs[1..], first.value);
      }
    }
  }

  /**
   * IFaceItem::Parse flattens: every number of the document, at any depth
   * and in document order, is appended as a size_t (a float truncated); it
   * succeeds exactly when nothing but containers and numbers occurs.
   */
  lemma FaceFlattens(j: Json, values: seq<nat>)
    ensures var r := ParseFace(j, values);
      && (r.ok <==> OnlyNumbers(PreOrder(j)))
      && (r.ok ==> r.value == values + SizeTs(Leaves(j)) && r.log == [])
      && (!r.ok ==> |r.log| == 1)
  {
    FaceFollowsPreOrder(j, values);
    RunFaceResult(PreOrder(j), values);
  }

  /** An int leaf and the same value as a float give the same size_t. */
  lemma IntIndexAsFloat(i: int)
    ensures IntToSizeT(i) == FloatToSizeT(i as real)
  {
    assert Truncate(i as real) == i;
  }

  /** The weight reader over the nodes of a document in pre-order. */
  function RunWeight(nodes: seq<Json>, w: WeightData): Parsed<WeightData>
    decreases |nodes|
  {
    if nodes == [] then Done(w)
    else if IsContainer(nodes[0]) then RunWeight(nodes[1..], w)
    else if IsNumber(nodes[0]) then
      var s := WeightNumber(nodes[0], w); if !s.ok then s else RunWeight(nodes[1..], s.value)
    else Refuse(w, nodes[0], WEIGHT_UNKNOWN_TYPE)
  }

  /**
   * The flat weight reader: with the member counter at c (at most 2), the
   * numbers must be at most 2 - c; the first number read at counter 0 is
   * the vertex index, the one read at counter 1 the weight; nothing else
   * changes and nothing is logged.
   */
  lemma {:induction false} RunWeightResult(nodes: seq<Json>, w: WeightData)
    requires w.internalIndex <= 2
    ensures var r := RunWeight(nodes, w);
      var ns := Numbers(nodes);
      var c := w.internalIndex;
      && (r.ok <==> OnlyNumbers(nodes) && c + |ns| <= 2)
      && (r.ok ==> r.log == [] && r.value.internalIndex == c + |ns|)
      && (r.ok ==> r.value.index == if c == 0 < |ns| then FloatToSizeT(ns[0]) else w.index)
      && (r.ok ==> r.value.value == if c <= 1 < c + |ns| then ns[1 - c] else w.value)
      && (!r.ok ==> |r.log| == 1)
    decreases |nodes|
  {
    if nodes != [] {
      OnlyNumbersCons(nodes);
      var n := nodes[0];
      if IsContainer(n) {
        RunWeightResult(nodes[1..], w);
      } else if IsNumber(n) {
        assert Numbers(nodes) == [NumberValue(n)] + Numbers(nodes[1..]);
        if n.value.Int? { IntIndexAsFloat(n.value.i); }
        var s := WeightNumber(n, w);
        if s.ok {
          RunWeightResult(nodes[1..], s.value);
        }
      }
    }
  }

  lemma {:induction false} RunWeightAppend(a: seq<Json>, b: seq<Json>, w: WeightData)
    ensures var r := RunWeight(a, w);
      RunWeight(a + b, w) == if r.ok then RunWeight(b, r.value).(log := r.log + RunWeight(b, r.value).log) else r
    decreases |a|
  {
    if a == [] {
      assert a + b == b;
    } else {
      assert (a + b)[0] == a[0];
      assert (a + b)[1..] == a[1..] + b;
      if IsContainer(a[0]) {
        RunWeightAppend(a[1..], b, w);
      } else if IsNumber(a[0]) {
        var s := WeightNumber(a[0], w);
        if s.ok {
          RunWeightAppend(a[1..], b, s.value);
        }
      }
    }
  }

  /** The tree weight reader and the flat one agree on every document. */
  lemma {:induction false} WeightFollowsPreOrder(j: Json, w: WeightData)
    ensures ParseWeight(j, w) == RunWeight(PreOrder(j), w)
    decreases j
  {
    var nodes := PreOrder(j);
    if IsContainer(j) {
      assert nodes[1..] == PreOrderSeq(Children(j));
      WeightSeqFollowsPreOrder(Children(j), w);
    } else if IsNumber(j) {
      assert nodes[1..] == [];
    }
  }

  lemma {:induction false} WeightSeqFollowsPreOrder(cs: seq<Json>, w: WeightData)
    ensures ParseWeightSeq(cs, w) == RunWeight(PreOrderSeq(cs), w)
    decreases cs
  {
    if cs != [] {
      WeightFollowsPreOrder(cs[0], w);
      RunWeightAppend(PreOrder(cs[0]), PreOrderSeq(cs[1..]), w);
      var first := ParseWeight(cs[0], w);
      if first.ok {
        WeightSeqFollowsPreOrder(cs[1..], first.value);
      }
    }
  }

  /**
   * A fresh IWeightItem reads a [vertex index, weight] pair: at most two
   * numbers at any nesting, the first stored as a size_t index, the second
   * as the weight; a third number, or a node that is neither a container nor
   * a number, fails with one log line.
   */
  lemma WeightPair(j: Json)
    ensures var r := WeightElement(j);
      var ns := Leaves(j);
      && (r.ok <==> OnlyNumbers(PreOrder(j)) && |ns| <= 2)
      && (r.ok ==> r.log == [] && r.value.internalIndex == |ns|)
      && (r.ok ==> r.value.index == if |ns| >= 1 then FloatToSizeT(ns[0]) else 0)
      && (r.ok ==> r.value.value == if |ns| == 2 then ns[1] else 0.0)
      && (!r.ok ==> |r.log| == 1)
  {
    WeightFollowsPreOrder(j, DEFAULT_WEIGHT);
    RunWeightResult(PreOrder(j), DEFAULT_WEIGHT);
  }

  // ---------------------------------------------------------------------
  // Warning versus fatal

  /** A bone container under a key the bone does not know is skipped with one warning. */
  lemma BoneUnknownKeyWarns(j: Json, b: BoneData)
    requires IsContainer(j) && j.name.Some? && j.name.value !in {"head", "tail", "matrix"}
    ensures ParseBone(j, b) == Parsed(true, b, [JsonLine(Some(j), BONE_UNKNOWN_VALUE)])
  {
  }

  /** A material container whose key is not one of the four colors is skipped with one warning. */
  lemma MaterialUnknownKeyWarns(j: Json, m: MaterialData)
    requires IsContainer(j) && j.name.Some?
    requires j.name.value !in {"diffuse_color", "specular_color", "emissive_color", "ambient_color"}
    ensures ParseMaterial(j, m) == Parsed(true, m, [JsonLine(Some(j), MATERIAL_UNKNOWN_VALUE)])
  {
  }

  /** A mesh container that is unnamed or under an unknown key is skipped with one warning. */
  lemma MeshUnknownKeyWarns(j: Json, m: MeshData)
    requires IsContainer(j)
    requires j.name.None? || j.name.value !in {"mesh", "seed_mesh", "proxy_seed_mesh", "vertices", "faces", "uv_coordinates", "uv_faces", "weights"}
    ensures ParseMesh(j, m) == Parsed(true, m, [JsonLine(Some(j), MESH_UNKNOWN_VALUE)])
  {
  }

  /** A geometry container under an unknown key is skipped with one warning. */
  lemma GeometryUnknownKeyWarns(j: Json, g: GeometryData)
    requires IsContainer(j) && j.name.Some?
    requires j.name.value !in {"license", "offset", "mesh", "seed_mesh", "proxy_seed_mesh", "proxy"}
    ensures ParseGeometry(j, g) == Parsed(true, g, [JsonLine(Some(j), GEOMETRY_UNKNOWN_VALUE)])
  {
  }

  /**
   * A JSON type a record does not handle fails with one line, whatever the
   * key: a bool in a bone, a string in a mesh, a number in a license, a
   * number or a bool at model level.
   */
  lemma UnhandledTypesFail(j: Json, b: BoneData, me: MeshData, l: LicenseData, m: ModelData)
    ensures j.value.Bool? ==> ParseBone(j, b) == Parsed(false, b, [JsonLine(Some(j), BONE_UNKNOWN_TYPE)])
    ensures j.value.String? ==> ParseMesh(j, me) == Parsed(false, me, [JsonLine(Some(j), MESH_UNKNOWN_TYPE)])
    ensures IsNumber(j) ==> ParseLicense(j, l) == Parsed(false, l, [JsonLine(Some(j), LICENSE_UNKNOWN_TYPE)])
    ensures IsNumber(j) || j.value.Bool? ==> ParseModel(j, m) == Parsed(false, m, [JsonLine(Some(j), "Parse model - unknown type")])
  {
  }

  // ---------------------------------------------------------------------
  // One child of a container at a time

  lemma BoneSeqStep(cs: seq<Json>, i: nat, v: BoneData)
    requires i < |cs|
    ensures var f := ParseBone(cs[i], v);
      ParseBoneSeq(cs[i..], v) == if !f.ok then f else f.Then(ParseBoneSeq(cs[i + 1..], f.value))
  {
    assert cs[i..][0] == cs[i] && cs[i..][1..] == cs[i + 1..];
  }

  lemma SkeletonSeqStep(cs: seq<Json>, i: nat, v: SkeletonData)
    requires i < |cs|
    ensures var f := ParseSkeleton(cs[i], v);
      ParseSkeletonSeq(cs[i..], v) == if !f.ok then f else f.Then(ParseSkeletonSeq(cs[i + 1..], f.value))
  {
    assert cs[i..][0] == cs[i] && cs[i..][1..] == cs[i + 1..];
  }

  lemma MaterialSeqStep(cs: seq<Json>, i: nat, v: MaterialData)
    requires i < |cs|
    ensures var f := ParseMaterial(cs[i], v);
      ParseMaterialSeq(cs[i..], v) == if !f.ok then f else f.Then(ParseMaterialSeq(cs[i + 1..], f.value))
  {
    assert cs[i..][0] == cs[i] && cs[i..][1..] == cs[i + 1..];
  }

  lemma LicenseSeqStep(cs: seq<Json>, i: nat, v: LicenseData)
    requires i < |cs|
    ensures var f := ParseLicense(cs[i], v);
      ParseLicenseSeq(cs[i..], v) == if !f.ok then f else f.Then(ParseLicenseSeq(cs[i + 1..], f.value))
  {
    assert cs[i..][0] == cs[i] && cs[i..][1..] == cs[i + 1..];
  }

  lemma FaceSeqStep(cs: seq<Json>, i: nat, v: seq<nat>)
    requires i < |cs|
    ensures var f := ParseFace(cs[i], v);
      ParseFaceSeq(cs[i..], v) == if !f.ok then f else f.Then(ParseFaceSeq(cs[i + 1..], f.value))
  {
    assert cs[i..][0] == cs[i] && cs[i..][1..] == cs[i + 1..];
  }

  lemma WeightSeqStep(cs: seq<Json>, i: nat, v: WeightData)
    requires i < |cs|
    ensures var f := ParseWeight(cs[i], v);
      ParseWeightSeq(cs[i..], v) == if !f.ok then f else f.Then(ParseWeightSeq(cs[i + 1..], f.value))
  {
    assert cs[i..][0] == cs[i] && cs[i..][1..] == cs[i + 1..];
  }

  lemma MeshSeqStep(cs: seq<Json>, i: nat, v: MeshData)
    requires i < |cs|
    ensures var f := ParseMesh(cs[i], v);
      ParseMeshSeq(cs[i..], v) == if !f.ok then f else f.Then(ParseMeshSeq(cs[i + 1..], f.value))
  {
    assert cs[i..][0] == cs[i] && cs[i..][1..] == cs[i + 1..];
  }

  lemma ProxySeqStep(cs: seq<Json>, i: nat, v: ProxyData)
    requires i < |cs|
    ensures var f := ParseProxy(cs[i], v);
      ParseProxySeq(cs[i..], v) == if !f.ok then f else f.Then(ParseProxySeq(cs[i + 1..], f.value))
  {
    assert cs[i..][0] == cs[i] && cs[i..][1..] == cs[i + 1..];
  }

  lemma GeometrySeqStep(cs: seq<Json>, i: nat, v: GeometryData)
    requires i < |cs|
    ensures var f := ParseGeometry(cs[i], v);
      ParseGeometrySeq(cs[i..], v) == if !f.ok then f else f.Then(ParseGeometrySeq(cs[i + 1..], f.value))
  {
    assert cs[i..][0] == cs[i] && cs[i..][1..] == cs[i + 1..];
  }

  lemma ModelSeqStep(cs: seq<Json>, i: nat, v: ModelData)
    requires i < |cs|
    ensures var f := ParseModel(cs[i], v);
      ParseModelSeq(cs[i..], v) == if !f.ok then f else f.Then(ParseModelSeq(cs[i + 1..], f.value))
  {
    assert cs[i..][0] == cs[i] && cs[i..][1..] == cs[i + 1..];
  }
}
