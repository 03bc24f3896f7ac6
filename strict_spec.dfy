/**
 * The legacy strict parser (MHX2Reader): the same walk over the document as
 * the lenient loader, filling the same records from the same constructor
 * defaults, but with no logger and with every key a record does not know
 * fatal. A strict parse appends no line, so its log is always empty; it
 * shares the result type of the lenient parse, which lets the two be
 * compared directly.
 */
module StrictSpec {
  import opened Wrappers
  import opened Json
  import opened Math3D
  import opened ParseCore
  import opened ModelSpec

  /** A refused node: the parse fails, the item keeps what it holds, nothing is logged. */
  function Fail<T>(v: T): Parsed<T> {
    Parsed(false, v, [])
  }

  /** A value for a known key, or failure. */
  function KnownOrFail<T>(found: Option<T>, v: T): Parsed<T> {
    if found.Some? then Done(found.value) else Fail(v)
  }

  // ---------------------------------------------------------------------
  // IBone::Parse

  function StrictBone(j: Json, b: BoneData): (r: Parsed<BoneData>)
    decreases j
    ensures r.log == []
  {
    if IsContainer(j) then
      if j.name.None? then StrictBoneSeq(Children(j), b)
      else if HasName(j, "head") then var v := VectorField(j, b.head); Parsed(v.ok, b.(head := v.value), [])
      else if HasName(j, "tail") then var v := VectorField(j, b.tail); Parsed(v.ok, b.(tail := v.value), [])
      else if HasName(j, "matrix") then var m := MatrixField(j, b.matrix); Parsed(m.ok, b.(matrix := m.value), [])
      else Fail(b)
    else if j.value.String? then
      if HasName(j, "name") then Done(b.(name := j.value.s))
      else if HasName(j, "parent") then Done(b.(parent := j.value.s))
      else Fail(b)
    else if IsNumber(j) then
      if HasName(j, "roll") then Done(b.(roll := NumberValue(j))) else Fail(b)
    else Fail(b)
  }

  function StrictBoneSeq(cs: seq<Json>, b: BoneData): (r: Parsed<BoneData>)
    decreases cs
    ensures r.log == []
  {
    if cs == [] then Done(b)
    else var first := StrictBone(cs[0], b); if !first.ok then first else first.Then(StrictBoneSeq(cs[1..], first.value))
  }

  /** A child of "bones": a fresh bone. */
  function StrictBoneElement(c: Json): (r: Parsed<BoneData>)
    ensures r.log == []
  {
    StrictBone(c, DEFAULT_BONE)
  }

  // ---------------------------------------------------------------------
  // ISkeleton::Parse: an unnamed container is refused too

  function StrictSkeleton(j: Json, s: SkeletonData): (r: Parsed<SkeletonData>)
    decreases j
    ensures r.log == []
  {
    if IsContainer(j) then
      if HasName(j, "skeleton") then StrictSkeletonSeq(Children(j), s)
      else if HasName(j, "offset") then var v := VectorField(j, s.offset); Parsed(v.ok, s.(offset := v.value), [])
      else if HasName(j, "bones") then
        var l := ParseList(Children(j), StrictBoneElement); Parsed(l.ok, s.(bones := s.bones + l.value), [])
      else Fail(s)
    else if j.value.String? then
      if HasName(j, "name") then Done(s.(name := j.value.s)) else Fail(s)
    else if IsNumber(j) then
      if HasName(j, "scale") then Done(s.(scale := NumberValue(j))) else Fail(s)
    else Fail(s)
  }

  function StrictSkeletonSeq(cs: seq<Json>, s: SkeletonData): (r: Parsed<SkeletonData>)
    decreases cs
    ensures r.log == []
  {
    if cs == [] then Done(s)
    else var first := StrictSkeleton(cs[0], s); if !first.ok then first else first.Then(StrictSkeletonSeq(cs[1..], first.value))
  }

  // ---------------------------------------------------------------------
  // IMaterial::Parse: the keys of the lenient material, every other one refused

  function StrictMaterial(j: Json, m: MaterialData): (r: Parsed<MaterialData>)
    decreases j
    ensures r.log == []
  {
    if IsContainer(j) then
      if j.name.None? then StrictMaterialSeq(Children(j), m)
      else var c := MaterialColor(m, j); if c.Some? then Parsed(c.value.ok, c.value.value, []) else Fail(m)
    else if j.value.String? then KnownOrFail(MaterialString(m, j, j.value.s), m)
    else if IsNumber(j) then KnownOrFail(MaterialNumber(m, j, NumberValue(j)), m)
    else if j.value.Bool? then KnownOrFail(MaterialFlag(m, j, j.value.b), m)
    else Fail(m)
  }

  function StrictMaterialSeq(cs: seq<Json>, m: MaterialData): (r: Parsed<MaterialData>)
    decreases cs
    ensures r.log == []
  {
    if cs == [] then Done(m)
    else var first := StrictMaterial(cs[0], m); if !first.ok then first else first.Then(StrictMaterialSeq(cs[1..], first.value))
  }

  /** A child of "materials": a fresh material. */
  function StrictMaterialElement(c: Json): (r: Parsed<MaterialData>)
    ensures r.log == []
  {
    StrictMaterial(c, DEFAULT_MATERIAL)
  }

  // ---------------------------------------------------------------------
  // ILicense::Parse

  function StrictLicense(j: Json, l: LicenseData): (r: Parsed<LicenseData>)
    decreases j
    ensures r.log == []
  {
    if IsContainer(j) then
      if HasName(j, "license") then StrictLicenseSeq(Children(j), l) else Fail(l)
    else if j.value.String? then
      if HasName(j, "author") then Done(l.(author := j.value.s))
      else if HasName(j, "license") then Done(l.(license := j.value.s))
      else if HasName(j, "homepage") then Done(l.(homepage := j.value.s))
      else Fail(l)
    else Fail(l)
  }

  function StrictLicenseSeq(cs: seq<Json>, l: LicenseData): (r: Parsed<LicenseData>)
    decreases cs
    ensures r.log == []
  {
    if cs == [] then Done(l)
    else var first := StrictLicense(cs[0], l); if !first.ok then first else first.Then(StrictLicenseSeq(cs[1..], first.value))
  }

  // ---------------------------------------------------------------------
  // IGeometry::Parse: no mesh, seed mesh or proxy branch

  function StrictGeometry(j: Json, g: GeometryData): (r: Parsed<GeometryData>)
    decreases j
    ensures r.log == []
  {
    if IsContainer(j) then
      if j.name.None? then StrictGeometrySeq(Children(j), g)
      else if HasName(j, "license") then var l := StrictLicense(j, g.license); Parsed(l.ok, g.(license := l.value), [])
      else if HasName(j, "offset") then var v := VectorField(j, g.offset); Parsed(v.ok, g.(offset := v.value), [])
      else Fail(g)
    else if j.value.String? then
      if HasName(j, "name") then Done(g.(name := j.value.s))
      else if HasName(j, "uuid") then Done(g.(uuid := j.value.s))
      else if HasName(j, "material") then Done(g.(material := j.value.s))
      else Fail(g)
    else if IsNumber(j) then
      if HasName(j, "scale") then Done(g.(scale := NumberValue(j))) else Fail(g)
    else if j.value.Bool? then
      if HasName(j, "issubdivided") then Done(g.(isSubdivided := j.value.b))
      else if HasName(j, "human") then Done(g.(isHuman := j.value.b))
      else Fail(g)
    else Fail(g)
  }

  function StrictGeometrySeq(cs: seq<Json>, g: GeometryData): (r: Parsed<GeometryData>)
    decreases cs
    ensures r.log == []
  {
    if cs == [] then Done(g)
    else var first := StrictGeometry(cs[0], g); if !first.ok then first else first.Then(StrictGeometrySeq(cs[1..], first.value))
  }

  /** A child of "geometries": a fresh geometry. */
  function StrictGeometryElement(c: Json): (r: Parsed<GeometryData>)
    ensures r.log == []
  {
    StrictGeometry(c, DEFAULT_GEOMETRY)
  }

  // ---------------------------------------------------------------------
  // IModel::Parse: every other container is walked into; only the version string is read

  function StrictModel(j: Json, m: ModelData): (r: Parsed<ModelData>)
    decreases j
    ensures r.log == []
  {
    if IsContainer(j) then
      if HasName(j, "skeleton") then var s := StrictSkeleton(j, m.skeleton); Parsed(s.ok, m.(skeleton := s.value), [])
      else if HasName(j, "materials") then
        var l := ParseList(Children(j), StrictMaterialElement); Parsed(l.ok, m.(materials := m.materials + l.value), [])
      else if HasName(j, "geometries") then
        var l := ParseList(Children(j), StrictGeometryElement); Parsed(l.ok, m.(geometries := m.geometries + l.value), [])
      else StrictModelSeq(Children(j), m)
    else if j.value.String? then
      if HasName(j, "mhx2_version") then Done(m.(version := j.value.s)) else Fail(m)
    else Fail(m)
  }

  function StrictModelSeq(cs: seq<Json>, m: ModelData): (r: Parsed<ModelData>)
    decreases cs
    ensures r.log == []
  {
    if cs == [] then Done(m)
    else var first := StrictModel(cs[0], m); if !first.ok then first else first.Then(StrictModelSeq(cs[1..], first.value))
  }

  // ---------------------------------------------------------------------
  // The strict parse against the lenient one

  /**
   * Two readers of list elements, the first of which never logs and agrees
   * with the second on every element it accepts: the second reads every
   * list the first accepts in the same way.
   */
  lemma {:induction false} ListAgrees<T>(cs: seq<Json>, strict: Json -> Parsed<T>, lenient: Json -> Parsed<T>)
    requires forall k | 0 <= k < |cs| :: strict(cs[k]).log == []
    requires forall k | 0 <= k < |cs| :: strict(cs[k]).ok ==> lenient(cs[k]) == strict(cs[k])
    ensures ParseList(cs, strict).log == []
    ensures ParseList(cs, strict).ok ==> ParseList(cs, lenient) == ParseList(cs, strict)
    decreases |cs|
  {
    if cs != [] {
      assert forall k | 0 <= k < |cs| - 1 :: cs[1..][k] == cs[k + 1];
      ListAgrees(cs[1..], strict, lenient);
    }
  }

  /** The converse: when the first reader accepts every element the second reads without a line, it reads every such list the same way. */
  lemma {:induction false} ListAgreesBack<T>(cs: seq<Json>, strict: Json -> Parsed<T>, lenient: Json -> Parsed<T>)
    requires forall k | 0 <= k < |cs| :: lenient(cs[k]).ok && lenient(cs[k]).log == [] ==> strict(cs[k]) == lenient(cs[k])
    ensures var l := ParseList(cs, lenient); l.ok && l.log == [] ==> ParseList(cs, strict) == l
    decreases |cs|
  {
    if cs != [] {
      assert forall k | 0 <= k < |cs| - 1 :: cs[1..][k] == cs[k + 1];
      ListAgreesBack(cs[1..], strict, lenient);
    }
  }

  /**
   * A bone the strict parser accepts is read by the lenient parser in the
   * same way and without a warning; conversely, a bone the lenient parser
   * reads without a warning is accepted by the strict one.
   */
  lemma {:induction false} BoneAgrees(j: Json, b: BoneData)
    decreases j
    ensures StrictBone(j, b).ok ==> ParseBone(j, b) == StrictBone(j, b)
    ensures ParseBone(j, b).ok && ParseBone(j, b).log == [] ==> StrictBone(j, b) == ParseBone(j, b)
  {
    if IsContainer(j) && j.name.None? {
      BoneSeqAgrees(Children(j), b);
    }
  }

  lemma {:induction false} BoneSeqAgrees(cs: seq<Json>, b: BoneData)
    decreases cs
    ensures StrictBoneSeq(cs, b).ok ==> ParseBoneSeq(cs, b) == StrictBoneSeq(cs, b)
    ensures ParseBoneSeq(cs, b).ok && ParseBoneSeq(cs, b).log == [] ==> StrictBoneSeq(cs, b) == ParseBoneSeq(cs, b)
  {
    if cs != [] {
      BoneAgrees(cs[0], b);
      var l := ParseBone(cs[0], b);
      if l.ok {
        BoneSeqAgrees(cs[1..], l.value);
      }
    }
  }

  /** Both directions for the "bones" list of a skeleton. */
  lemma BonesAgree(cs: seq<Json>)
    ensures ParseList(cs, StrictBoneElement).log == []
    ensures ParseList(cs, StrictBoneElement).ok ==> ParseList(cs, BoneElement) == ParseList(cs, StrictBoneElement)
    ensures var l := ParseList(cs, BoneElement); l.ok && l.log == [] ==> ParseList(cs, StrictBoneElement) == l
  {
    forall k | 0 <= k < |cs|
      ensures StrictBoneElement(cs[k]).ok ==> BoneElement(cs[k]) == StrictBoneElement(cs[k])
      ensures BoneElement(cs[k]).ok && BoneElement(cs[k]).log == [] ==> StrictBoneElement(cs[k]) == BoneElement(cs[k])
    {
      BoneAgrees(cs[k], DEFAULT_BONE);
    }
    ListAgrees(cs, StrictBoneElement, BoneElement);
    ListAgreesBack(cs, StrictBoneElement, BoneElement);
  }

  /** A skeleton: both directions, as for a bone. */
  lemma {:induction false} SkeletonAgrees(j: Json, s: SkeletonData)
    decreases j
    ensures StrictSkeleton(j, s).ok ==> ParseSkeleton(j, s) == StrictSkeleton(j, s)
    ensures ParseSkeleton(j, s).ok && ParseSkeleton(j, s).log == [] ==> StrictSkeleton(j, s) == ParseSkeleton(j, s)
  {
    if IsContainer(j) {
      if HasName(j, "skeleton") {
        SkeletonSeqAgrees(Children(j), s);
      } else if HasName(j, "bones") {
        BonesAgree(Children(j));
      }
    }
  }

  lemma {:induction false} SkeletonSeqAgrees(cs: seq<Json>, s: SkeletonData)
    decreases cs
    ensures StrictSkeletonSeq(cs, s).ok ==> ParseSkeletonSeq(cs, s) == StrictSkeletonSeq(cs, s)
    ensures ParseSkeletonSeq(cs, s).ok && ParseSkeletonSeq(cs, s).log == [] ==> StrictSkeletonSeq(cs, s) == ParseSkeletonSeq(cs, s)
  {
    if cs != [] {
      SkeletonAgrees(cs[0], s);
      var l := ParseSkeleton(cs[0], s);
      if l.ok {
        SkeletonSeqAgrees(cs[1..], l.value);
      }
    }
  }

  /** A material: both directions, as for a bone. */
  lemma {:induction false} MaterialAgrees(j: Json, m: MaterialData)
    decreases j
    ensures StrictMaterial(j, m).ok ==> ParseMaterial(j, m) == StrictMaterial(j, m)
    ensures ParseMaterial(j, m).ok && ParseMaterial(j, m).log == [] ==> StrictMaterial(j, m) == ParseMaterial(j, m)
  {
    if IsContainer(j) && j.name.None? {
      MaterialSeqAgrees(Children(j), m);
    }
  }

  lemma {:induction false} MaterialSeqAgrees(cs: seq<Json>, m: MaterialData)
    decreases cs
    ensures StrictMaterialSeq(cs, m).ok ==> ParseMaterialSeq(cs, m) == StrictMaterialSeq(cs, m)
    ensures ParseMaterialSeq(cs, m).ok && ParseMaterialSeq(cs, m).log == [] ==> StrictMaterialSeq(cs, m) == ParseMaterialSeq(cs, m)
  {
    if cs != [] {
      MaterialAgrees(cs[0], m);
      var l := ParseMaterial(cs[0], m);
      if l.ok {
        MaterialSeqAgrees(cs[1..], l.value);
      }
    }
  }

  /** A license: both directions, as for a bone. */
  lemma {:induction false} LicenseAgrees(j: Json, l: LicenseData)
    decreases j
    ensures StrictLicense(j, l).ok ==> ParseLicense(j, l) == StrictLicense(j, l)
    ensures ParseLicense(j, l).ok && ParseLicense(j, l).log == [] ==> StrictLicense(j, l) == ParseLicense(j, l)
  {
    if IsContainer(j) && HasName(j, "license") {
      LicenseSeqAgrees(Children(j), l);
    }
  }

  lemma {:induction false} LicenseSeqAgrees(cs: seq<Json>, l: LicenseData)
    decreases cs
    ensures StrictLicenseSeq(cs, l).ok ==> ParseLicenseSeq(cs, l) == StrictLicenseSeq(cs, l)
    ensures ParseLicenseSeq(cs, l).ok && ParseLicenseSeq(cs, l).log == [] ==> StrictLicenseSeq(cs, l) == ParseLicenseSeq(cs, l)
  {
    if cs != [] {
      LicenseAgrees(cs[0], l);
      var first := ParseLicense(cs[0], l);
      if first.ok {
        LicenseSeqAgrees(cs[1..], first.value);
      }
    }
  }

  /**
   * A geometry the strict parser accepts is read by the lenient parser in
   * the same way and without a warning; in particular its meshes and its
   * proxy keep the values they had. The converse does not hold: see
   * MeshOnlyLenient.
   */
  lemma {:induction false} GeometryAgrees(j: Json, g: GeometryData)
    decreases j
    ensures StrictGeometry(j, g).ok ==> ParseGeometry(j, g) == StrictGeometry(j, g)
    ensures StrictGeometry(j, g).ok ==> var v := StrictGeometry(j, g).value;
      v.mesh == g.mesh && v.seedMesh == g.seedMesh && v.proxySeedMesh == g.proxySeedMesh && v.proxy == g.proxy
  {
    if IsContainer(j) {
      if j.name.None? {
        GeometrySeqAgrees(Children(j), g);
      } else if HasName(j, "license") {
        LicenseAgrees(j, g.license);
      }
    }
  }

  lemma {:induction false} GeometrySeqAgrees(cs: seq<Json>, g: GeometryData)
    decreases cs
    ensures StrictGeometrySeq(cs, g).ok ==> ParseGeometrySeq(cs, g) == StrictGeometrySeq(cs, g)
    ensures StrictGeometrySeq(cs, g).ok ==> var v := StrictGeometrySeq(cs, g).value;
      v.mesh == g.mesh && v.seedMesh == g.seedMesh && v.proxySeedMesh == g.proxySeedMesh && v.proxy == g.proxy
  {
    if cs != [] {
      GeometryAgrees(cs[0], g);
      var first := StrictGeometry(cs[0], g);
      if first.ok {
        GeometrySeqAgrees(cs[1..], first.value);
      }
    }
  }

  /** An empty "mesh" object in a geometry: the lenient parser reads it without a warning, the strict one fails. */
  lemma MeshOnlyLenient(g: GeometryData)
    ensures var j := Json(Some("mesh"), Object([]));
      ParseGeometry(j, g) == Parsed(true, g, []) && StrictGeometry(j, g) == Fail(g)
  {
    var j := Json(Some("mesh"), Object([]));
    assert ParseMesh(j, g.mesh) == Parsed(true, g.mesh, []);
  }

  /**
   * A document the strict parser accepts is read by the lenient parser in
   * the same way and without a warning.
   */
  lemma {:induction false} ModelAgrees(j: Json, m: ModelData)
    decreases j
    ensures StrictModel(j, m).ok ==> ParseModel(j, m) == StrictModel(j, m)
  {
    if IsContainer(j) {
      var cs := Children(j);
      if HasName(j, "skeleton") {
        SkeletonAgrees(j, m.skeleton);
      } else if HasName(j, "materials") {
        forall k | 0 <= k < |cs|
          ensures StrictMaterialElement(cs[k]).ok ==> MaterialElement(cs[k]) == StrictMaterialElement(cs[k])
        {
          MaterialAgrees(cs[k], DEFAULT_MATERIAL);
        }
        ListAgrees(cs, StrictMaterialElement, MaterialElement);
      } else if HasName(j, "geometries") {
        forall k | 0 <= k < |cs|
          ensures StrictGeometryElement(cs[k]).ok ==> GeometryElement(cs[k]) == StrictGeometryElement(cs[k])
        {
          GeometryAgrees(cs[k], DEFAULT_GEOMETRY);
        }
        ListAgrees(cs, StrictGeometryElement, GeometryElement);
      } else {
        ModelSeqAgrees(cs, m);
      }
    }
  }

  lemma {:induction false} ModelSeqAgrees(cs: seq<Json>, m: ModelData)
    decreases cs
    ensures StrictModelSeq(cs, m).ok ==> ParseModelSeq(cs, m) == StrictModelSeq(cs, m)
  {
    if cs != [] {
      ModelAgrees(cs[0], m);
      var first := StrictModel(cs[0], m);
      if first.ok {
        ModelSeqAgrees(cs[1..], first.value);
      }
    }
  }

  // ---------------------------------------------------------------------
  // Strict mode: unknown keys are fatal

  /** The node has a name, and it is one of the keys. */
  predicate KeyIn(j: Json, keys: set<string>) {
    j.name.Some? && j.name.value in keys
  }

  /** A bone refuses every key it does not read, where the lenient bone warns and goes on. */
  lemma BoneUnknownKeysFail(j: Json, b: BoneData)
    ensures IsContainer(j) && j.name.Some? && !KeyIn(j, {"head", "tail", "matrix"}) ==>
      StrictBone(j, b) == Fail(b) && ParseBone(j, b).ok && |ParseBone(j, b).log| == 1
    ensures j.value.String? && !KeyIn(j, {"name", "parent"}) ==> StrictBone(j, b) == Fail(b)
    ensures IsNumber(j) && !HasName(j, "roll") ==> StrictBone(j, b) == Fail(b)
    ensures j.value.Bool? || j.value.Null? ==> StrictBone(j, b) == Fail(b)
  {
  }

  /** A skeleton refuses every key it does not read, an unnamed container included. */
  lemma SkeletonUnknownKeysFail(j: Json, s: SkeletonData)
    ensures IsContainer(j) && !KeyIn(j, {"skeleton", "offset", "bones"}) ==> StrictSkeleton(j, s) == Fail(s)
    ensures j.value.String? && !HasName(j, "name") ==> StrictSkeleton(j, s) == Fail(s)
    ensures IsNumber(j) && !HasName(j, "scale") ==> StrictSkeleton(j, s) == Fail(s)
    ensures j.value.Bool? || j.value.Null? ==> StrictSkeleton(j, s) == Fail(s)
  {
  }

  /** A material container under a key other than the four colors fails, where the lenient material warns and goes on. */
  lemma MaterialUnknownContainerFails(j: Json, m: MaterialData)
    requires IsContainer(j) && j.name.Some?
    requires !KeyIn(j, {"diffuse_color", "specular_color", "emissive_color", "ambient_color"})
    ensures StrictMaterial(j, m) == Fail(m)
    ensures ParseMaterial(j, m).ok && |ParseMaterial(j, m).log| == 1
  {
  }

  /** A material string, flag or null under a key the material does not read fails. */
  lemma MaterialUnknownLeafFails(j: Json, m: MaterialData)
    ensures j.value.String? && !KeyIn(j, {"name", "diffuse_texture", "normal_map_texture"}) ==> StrictMaterial(j, m) == Fail(m)
    ensures j.value.Null? ==> StrictMaterial(j, m) == Fail(m)
  {
  }

  /** A material flag under a key the material does not read fails. */
  lemma MaterialUnknownFlagFails(j: Json, m: MaterialData)
    requires j.value.Bool?
    requires !KeyIn(j, {"shadeless", "wireframe", "transparent", "alphaToCoverage", "backfaceCull",
                        "depthless", "castShadows", "receiveShadows", "sssEnabled"})
    ensures StrictMaterial(j, m) == Fail(m)
  {
  }

  /** A license refuses every key it does not read, and every node that is neither a container nor a string. */
  lemma LicenseUnknownKeysFail(j: Json, l: LicenseData)
    ensures IsContainer(j) && !HasName(j, "license") ==> StrictLicense(j, l) == Fail(l)
    ensures j.value.String? && !KeyIn(j, {"author", "license", "homepage"}) ==> StrictLicense(j, l) == Fail(l)
    ensures !IsContainer(j) && !j.value.String? ==> StrictLicense(j, l) == Fail(l)
  {
  }

  /**
   * At model level only the version string is read: any other string and
   * every number, flag and null fails, and a container other than the
   * skeleton and the two lists is walked into.
   */
  lemma ModelStrictness(j: Json, m: ModelData)
    ensures j.value.String? && !HasName(j, "mhx2_version") ==> StrictModel(j, m) == Fail(m)
    ensures IsNumber(j) || j.value.Bool? || j.value.Null? ==> StrictModel(j, m) == Fail(m)
    ensures IsContainer(j) && !KeyIn(j, {"skeleton", "materials", "geometries"}) ==> StrictModel(j, m) == StrictModelSeq(Children(j), m)
  {
  }

  // ---------------------------------------------------------------------
  // A mesh aborts the load

  /** A container named "mesh" fails in a geometry, whatever it holds. */
  lemma MeshKeyFails(j: Json, g: GeometryData)
    requires IsContainer(j) && HasName(j, "mesh")
    ensures StrictGeometry(j, g) == Fail(g)
  {
  }

  /** A geometry one of whose parts is a mesh: the walk of its parts fails, whatever comes before the mesh. */
  lemma {:induction false} MeshAbortsGeometry(cs: seq<Json>, g: GeometryData, k: nat)
    requires k < |cs| && IsContainer(cs[k]) && HasName(cs[k], "mesh")
    ensures !StrictGeometrySeq(cs, g).ok
    decreases k
  {
    var first := StrictGeometry(cs[0], g);
    if k > 0 && first.ok {
      MeshAbortsGeometry(cs[1..], first.value, k - 1);
    }
  }

  /** Geometry i of a "geometries" list is an unnamed container whose part k is a mesh. */
  predicate MeshInGeometries(j: Json, i: nat, k: nat) {
    && IsContainer(j) && HasName(j, "geometries") && i < |Children(j)|
    && var g := Children(j)[i];
    && IsContainer(g) && g.name.None? && k < |Children(g)| && IsContainer(Children(g)[k]) && HasName(Children(g)[k], "mesh")
  }

  /** A "geometries" list holding a geometry with a mesh fails. */
  lemma MeshAbortsGeometries(j: Json, m: ModelData, i: nat, k: nat)
    requires MeshInGeometries(j, i, k)
    ensures !StrictModel(j, m).ok
  {
    var cs := Children(j);
    MeshAbortsGeometry(Children(cs[i]), DEFAULT_GEOMETRY, k);
    ParseListFacts(cs, StrictGeometryElement);
  }

  /** The same list among the parts of a model fails the walk of those parts, whatever comes before it. */
  lemma {:induction false} MeshAbortsModelSeq(cs: seq<Json>, m: ModelData, n: nat, i: nat, k: nat)
    requires n < |cs| && MeshInGeometries(cs[n], i, k)
    ensures !StrictModelSeq(cs, m).ok
    decreases n
  {
    var first := StrictModel(cs[0], m);
    if n == 0 {
      MeshAbortsGeometries(cs[0], m, i, k);
    } else if first.ok {
      MeshAbortsModelSeq(cs[1..], first.value, n - 1, i, k);
    }
  }

  /** A document whose "geometries" list holds a geometry with a mesh is refused by the strict parser. */
  lemma MeshAbortsLoad(root: Json, n: nat, i: nat, k: nat)
    requires root.name.None? && root.value.Object? && n < |Children(root)| && MeshInGeometries(Children(root)[n], i, k)
    ensures !StrictModel(root, DEFAULT_MODEL).ok
  {
    MeshAbortsModelSeq(Children(root), DEFAULT_MODEL, n, i, k);
  }

  // ---------------------------------------------------------------------
  // A failed parse leaves what it read

  /** A version, then a string key the model does not read. */
  const PARTIAL_DOCUMENT := Json(None, Object([Json(Some("mhx2_version"), String("1.0")), Json(Some("name"), String("x"))]))

  /**
   * The strict parser fails on the second member but keeps the version it
   * read; the lenient parser reads the same document with one warning.
   */
  lemma PartialModelKept()
    ensures StrictModel(PARTIAL_DOCUMENT, DEFAULT_MODEL) == Fail(DEFAULT_MODEL.(version := "1.0"))
    ensures var r := ParseModel(PARTIAL_DOCUMENT, DEFAULT_MODEL); r.ok && r.value == DEFAULT_MODEL.(version := "1.0") && |r.log| == 1
  {
    var cs := Children(PARTIAL_DOCUMENT);
    assert cs[1..][1..] == [];
  }

  // ---------------------------------------------------------------------
  // One child of a container at a time

  lemma StrictBoneSeqStep(cs: seq<Json>, i: nat, v: BoneData)
    requires i < |cs|
    ensures var f := StrictBone(cs[i], v);
      StrictBoneSeq(cs[i..], v) == if !f.ok then f else f.Then(StrictBoneSeq(cs[i + 1..], f.value))
  {
    assert cs[i..][0] == cs[i] && cs[i..][1..] == cs[i + 1..];
  }

  lemma StrictSkeletonSeqStep(cs: seq<Json>, i: nat, v: SkeletonData)
    requires i < |cs|
    ensures var f := StrictSkeleton(cs[i], v);
      StrictSkeletonSeq(cs[i..], v) == if !f.ok then f else f.Then(StrictSkeletonSeq(cs[i + 1..], f.value))
  {
    assert cs[i..][0] == cs[i] && cs[i..][1..] == cs[i + 1..];
  }

  lemma StrictMaterialSeqStep(cs: seq<Json>, i: nat, v: MaterialData)
    requires i < |cs|
    ensures var f := StrictMaterial(cs[i], v);
      StrictMaterialSeq(cs[i..], v) == if !f.ok then f else f.Then(StrictMaterialSeq(cs[i + 1..], f.value))
  {
    assert cs[i..][0] == cs[i] && cs[i..][1..] == cs[i + 1..];
  }

  lemma StrictLicenseSeqStep(cs: seq<Json>, i: nat, v: LicenseData)
    requires i < |cs|
    ensures var f := StrictLicense(cs[i], v);
      StrictLicenseSeq(cs[i..], v) == if !f.ok then f else f.Then(StrictLicenseSeq(cs[i + 1..], f.value))
  {
    assert cs[i..][0] == cs[i] && cs[i..][1..] == cs[i + 1..];
  }

  lemma StrictGeometrySeqStep(cs: seq<Json>, i: nat, v: GeometryData)
    requires i < |cs|
    ensures var f := StrictGeometry(cs[i], v);
      StrictGeometrySeq(cs[i..], v) == if !f.ok then f else f.Then(StrictGeometrySeq(cs[i + 1..], f.value))
  {
    assert cs[i..][0] == cs[i] && cs[i..][1..] == cs[i + 1..];
  }

  lemma StrictModelSeqStep(cs: seq<Json>, i: nat, v: ModelData)
    requires i < |cs|
    ensures var f := StrictModel(cs[i], v);
      StrictModelSeq(cs[i..], v) == if !f.ok then f else f.Then(StrictModelSeq(cs[i + 1..], f.value))
  {
    assert cs[i..][0] == cs[i] && cs[i..][1..] == cs[i + 1..];
  }
}
