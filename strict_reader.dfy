/**
 * The strict parser's items as objects (MHX2Reader::IItem and its
 * subclasses): each Parse writes the fields of its item in place and, for
 * lists, pushes each fresh child once it parsed; nothing is logged. Every
 * method is proved against the matching function of StrictSpec. The reader
 * itself (MHX2Reader) owns the model it last read.
 */
module StrictReader {
  import opened Wrappers
  import opened Json
  import opened Math3D
  import opened ParseCore
  import opened ModelSpec
  import opened StrictSpec

  // ---------------------------------------------------------------------
  // IItem: the slot and matrix readers with their by-reference counters

  /**
   * The reader behind ParseVector and ParseColor: the slots and the index
   * are passed in and handed back, as the source passes them by reference.
   * The messages only name the lines the lenient reader would log.
   */
  method ReadSlots(j: Json, slots: seq<real>, index: nat, ghost msgs: SlotMessages)
    returns (ok: bool, filled: seq<real>, next: nat)
    decreases j
    ensures var r := ParseSlots(j, slots, index, msgs); ok == r.ok && filled == r.slots && next == r.index
  {
    filled, next := slots, index;
    if index >= |slots| {
      return false, filled, next;
    }
    if IsContainer(j) {
      var cs := Children(j);
      var i := 0;
      assert cs[i..] == cs;
      while i < |cs|
        invariant 0 <= i <= |cs|
        invariant ParseSlots(j, slots, index, msgs) == ParseSlotsSeq(cs[i..], filled, next, msgs)
      {
        assert cs[i..][0] == cs[i] && cs[i..][1..] == cs[i + 1..];
        ok, filled, next := ReadSlots(cs[i], filled, next, msgs);
        if !ok {
          return;
        }
        i := i + 1;
      }
      assert cs[i..] == [];
      return true, filled, next;
    } else if IsNumber(j) {
      return true, slots[index := NumberValue(j)], index + 1;
    }
    return false, filled, next;
  }

  /** IItem::ParseVector, with the bounds of the lenient reader and no log. */
  method ParseVector(j: Json, v: Vector3, index: nat) returns (ok: bool, filled: Vector3, next: nat)
    ensures var r := ParseSlots(j, v, index, VECTOR_MESSAGES); ok == r.ok && filled == r.slots && next == r.index
  {
    ok, filled, next := ReadSlots(j, v, index, VECTOR_MESSAGES);
  }

  /** IItem::ParseColor, with the bounds of the lenient reader and no log. */
  method ParseColor(j: Json, c: Color, index: nat) returns (ok: bool, filled: Color, next: nat)
    ensures var r := ParseSlots(j, c, index, COLOR_MESSAGES); ok == r.ok && filled == r.slots && next == r.index
  {
    ok, filled, next := ReadSlots(j, c, index, COLOR_MESSAGES);
  }

  /** IItem::ParseMatrix: x and y are the by-reference column and row counters; fails when either is past the table on entry. */
  method ParseMatrix(j: Json, m: Matrix4x4, x: nat, y: nat) returns (ok: bool, filled: Matrix4x4, nextX: nat, nextY: nat)
    decreases j
    ensures var r := ParseMatrixSpec(j, m, x, y); ok == r.ok && filled == r.matrix && nextX == r.x && nextY == r.y
  {
    filled, nextX, nextY := m, x, y;
    if x >= 4 || y >= 4 {
      return false, filled, nextX, nextY;
    }
    if IsContainer(j) {
      var cs := Children(j);
      var i := 0;
      assert cs[i..] == cs;
      while i < |cs|
        invariant 0 <= i <= |cs|
        invariant ParseMatrixSeq(cs, m, x, y) == ParseMatrixSeq(cs[i..], filled, nextX, nextY)
      {
        assert cs[i..][0] == cs[i] && cs[i..][1..] == cs[i + 1..];
        ok, filled, nextX, nextY := ParseMatrix(cs[i], filled, nextX, nextY);
        if !ok {
          return;
        }
        i := i + 1;
      }
      assert cs[i..] == [];
      return true, filled, 0, nextY + 1;
    } else if IsNumber(j) {
      return true, SetCell(m, y, x, NumberValue(j)), x + 1, y;
    }
    return false, filled, nextX, nextY;
  }

  // ---------------------------------------------------------------------
  // IBone

  class BoneRecord {
    /** The members of IBone, held as one record. */
    var data: BoneData

    constructor ()
      ensures data == DEFAULT_BONE
    {
      data := DEFAULT_BONE;
    }

    method Parse(j: Json) returns (ok: bool)
      modifies this
      decreases j
      ensures var r := StrictBone(j, old(data)); ok == r.ok && data == r.value
    {
      ok := false;
      if IsContainer(j) {
        if j.name.None? {
          ok := ParseChildren(Children(j));
        } else if HasName(j, "head") {
          var index := 0;
          var v;
          ok, v, index := ParseVector(j, data.head, index);
          data := data.(head := v);
        } else if HasName(j, "tail") {
          var index := 0;
          var v;
          ok, v, index := ParseVector(j, data.tail, index);
          data := data.(tail := v);
        } else if HasName(j, "matrix") {
          var x, y := 0, 0;
          var m;
          ok, m, x, y := ParseMatrix(j, data.matrix, x, y);
          data := data.(matrix := m);
        }
      } else if j.value.String? {
        if HasName(j, "name") {
          data := data.(name := j.value.s);
          ok := true;
        } else if HasName(j, "parent") {
          data := data.(parent := j.value.s);
          ok := true;
        }
      } else if IsNumber(j) {
        if HasName(j, "roll") {
          data := data.(roll := NumberValue(j));
          ok := true;
        }
      }
    }

    /** The children of an unnamed container, parsed into this bone in order until one fails. */
    method ParseChildren(cs: seq<Json>) returns (ok: bool)
      modifies this
      decreases cs, 1
      ensures var r := StrictBoneSeq(cs, old(data)); ok == r.ok && data == r.value
    {
      ghost var start := data;
      WalkStart(StrictBoneSeq, cs, data);
      var i := 0;
      while i < |cs|
        invariant i <= |cs|
        invariant WalkSoFar(StrictBoneSeq, cs, i, start, [], data)
      {
        ok := ParseChildAt(cs, i, start);
        if !ok {
          return;
        }
        i := i + 1;
      }
      WalkEnd(StrictBoneSeq, cs, start, [], data);
      ok := true;
    }

    /** Child i of the walk, parsed into this item. */
    method ParseChildAt(cs: seq<Json>, i: nat, ghost start: BoneData) returns (ok: bool)
      requires i < |cs| && WalkSoFar(StrictBoneSeq, cs, i, start, [], data)
      modifies this
      decreases cs, 0
      ensures ok ==> WalkSoFar(StrictBoneSeq, cs, i + 1, start, [], data)
      ensures !ok ==> StrictBoneSeq(cs, start) == Fail(data)
    {
      StrictBoneSeqStep(cs, i, data);
      WalkStep(StrictBoneSeq, StrictBone, cs, i, start, [], data);
      ok := Parse(cs[i]);
    }
  }

  // ---------------------------------------------------------------------
  // ISkeleton

  class SkeletonRecord {
    /** The members of ISkeleton, held as one record. */
    var data: SkeletonData

    /** The scale starts at 0. */
    constructor ()
      ensures data == DEFAULT_SKELETON
    {
      data := DEFAULT_SKELETON;
    }

    /** A record standing for the skeleton embedded in its model, with that skeleton's current members. */
    constructor Of(v: SkeletonData)
      ensures data == v
    {
      data := v;
    }

    method Parse(j: Json) returns (ok: bool)
      modifies this
      decreases j
      ensures var r := StrictSkeleton(j, old(data)); ok == r.ok && data == r.value
    {
      ok := false;
      if IsContainer(j) {
        if HasName(j, "skeleton") {
          ok := ParseChildren(Children(j));
        } else if HasName(j, "offset") {
          var index := 0;
          var v;
          ok, v, index := ParseVector(j, data.offset, index);
          data := data.(offset := v);
        } else if HasName(j, "bones") {
          ok := ParseBones(Children(j));
        }
      } else if j.value.String? {
        if HasName(j, "name") {
          data := data.(name := j.value.s);
          ok := true;
        }
      } else if IsNumber(j) {
        if HasName(j, "scale") {
          data := data.(scale := NumberValue(j));
          ok := true;
        }
      }
    }

    /** The children of the "skeleton" container, parsed into this skeleton in order until one fails. */
    method ParseChildren(cs: seq<Json>) returns (ok: bool)
      modifies this
      decreases cs, 1
      ensures var r := StrictSkeletonSeq(cs, old(data)); ok == r.ok && data == r.value
    {
      ghost var start := data;
      WalkStart(StrictSkeletonSeq, cs, data);
      var i := 0;
      while i < |cs|
        invariant i <= |cs|
        invariant WalkSoFar(StrictSkeletonSeq, cs, i, start, [], data)
      {
        ok := ParseChildAt(cs, i, start);
        if !ok {
          return;
        }
        i := i + 1;
      }
      WalkEnd(StrictSkeletonSeq, cs, start, [], data);
      ok := true;
    }

    /** Child i of the walk, parsed into this item. */
    method ParseChildAt(cs: seq<Json>, i: nat, ghost start: SkeletonData) returns (ok: bool)
      requires i < |cs| && WalkSoFar(StrictSkeletonSeq, cs, i, start, [], data)
      modifies this
      decreases cs, 0
      ensures ok ==> WalkSoFar(StrictSkeletonSeq, cs, i + 1, start, [], data)
      ensures !ok ==> StrictSkeletonSeq(cs, start) == Fail(data)
    {
      StrictSkeletonSeqStep(cs, i, data);
      WalkStep(StrictSkeletonSeq, StrictSkeleton, cs, i, start, [], data);
      ok := Parse(cs[i]);
    }

    /** The "bones" list: a fresh bone per child, appended once it parsed; the first failure stops the list. */
    method ParseBones(cs: seq<Json>) returns (ok: bool)
      modifies this
      ensures var l := ParseList(cs, StrictBoneElement); ok == l.ok && data == old(data).(bones := old(data).bones + l.value)
    {
      var items := [];
      ListStart(cs, StrictBoneElement);
      var i := 0;
      ok := true;
      while i < |cs|
        invariant i <= |cs| && ok
        invariant data == old(data)
        invariant ListSoFar(cs, i, StrictBoneElement, items, [])
      {
        var item;
        ok, item := BoneAt(cs, i, items);
        if !ok {
          break;
        }
        items := items + [item];
        i := i + 1;
      }
      if ok {
        ListEnd(cs, StrictBoneElement, items, []);
      }
      data := data.(bones := data.bones + items);
    }
  }

  // ---------------------------------------------------------------------
  // IMaterial

  class MaterialRecord {
    /** The members of IMaterial, held as one record. */
    var data: MaterialData

    /** The specular color is left at ColorF's own default, all zeros. */
    constructor ()
      ensures data == DEFAULT_MATERIAL
    {
      data := DEFAULT_MATERIAL;
    }

    method Parse(j: Json) returns (ok: bool)
      modifies this
      decreases j
      ensures var r := StrictMaterial(j, old(data)); ok == r.ok && data == r.value
    {
      if IsContainer(j) {
        if j.name.None? {
          ok := ParseChildren(Children(j));
        } else {
          ok := ParseColorValue(j);
        }
      } else if j.value.String? {
        ok := ParseStringValue(j, j.value.s);
      } else if IsNumber(j) {
        ok := ParseNumberValue(j, NumberValue(j));
      } else if j.value.Bool? {
        ok := ParseFlagValue(j, j.value.b);
      } else {
        ok := false;
      }
    }

    /** A named container: one of the four colors, or failure. */
    method ParseColorValue(j: Json) returns (ok: bool)
      requires j.name.Some?
      modifies this
      ensures var c := MaterialColor(old(data), j);
        var r := if c.Some? then c.value else Fail(old(data));
        ok == r.ok && data == r.value
    {
      var index := 0;
      var c;
      if HasName(j, "diffuse_color") {
        ok, c, index := ParseColor(j, data.diffuse, index);
        data := data.(diffuse := c);
      } else if HasName(j, "specular_color") {
        ok, c, index := ParseColor(j, data.specular, index);
        data := data.(specular := c);
      } else if HasName(j, "emissive_color") {
        ok, c, index := ParseColor(j, data.emissive, index);
        data := data.(emissive := c);
      } else if HasName(j, "ambient_color") {
        ok, c, index := ParseColor(j, data.ambient, index);
        data := data.(ambient := c);
      } else {
        ok := false;
      }
    }

    /** A string: the name or one of the two texture names, or failure. */
    method ParseStringValue(j: Json, s: string) returns (ok: bool)
      modifies this
      ensures var r := KnownOrFail(MaterialString(old(data), j, s), old(data)); ok == r.ok && data == r.value
    {
      ok := true;
      if HasName(j, "name") {
        data := data.(name := s);
      } else if HasName(j, "diffuse_texture") {
        data := data.(diffuseTexture := s);
      } else if HasName(j, "normal_map_texture") {
        data := data.(normalMapTexture := s);
      } else {
        ok := false;
      }
    }

    /** An int or a float: one of the nine scalar fields, or failure. */
    method ParseNumberValue(j: Json, v: real) returns (ok: bool)
      modifies this
      ensures var r := KnownOrFail(MaterialNumber(old(data), j, v), old(data)); ok == r.ok && data == r.value
    {
      ok := true;
      if HasName(j, "diffuse_map_intensity") {
        data := data.(diffuseMapIntensity := v);
      } else if HasName(j, "specular_map_intensity") {
        data := data.(specularMapIntensity := v);
      } else if HasName(j, "transparency_map_intensity") {
        data := data.(transparencyMapIntensity := v);
      } else if HasName(j, "shininess") {
        data := data.(shininess := v);
      } else if HasName(j, "opacity") {
        data := data.(opacity := v);
      } else if HasName(j, "translucency") {
        data := data.(translucency := v);
      } else if HasName(j, "sssRScale") {
        data := data.(sssRScale := v);
      } else if HasName(j, "sssGScale") {
        data := data.(sssGScale := v);
      } else if HasName(j, "sssBScale") {
        data := data.(sssBScale := v);
      } else {
        ok := false;
      }
    }

    /** A bool: one of the nine flags, or failure. */
    method ParseFlagValue(j: Json, b: bool) returns (ok: bool)
      modifies this
      ensures var r := KnownOrFail(MaterialFlag(old(data), j, b), old(data)); ok == r.ok && data == r.value
    {
      ok := true;
      if HasName(j, "shadeless") {
        data := data.(shadeless := b);
      } else if HasName(j, "wireframe") {
        data := data.(wireframe := b);
      } else if HasName(j, "transparent") {
        data := data.(transparent := b);
      } else if HasName(j, "alphaToCoverage") {
        data := data.(alphaToCoverage := b);
      } else if HasName(j, "backfaceCull") {
        data := data.(backfaceCull := b);
      } else if HasName(j, "depthless") {
        data := data.(depthless := b);
      } else if HasName(j, "castShadows") {
        data := data.(castShadows := b);
      } else if HasName(j, "receiveShadows") {
        data := data.(receiveShadows := b);
      } else if HasName(j, "sssEnabled") {
        data := data.(sssEnabled := b);
      } else {
        ok := false;
      }
    }

    /** The children of an unnamed container, parsed into this material in order until one fails. */
    method ParseChildren(cs: seq<Json>) returns (ok: bool)
      modifies this
      decreases cs, 1
      ensures var r := StrictMaterialSeq(cs, old(data)); ok == r.ok && data == r.value
    {
      ghost var start := data;
      WalkStart(StrictMaterialSeq, cs, data);
      var i := 0;
      while i < |cs|
        invariant i <= |cs|
        invariant WalkSoFar(StrictMaterialSeq, cs, i, start, [], data)
      {
        ok := ParseChildAt(cs, i, start);
        if !ok {
          return;
        }
        i := i + 1;
      }
      WalkEnd(StrictMaterialSeq, cs, start, [], data);
      ok := true;
    }

    /** Child i of the walk, parsed into this item. */
    method ParseChildAt(cs: seq<Json>, i: nat, ghost start: MaterialData) returns (ok: bool)
      requires i < |cs| && WalkSoFar(StrictMaterialSeq, cs, i, start, [], data)
      modifies this
      decreases cs, 0
      ensures ok ==> WalkSoFar(StrictMaterialSeq, cs, i + 1, start, [], data)
      ensures !ok ==> StrictMaterialSeq(cs, start) == Fail(data)
    {
      StrictMaterialSeqStep(cs, i, data);
      WalkStep(StrictMaterialSeq, StrictMaterial, cs, i, start, [], data);
      ok := Parse(cs[i]);
    }
  }

  // ---------------------------------------------------------------------
  // ILicense

  class LicenseRecord {
    /** The members of ILicense, held as one record. */
    var data: LicenseData

    /** A record standing for the license embedded in its geometry, with that license's current members. */
    constructor Of(v: LicenseData)
      ensures data == v
    {
      data := v;
    }

    method Parse(j: Json) returns (ok: bool)
      modifies this
      decreases j
      ensures var r := StrictLicense(j, old(data)); ok == r.ok && data == r.value
    {
      ok := false;
      if IsContainer(j) {
        if HasName(j, "license") {
          ok := ParseChildren(Children(j));
        }
      } else if j.value.String? {
        ok := true;
        if HasName(j, "author") {
          data := data.(author := j.value.s);
        } else if HasName(j, "license") {
          data := data.(license := j.value.s);
        } else if HasName(j, "homepage") {
          data := data.(homepage := j.value.s);
        } else {
          ok := false;
        }
      }
    }

    /** The children of the "license" container, parsed into this license in order until one fails. */
    method ParseChildren(cs: seq<Json>) returns (ok: bool)
      modifies this
      decreases cs, 1
      ensures var r := StrictLicenseSeq(cs, old(data)); ok == r.ok && data == r.value
    {
      ghost var start := data;
      WalkStart(StrictLicenseSeq, cs, data);
      var i := 0;
      while i < |cs|
        invariant i <= |cs|
        invariant WalkSoFar(StrictLicenseSeq, cs, i, start, [], data)
      {
        ok := ParseChildAt(cs, i, start);
        if !ok {
          return;
        }
        i := i + 1;
      }
      WalkEnd(StrictLicenseSeq, cs, start, [], data);
      ok := true;
    }

    /** Child i of the walk, parsed into this item. */
    method ParseChildAt(cs: seq<Json>, i: nat, ghost start: LicenseData) returns (ok: bool)
      requires i < |cs| && WalkSoFar(StrictLicenseSeq, cs, i, start, [], data)
      modifies this
      decreases cs, 0
      ensures ok ==> WalkSoFar(StrictLicenseSeq, cs, i + 1, start, [], data)
      ensures !ok ==> StrictLicenseSeq(cs, start) == Fail(data)
    {
      StrictLicenseSeqStep(cs, i, data);
      WalkStep(StrictLicenseSeq, StrictLicense, cs, i, start, [], data);
      ok := Parse(cs[i]);
    }
  }

  // ---------------------------------------------------------------------
  // IGeometry

  class GeometryRecord {
    /** The members of IGeometry, held as one record; the meshes and the proxy are never read. */
    var data: GeometryData

    constructor ()
      ensures data == DEFAULT_GEOMETRY
    {
      data := DEFAULT_GEOMETRY;
    }

    method Parse(j: Json) returns (ok: bool)
      modifies this
      decreases j
      ensures var r := StrictGeometry(j, old(data)); ok == r.ok && data == r.value
    {
      ok := false;
      if IsContainer(j) {
        if j.name.None? {
          ok := ParseChildren(Children(j));
        } else if HasName(j, "license") {
          var license := new LicenseRecord.Of(data.license);
          ok := license.Parse(j);
          data := data.(license := license.data);
        } else if HasName(j, "offset") {
          var index := 0;
          var v;
          ok, v, index := ParseVector(j, data.offset, index);
          data := data.(offset := v);
        }
      } else if j.value.String? {
        ok := true;
        if HasName(j, "name") {
          data := data.(name := j.value.s);
        } else if HasName(j, "uuid") {
          data := data.(uuid := j.value.s);
        } else if HasName(j, "material") {
          data := data.(material := j.value.s);
        } else {
          ok := false;
        }
      } else if IsNumber(j) {
        if HasName(j, "scale") {
          data := data.(scale := NumberValue(j));
          ok := true;
        }
      } else if j.value.Bool? {
        ok := true;
        if HasName(j, "issubdivided") {
          data := data.(isSubdivided := j.value.b);
        } else if HasName(j, "human") {
          data := data.(isHuman := j.value.b);
        } else {
          ok := false;
        }
      }
    }

    /** The children of an unnamed container, parsed into this geometry in order until one fails. */
    method ParseChildren(cs: seq<Json>) returns (ok: bool)
      modifies this
      decreases cs, 1
      ensures var r := StrictGeometrySeq(cs, old(data)); ok == r.ok && data == r.value
    {
      ghost var start := data;
      WalkStart(StrictGeometrySeq, cs, data);
      var i := 0;
      while i < |cs|
        invariant i <= |cs|
        invariant WalkSoFar(StrictGeometrySeq, cs, i, start, [], data)
      {
        ok := ParseChildAt(cs, i, start);
        if !ok {
          return;
        }
        i := i + 1;
      }
      WalkEnd(StrictGeometrySeq, cs, start, [], data);
      ok := true;
    }

    /** Child i of the walk, parsed into this item. */
    method ParseChildAt(cs: seq<Json>, i: nat, ghost start: GeometryData) returns (ok: bool)
      requires i < |cs| && WalkSoFar(StrictGeometrySeq, cs, i, start, [], data)
      modifies this
      decreases cs, 0
      ensures ok ==> WalkSoFar(StrictGeometrySeq, cs, i + 1, start, [], data)
      ensures !ok ==> StrictGeometrySeq(cs, start) == Fail(data)
    {
      StrictGeometrySeqStep(cs, i, data);
      WalkStep(StrictGeometrySeq, StrictGeometry, cs, i, start, [], data);
      ok := Parse(cs[i]);
    }
  }

  // ---------------------------------------------------------------------
  // IModel

  class ModelRecord {
    /** The members of IModel, its embedded skeleton included, held as one record. */
    var data: ModelData

    constructor ()
      ensures data == DEFAULT_MODEL
    {
      data := DEFAULT_MODEL;
    }

    method Parse(j: Json) returns (ok: bool)
      modifies this
      decreases j
      ensures var r := StrictModel(j, old(data)); ok == r.ok && data == r.value
    {
      ok := false;
      if IsContainer(j) {
        if HasName(j, "skeleton") {
          var skeleton := new SkeletonRecord.Of(data.skeleton);
          ok := skeleton.Parse(j);
          data := data.(skeleton := skeleton.data);
        } else if HasName(j, "materials") {
          ok := ParseMaterials(Children(j));
        } else if HasName(j, "geometries") {
          ok := ParseGeometries(Children(j));
        } else {
          ok := ParseChildren(Children(j));
        }
      } else if j.value.String? {
        if HasName(j, "mhx2_version") {
          data := data.(version := j.value.s);
          ok := true;
        }
      }
    }

    /** The children of an unnamed or unknown container, parsed into this model in order until one fails. */
    method ParseChildren(cs: seq<Json>) returns (ok: bool)
      modifies this
      decreases cs, 1
      ensures var r := StrictModelSeq(cs, old(data)); ok == r.ok && data == r.value
    {
      ghost var start := data;
      WalkStart(StrictModelSeq, cs, data);
      var i := 0;
      while i < |cs|
        invariant i <= |cs|
        invariant WalkSoFar(StrictModelSeq, cs, i, start, [], data)
      {
        ok := ParseChildAt(cs, i, start);
        if !ok {
          return;
        }
        i := i + 1;
      }
      WalkEnd(StrictModelSeq, cs, start, [], data);
      ok := true;
    }

    /** Child i of the walk, parsed into this item. */
    method ParseChildAt(cs: seq<Json>, i: nat, ghost start: ModelData) returns (ok: bool)
      requires i < |cs| && WalkSoFar(StrictModelSeq, cs, i, start, [], data)
      modifies this
      decreases cs, 0
      ensures ok ==> WalkSoFar(StrictModelSeq, cs, i + 1, start, [], data)
      ensures !ok ==> StrictModelSeq(cs, start) == Fail(data)
    {
      StrictModelSeqStep(cs, i, data);
      WalkStep(StrictModelSeq, StrictModel, cs, i, start, [], data);
      ok := Parse(cs[i]);
    }

    /** The "materials" list: a fresh material per child, appended once it parsed. */
    method ParseMaterials(cs: seq<Json>) returns (ok: bool)
      modifies this
      ensures var l := ParseList(cs, StrictMaterialElement); ok == l.ok && data == old(data).(materials := old(data).materials + l.value)
    {
      var items := [];
      ListStart(cs, StrictMaterialElement);
      var i := 0;
      ok := true;
      while i < |cs|
        invariant i <= |cs| && ok
        invariant data == old(data)
        invariant ListSoFar(cs, i, StrictMaterialElement, items, [])
      {
        var item;
        ok, item := MaterialAt(cs, i, items);
        if !ok {
          break;
        }
        items := items + [item];
        i := i + 1;
      }
      if ok {
        ListEnd(cs, StrictMaterialElement, items, []);
      }
      data := data.(materials := data.materials + items);
    }

    /** The "geometries" list: a fresh geometry per child, appended once it parsed. */
    method ParseGeometries(cs: seq<Json>) returns (ok: bool)
      modifies this
      ensures var l := ParseList(cs, StrictGeometryElement); ok == l.ok && data == old(data).(geometries := old(data).geometries + l.value)
    {
      var items := [];
      ListStart(cs, StrictGeometryElement);
      var i := 0;
      ok := true;
      while i < |cs|
        invariant i <= |cs| && ok
        invariant data == old(data)
        invariant ListSoFar(cs, i, StrictGeometryElement, items, [])
      {
        var item;
        ok, item := GeometryAt(cs, i, items);
        if !ok {
          break;
        }
        items := items + [item];
        i := i + 1;
      }
      if ok {
        ListEnd(cs, StrictGeometryElement, items, []);
      }
      data := data.(geometries := data.geometries + items);
    }
  }

  /** The child of index i of a list, read into a fresh bone. */
  method BoneAt(cs: seq<Json>, i: nat, ghost got: seq<BoneData>) returns (ok: bool, item: BoneData)
    requires i < |cs| && ListSoFar(cs, i, StrictBoneElement, got, [])
    ensures ok ==> ListSoFar(cs, i + 1, StrictBoneElement, got + [item], [])
    ensures !ok ==> ParseList(cs, StrictBoneElement) == Fail(got)
  {
    ListStep(cs, i, StrictBoneElement, got, []);
    var child := new BoneRecord();
    ok := child.Parse(cs[i]);
    item := child.data;
  }

  /** The child of index i of a list, read into a fresh material. */
  method MaterialAt(cs: seq<Json>, i: nat, ghost got: seq<MaterialData>) returns (ok: bool, item: MaterialData)
    requires i < |cs| && ListSoFar(cs, i, StrictMaterialElement, got, [])
    ensures ok ==> ListSoFar(cs, i + 1, StrictMaterialElement, got + [item], [])
    ensures !ok ==> ParseList(cs, StrictMaterialElement) == Fail(got)
  {
    ListStep(cs, i, StrictMaterialElement, got, []);
    var child := new MaterialRecord();
    ok := child.Parse(cs[i]);
    item := child.data;
  }

  /** The child of index i of a list, read into a fresh geometry. */
  method GeometryAt(cs: seq<Json>, i: nat, ghost got: seq<GeometryData>) returns (ok: bool, item: GeometryData)
    requires i < |cs| && ListSoFar(cs, i, StrictGeometryElement, got, [])
    ensures ok ==> ListSoFar(cs, i + 1, StrictGeometryElement, got + [item], [])
    ensures !ok ==> ParseList(cs, StrictGeometryElement) == Fail(got)
  {
    ListStep(cs, i, StrictGeometryElement, got, []);
    var child := new GeometryRecord();
    ok := child.Parse(cs[i]);
    item := child.data;
  }

  // ---------------------------------------------------------------------
  // MHX2Reader

  class Reader {
    /** The model of the last Read, or null. */
    var model: ModelRecord?

    constructor ()
      ensures model == null
    {
      model := null;
    }

    /**
     * MHX2Reader::Read after json_parse (None when the text does not
     * parse): drops the previous model; a root that is not an object fails
     * with no model; otherwise a fresh model is assigned before it is
     * parsed, so a failed parse leaves it holding what was read up to the
     * failure.
     */
    method Read(root: Option<Json>) returns (ok: bool)
      modifies this
      ensures root.None? || !root.value.value.Object? ==> !ok && model == null
      ensures root.Some? && root.value.value.Object? ==>
        && model != null && fresh(model)
        && var r := StrictModel(root.value, DEFAULT_MODEL);
        && ok == r.ok && model.data == r.value
    {
      model := null;
      if root.None? || !root.value.value.Object? {
        return false;
      }
      model := new ModelRecord();
      ok := model.Parse(root.value);
    }
  }
}
