/**
 * The lenient loader's items as objects (MHX2Model::IItem and its
 * subclasses): each Parse writes the fields of its item in place, appends to
 * the shared logger and, for lists, pushes a copy of each fresh child item
 * once that child has parsed. Every method is proved against the matching
 * function of ModelSpec.
 */
module ModelItems {
  import opened Wrappers
  import opened Json
  import opened Logging
  import opened Math3D
  import opened ParseCore
  import opened ModelSpec

  // ---------------------------------------------------------------------
  // IItem: the slot and matrix readers with their by-reference counters

  /**
   * The reader behind ParseVector, ParseColor and IUVCoordItem::Parse: the
   * slots and the index are passed in and handed back, as the source passes
   * them by reference.
   */
  method ReadSlots(j: Json, slots: seq<real>, index: nat, msgs: SlotMessages, logger: Logger)
    returns (ok: bool, filled: seq<real>, next: nat)
    modifies logger
    decreases j
    ensures var r := ParseSlots(j, slots, index, msgs);
      ok == r.ok && filled == r.slots && next == r.index && logger.lines == old(logger.lines) + r.log
  {
    filled, next := slots, index;
    if index >= |slots| {
      logger.LogJsonValue(Some(j), msgs.outOfBounds, index);
      return false, filled, next;
    }
    if IsContainer(j) {
      var cs := Children(j);
      var i := 0;
      assert cs[i..] == cs;
      while i < |cs|
        invariant 0 <= i <= |cs|
        invariant logger.lines == old(logger.lines)
        invariant ParseSlots(j, slots, index, msgs) == ParseSlotsSeq(cs[i..], filled, next, msgs)
      {
        assert cs[i..][0] == cs[i] && cs[i..][1..] == cs[i + 1..];
        ok, filled, next := ReadSlots(cs[i], filled, next, msgs, logger);
        if !ok {
          return;
        }
        i := i + 1;
      }
      assert cs[i..] == [];
      return true, filled, next;
    } else if IsNumber(j) {
      return true, slots[index := NumberValue(j)], index + 1;
    }
    logger.LogJson(Some(j), msgs.unknownType);
    return false, filled, next;
  }

  /** IItem::ParseVector. */
  method ParseVector(j: Json, v: Vector3, index: nat, logger: Logger) returns (ok: bool, filled: Vector3, next: nat)
    modifies logger
    ensures var r := ParseSlots(j, v, index, VECTOR_MESSAGES);
      ok == r.ok && filled == r.slots && next == r.index && logger.lines == old(logger.lines) + r.log
  {
    ok, filled, next := ReadSlots(j, v, index, VECTOR_MESSAGES, logger);
  }

  /** IItem::ParseColor. */
  method ParseColor(j: Json, c: Color, index: nat, logger: Logger) returns (ok: bool, filled: Color, next: nat)
    modifies logger
    ensures var r := ParseSlots(j, c, index, COLOR_MESSAGES);
      ok == r.ok && filled == r.slots && next == r.index && logger.lines == old(logger.lines) + r.log
  {
    ok, filled, next := ReadSlots(j, c, index, COLOR_MESSAGES, logger);
  }

  /** IItem::ParseMatrix: x and y are the by-reference column and row counters. */
  method ParseMatrix(j: Json, m: Matrix4x4, x: nat, y: nat, logger: Logger)
    returns (ok: bool, filled: Matrix4x4, nextX: nat, nextY: nat)
    modifies logger
    decreases j
    ensures var r := ParseMatrixSpec(j, m, x, y);
      ok == r.ok && filled == r.matrix && nextX == r.x && nextY == r.y && logger.lines == old(logger.lines) + r.log
  {
    filled, nextX, nextY := m, x, y;
    if x >= 4 {
      logger.LogJsonValue(Some(j), "Parse matrix - x index is out of bounds", x);
      return false, filled, nextX, nextY;
    }
    if y >= 4 {
      logger.LogJsonValue(Some(j), "Parse matrix - y index is out of bounds", y);
      return false, filled, nextX, nextY;
    }
    if IsContainer(j) {
      var cs := Children(j);
      var i := 0;
      assert cs[i..] == cs;
      while i < |cs|
        invariant 0 <= i <= |cs|
        invariant logger.lines == old(logger.lines)
        invariant ParseMatrixSeq(cs, m, x, y) == ParseMatrixSeq(cs[i..], filled, nextX, nextY)
      {
        assert cs[i..][0] == cs[i] && cs[i..][1..] == cs[i + 1..];
        ok, filled, nextX, nextY := ParseMatrix(cs[i], filled, nextX, nextY, logger);
        if !ok {
          return;
        }
        i := i + 1;
      }
      assert cs[i..] == [];
      return true, filled, 0, nextY + 1;
    } else if IsNumber(j) {
      return true, SetCell(m, y, x, NumberValue(j)), x + 1, y;
    }
    logger.LogJson(Some(j), "Parse matrix - unknown type");
    return false, filled, nextX, nextY;
  }

  // ---------------------------------------------------------------------
  // IBoneItem

  class BoneItem {
    /** The members of IBoneItem, held as one record. */
    var data: BoneData

    constructor ()
      ensures data == DEFAULT_BONE
    {
      data := DEFAULT_BONE;
    }

    method Parse(j: Json, logger: Logger) returns (ok: bool)
      modifies this, logger
      decreases j
      ensures var r := ParseBone(j, old(data));
        ok == r.ok && data == r.value && logger.lines == old(logger.lines) + r.log
    {
      if IsContainer(j) {
        if j.name.None? {
          ok := ParseChildren(Children(j), logger);
        } else if HasName(j, "head") {
          var index := 0;
          var v;
          ok, v, index := ParseVector(j, data.head, index, logger);
          data := data.(head := v);
        } else if HasName(j, "tail") {
          var index := 0;
          var v;
          ok, v, index := ParseVector(j, data.tail, index, logger);
          data := data.(tail := v);
        } else if HasName(j, "matrix") {
          var x, y := 0, 0;
          var m;
          ok, m, x, y := ParseMatrix(j, data.matrix, x, y, logger);
          data := data.(matrix := m);
        } else {
          logger.LogJson(Some(j), BONE_UNKNOWN_VALUE);
          ok := true;
        }
      } else if j.value.String? {
        if HasName(j, "name") {
          data := data.(name := j.value.s);
        } else if HasName(j, "parent") {
          data := data.(parent := j.value.s);
        } else {
          logger.LogJson(Some(j), BONE_UNKNOWN_VALUE);
        }
        ok := true;
      } else if IsNumber(j) {
        if HasName(j, "roll") {
          data := data.(roll := NumberValue(j));
        } else {
          logger.LogJson(Some(j), BONE_UNKNOWN_VALUE);
        }
        ok := true;
      } else {
        logger.LogJson(Some(j), BONE_UNKNOWN_TYPE);
        ok := false;
      }
    }

    /** The children of an unnamed container, parsed into this bone in order until one fails. */
    method ParseChildren(cs: seq<Json>, logger: Logger) returns (ok: bool)
      modifies this, logger
      decreases cs, 2
      ensures var r := ParseBoneSeq(cs, old(data));
        ok == r.ok && data == r.value && logger.lines == old(logger.lines) + r.log
    {
      ghost var start := data;
      ghost var log;
      ok, log := WalkChildren(cs, logger);
      WalkOverResult(ParseBoneSeq, cs, start, ok, log, data);
    }

    /** The loop of ParseChildren; its result is kept behind WalkOver. */
    method WalkChildren(cs: seq<Json>, logger: Logger) returns (ok: bool, ghost done: seq<string>)
      modifies this, logger
      decreases cs, 1
      ensures logger.lines == old(logger.lines) + done
      ensures WalkOver(ParseBoneSeq, cs, old(data), ok, done, data)
    {
      ghost var start := data;
      done := [];
      WalkStart(ParseBoneSeq, cs, data);
      var i := 0;
      while i < |cs|
        invariant i <= |cs|
        invariant logger.lines == old(logger.lines) + done
        invariant WalkSoFar(ParseBoneSeq, cs, i, start, done, data)
      {
        ghost var log;
        ok, log := ParseChildAt(cs, i, start, done, logger);
        done := done + log;
        if !ok {
          return;
        }
        i := i + 1;
      }
      WalkEndOver(ParseBoneSeq, cs, start, done, data);
      ok := true;
    }

    /** Child i of the walk, parsed into this item. */
    method ParseChildAt(cs: seq<Json>, i: nat, ghost start: BoneData, ghost done: seq<string>, logger: Logger)
      returns (ok: bool, ghost log: seq<string>)
      requires i < |cs| && WalkSoFar(ParseBoneSeq, cs, i, start, done, data)
      modifies this, logger
      decreases cs, 0
      ensures logger.lines == old(logger.lines) + log
      ensures ok ==> WalkSoFar(ParseBoneSeq, cs, i + 1, start, done + log, data)
      ensures !ok ==> WalkOver(ParseBoneSeq, cs, start, false, done + log, data)
    {
      BoneSeqStep(cs, i, data);
      WalkStep(ParseBoneSeq, ParseBone, cs, i, start, done, data);
      log := ParseBone(cs[i], data).log;
      ok := Parse(cs[i], logger);
      if !ok {
        WalkOverOf(ParseBoneSeq, cs, start, false, done + log, data);
      }
    }
  }

  // ---------------------------------------------------------------------
  // ISkeletonItem

  class SkeletonItem {
    /** The members of ISkeletonItem, held as one record. */
    var data: SkeletonData

    constructor ()
      ensures data == DEFAULT_SKELETON
    {
      data := DEFAULT_SKELETON;
    }

    /** An item standing for a skeleton embedded in its model, with that skeleton's current members. */
    constructor Of(v: SkeletonData)
      ensures data == v
    {
      data := v;
    }

    method Parse(j: Json, logger: Logger) returns (ok: bool)
      modifies this, logger
      decreases j
      ensures var r := ParseSkeleton(j, old(data));
        ok == r.ok && data == r.value && logger.lines == old(logger.lines) + r.log
    {
      if IsContainer(j) {
        if HasName(j, "skeleton") {
          ok := ParseChildren(Children(j), logger);
        } else if HasName(j, "offset") {
          var index := 0;
          var v;
          ok, v, index := ParseVector(j, data.offset, index, logger);
          data := data.(offset := v);
        } else if HasName(j, "bones") {
          ok := ParseBones(Children(j), logger);
        } else {
          logger.LogJson(Some(j), SKELETON_UNKNOWN_VALUE);
          ok := true;
        }
      } else if j.value.String? {
        if HasName(j, "name") {
          data := data.(name := j.value.s);
        } else {
          logger.LogJson(Some(j), SKELETON_UNKNOWN_VALUE);
        }
        ok := true;
      } else if IsNumber(j) {
        if HasName(j, "scale") {
          data := data.(scale := NumberValue(j));
        } else {
          logger.LogJson(Some(j), SKELETON_UNKNOWN_VALUE);
        }
        ok := true;
      } else {
        logger.LogJson(Some(j), BONE_UNKNOWN_TYPE);
        ok := false;
      }
    }

    /** The children of the "skeleton" container, parsed into this skeleton in order until one fails. */
    method ParseChildren(cs: seq<Json>, logger: Logger) returns (ok: bool)
      modifies this, logger
      decreases cs, 2
      ensures var r := ParseSkeletonSeq(cs, old(data));
        ok == r.ok && data == r.value && logger.lines == old(logger.lines) + r.log
    {
      ghost var start := data;
      ghost var log;
      ok, log := WalkChildren(cs, logger);
      WalkOverResult(ParseSkeletonSeq, cs, start, ok, log, data);
    }

    /** The loop of ParseChildren; its result is kept behind WalkOver. */
    method WalkChildren(cs: seq<Json>, logger: Logger) returns (ok: bool, ghost done: seq<string>)
      modifies this, logger
      decreases cs, 1
      ensures logger.lines == old(logger.lines) + done
      ensures WalkOver(ParseSkeletonSeq, cs, old(data), ok, done, data)
    {
      ghost var start := data;
      done := [];
      WalkStart(ParseSkeletonSeq, cs, data);
      var i := 0;
      while i < |cs|
        invariant i <= |cs|
        invariant logger.lines == old(logger.lines) + done
        invariant WalkSoFar(ParseSkeletonSeq, cs, i, start, done, data)
      {
        ghost var log;
        ok, log := ParseChildAt(cs, i, start, done, logger);
        done := done + log;
        if !ok {
          return;
        }
        i := i + 1;
      }
      WalkEndOver(ParseSkeletonSeq, cs, start, done, data);
      ok := true;
    }

    /** Child i of the walk, parsed into this item. */
    method ParseChildAt(cs: seq<Json>, i: nat, ghost start: SkeletonData, ghost done: seq<string>, logger: Logger)
      returns (ok: bool, ghost log: seq<string>)
      requires i < |cs| && WalkSoFar(ParseSkeletonSeq, cs, i, start, done, data)
      modifies this, logger
      decreases cs, 0
      ensures logger.lines == old(logger.lines) + log
      ensures ok ==> WalkSoFar(ParseSkeletonSeq, cs, i + 1, start, done + log, data)
      ensures !ok ==> WalkOver(ParseSkeletonSeq, cs, start, false, done + log, data)
    {
      SkeletonSeqStep(cs, i, data);
      WalkStep(ParseSkeletonSeq, ParseSkeleton, cs, i, start, done, data);
      log := ParseSkeleton(cs[i], data).log;
      ok := Parse(cs[i], logger);
      if !ok {
        WalkOverOf(ParseSkeletonSeq, cs, start, false, done + log, data);
      }
    }

    /** The "bones" list: a fresh bone item per child, appended once it parsed. */
    method ParseBones(cs: seq<Json>, logger: Logger) returns (ok: bool)
      modifies this, logger
      ensures var l := ParseList(cs, BoneElement);
        ok == l.ok && data == old(data).(bones := old(data).bones + l.value) && logger.lines == old(logger.lines) + l.log
    {
      var items := [];
      ghost var done: seq<string> := [];
      ListStart(cs, BoneElement);
      var i := 0;
      ok := true;
      while i < |cs|
        invariant i <= |cs| && ok
        invariant data == old(data)
        invariant logger.lines == old(logger.lines) + done
        invariant ListSoFar(cs, i, BoneElement, items, done)
      {
        var item;
        ghost var log;
        ok, item, log := BoneAt(cs, i, items, done, logger);
        done := done + log;
        if !ok {
          break;
        }
        items := items + [item];
        i := i + 1;
      }
      if ok {
        ListEnd(cs, BoneElement, items, done);
      }
      data := data.(bones := data.bones + items);
    }
  }

  // ---------------------------------------------------------------------
  // IMaterialItem

  class MaterialItem {
    /** The members of IMaterialItem, held as one record. */
    var data: MaterialData

    /** The specular color is left at ColorF's own default, all zeros. */
    constructor ()
      ensures data == DEFAULT_MATERIAL
    {
      data := DEFAULT_MATERIAL;
    }

    method Parse(j: Json, logger: Logger) returns (ok: bool)
      modifies this, logger
      decreases j
      ensures var r := ParseMaterial(j, old(data));
        ok == r.ok && data == r.value && logger.lines == old(logger.lines) + r.log
    {
      if IsContainer(j) {
        if j.name.None? {
          ok := ParseChildren(Children(j), logger);
        } else {
          ok := ParseColorValue(j, logger);
        }
      } else if j.value.String? {
        ParseStringValue(j, j.value.s, logger);
        ok := true;
      } else if IsNumber(j) {
        ParseNumberValue(j, NumberValue(j), logger);
        ok := true;
      } else if j.value.Bool? {
        ParseFlagValue(j, j.value.b, logger);
        ok := true;
      } else {
        logger.LogJson(Some(j), MATERIAL_UNKNOWN_TYPE);
        ok := false;
      }
    }

    /** A named container: one of the four colors, or the unknown-key warning. */
    method ParseColorValue(j: Json, logger: Logger) returns (ok: bool)
      requires j.name.Some?
      modifies this, logger
      ensures var c := MaterialColor(old(data), j);
        var r := if c.Some? then c.value else Warn(old(data), j, MATERIAL_UNKNOWN_VALUE);
        ok == r.ok && data == r.value && logger.lines == old(logger.lines) + r.log
    {
      var index := 0;
      var c;
      if HasName(j, "diffuse_color") {
        ok, c, index := ParseColor(j, data.diffuse, index, logger);
        data := data.(diffuse := c);
      } else if HasName(j, "specular_color") {
        ok, c, index := ParseColor(j, data.specular, index, logger);
        data := data.(specular := c);
      } else if HasName(j, "emissive_color") {
        ok, c, index := ParseColor(j, data.emissive, index, logger);
        data := data.(emissive := c);
      } else if HasName(j, "ambient_color") {
        ok, c, index := ParseColor(j, data.ambient, index, logger);
        data := data.(ambient := c);
      } else {
        logger.LogJson(Some(j), MATERIAL_UNKNOWN_VALUE);
        ok := true;
      }
    }

    /** A string: the name or one of the two texture names, or the unknown-key warning; never fails. */
    method ParseStringValue(j: Json, s: string, logger: Logger)
      requires j.value == String(s)
      modifies this, logger
      ensures var r := KnownOrWarn(MaterialString(old(data), j, s), old(data), j, MATERIAL_UNKNOWN_VALUE);
        data == r.value && logger.lines == old(logger.lines) + r.log
    {
      if HasName(j, "name") {
        data := data.(name := s);
      } else if HasName(j, "diffuse_texture") {
        data := data.(diffuseTexture := s);
      } else if HasName(j, "normal_map_texture") {
        data := data.(normalMapTexture := s);
      } else {
        logger.LogJson(Some(j), MATERIAL_UNKNOWN_VALUE);
      }
    }

    /** An int or a float: one of the nine scalar fields, or the unknown-key warning. */
    method ParseNumberValue(j: Json, v: real, logger: Logger)
      modifies this, logger
      ensures var r := KnownOrWarn(MaterialNumber(old(data), j, v), old(data), j, MATERIAL_UNKNOWN_VALUE);
        data == r.value && logger.lines == old(logger.lines) + r.log
    {
      if HasName(j, "diffuse_map_intensity") {
        data := data.(diffuseMapIntensity := v);
      } else if HasName(j, "specular_map_intensity") {
        data := data.(specularMapIntensity := v);
      } else if HasName(j, "transparency_map_intensity") {
        data := data.(transparencyMapIntensity := v);
      } else if HasName(j, "shininess") {
        data := data.(shininess := v);
      } else if HasName(j, "opacity") {
        data := data.(opacity := v);
      } else if HasName(j, "translucency") {
        data := data.(translucency := v);
      } else if HasName(j, "sssRScale") {
        data := data.(sssRScale := v);
      } else if HasName(j, "sssGScale") {
        data := data.(sssGScale := v);
      } else if HasName(j, "sssBScale") {
        data := data.(sssBScale := v);
      } else {
        logger.LogJson(Some(j), MATERIAL_UNKNOWN_VALUE);
      }
    }

    /** A bool: one of the nine flags, or the unknown-key warning. */
    method ParseFlagValue(j: Json, b: bool, logger: Logger)
      modifies this, logger
      ensures var r := KnownOrWarn(MaterialFlag(old(data), j, b), old(data), j, MATERIAL_UNKNOWN_VALUE);
        data == r.value && logger.lines == old(logger.lines) + r.log
    {
      if HasName(j, "shadeless") {
        data := data.(shadeless := b);
      } else if HasName(j, "wireframe") {
        data := data.(wireframe := b);
      } else if HasName(j, "transparent") {
        data := data.(transparent := b);
      } else if HasName(j, "alphaToCoverage") {
        data := data.(alphaToCoverage := b);
      } else if HasName(j, "backfaceCull") {
        data := data.(backfaceCull := b);
      } else if HasName(j, "depthless") {
        data := data.(depthless := b);
      } else if HasName(j, "castShadows") {
        data := data.(castShadows := b);
      } else if HasName(j, "receiveShadows") {
        data := data.(receiveShadows := b);
      } else if HasName(j, "sssEnabled") {
        data := data.(sssEnabled := b);
      } else {
        logger.LogJson(Some(j), MATERIAL_UNKNOWN_VALUE);
      }
    }

    /** The children of an unnamed container, parsed into this material in order until one fails. */
    method ParseChildren(cs: seq<Json>, logger: Logger) returns (ok: bool)
      modifies this, logger
      decreases cs, 2
      ensures var r := ParseMaterialSeq(cs, old(data));
        ok == r.ok && data == r.value && logger.lines == old(logger.lines) + r.log
    {
      ghost var start := data;
      ghost var log;
      ok, log := WalkChildren(cs, logger);
      WalkOverResult(ParseMaterialSeq, cs, start, ok, log, data);
    }

    /** The loop of ParseChildren; its result is kept behind WalkOver. */
    method WalkChildren(cs: seq<Json>, logger: Logger) returns (ok: bool, ghost done: seq<string>)
      modifies this, logger
      decreases cs, 1
      ensures logger.lines == old(logger.lines) + done
      ensures WalkOver(ParseMaterialSeq, cs, old(data), ok, done, data)
    {
      ghost var start := data;
      done := [];
      WalkStart(ParseMaterialSeq, cs, data);
      var i := 0;
      while i < |cs|
        invariant i <= |cs|
        invariant logger.lines == old(logger.lines) + done
        invariant WalkSoFar(ParseMaterialSeq, cs, i, start, done, data)
      {
        ghost var log;
        ok, log := ParseChildAt(cs, i, start, done, logger);
        done := done + log;
        if !ok {
          return;
        }
        i := i + 1;
      }
      WalkEndOver(ParseMaterialSeq, cs, start, done, data);
      ok := true;
    }

    /** Child i of the walk, parsed into this item. */
    method ParseChildAt(cs: seq<Json>, i: nat, ghost start: MaterialData, ghost done: seq<string>, logger: Logger)
      returns (ok: bool, ghost log: seq<string>)
      requires i < |cs| && WalkSoFar(ParseMaterialSeq, cs, i, start, done, data)
      modifies this, logger
      decreases cs, 0
      ensures logger.lines == old(logger.lines) + log
      ensures ok ==> WalkSoFar(ParseMaterialSeq, cs, i + 1, start, done + log, data)
      ensures !ok ==> WalkOver(ParseMaterialSeq, cs, start, false, done + log, data)
    {
      MaterialSeqStep(cs, i, data);
      WalkStep(ParseMaterialSeq, ParseMaterial, cs, i, start, done, data);
      log := ParseMaterial(cs[i], data).log;
      ok := Parse(cs[i], logger);
      if !ok {
        WalkOverOf(ParseMaterialSeq, cs, start, false, done + log, data);
      }
    }
  }

  // ---------------------------------------------------------------------
  // ILicenseItem

  class LicenseItem {
    /** The members of ILicenseItem, held as one record. */
    var data: LicenseData

    constructor ()
      ensures data == DEFAULT_LICENSE
    {
      data := DEFAULT_LICENSE;
    }

    /** An item standing for a license embedded in a proxy or a geometry, with that license's current members. */
    constructor Of(v: LicenseData)
      ensures data == v
    {
      data := v;
    }

    method Parse(j: Json, logger: Logger) returns (ok: bool)
      modifies this, logger
      decreases j
      ensures var r := ParseLicense(j, old(data));
        ok == r.ok && data == r.value && logger.lines == old(logger.lines) + r.log
    {
      if IsContainer(j) {
        if HasName(j, "license") {
          ok := ParseChildren(Children(j), logger);
        } else {
          logger.LogJson(Some(j), LICENSE_UNKNOWN_VALUE);
          ok := true;
        }
      } else if j.value.String? {
        if HasName(j, "author") {
          data := data.(author := j.value.s);
        } else if HasName(j, "license") {
          data := data.(license := j.value.s);
        } else if HasName(j, "homepage") {
          data := data.(homepage := j.value.s);
        } else {
          logger.LogJson(Some(j), LICENSE_UNKNOWN_VALUE);
        }
        ok := true;
      } else {
        logger.LogJson(Some(j), LICENSE_UNKNOWN_TYPE);
        ok := false;
      }
    }

    /** The children of the "license" container, parsed into this license in order until one fails. */
    method ParseChildren(cs: seq<Json>, logger: Logger) returns (ok: bool)
      modifies this, logger
      decreases cs, 2
      ensures var r := ParseLicenseSeq(cs, old(data));
        ok == r.ok && data == r.value && logger.lines == old(logger.lines) + r.log
    {
      ghost var start := data;
      ghost var log;
      ok, log := WalkChildren(cs, logger);
      WalkOverResult(ParseLicenseSeq, cs, start, ok, log, data);
    }

    /** The loop of ParseChildren; its result is kept behind WalkOver. */
    method WalkChildren(cs: seq<Json>, logger: Logger) returns (ok: bool, ghost done: seq<string>)
      modifies this, logger
      decreases cs, 1
      ensures logger.lines == old(logger.lines) + done
      ensures WalkOver(ParseLicenseSeq, cs, old(data), ok, done, data)
    {
      ghost var start := data;
      done := [];
      WalkStart(ParseLicenseSeq, cs, data);
      var i := 0;
      while i < |cs|
        invariant i <= |cs|
        invariant logger.lines == old(logger.lines) + done
        invariant WalkSoFar(ParseLicenseSeq, cs, i, start, done, data)
      {
        ghost var log;
        ok, log := ParseChildAt(cs, i, start, done, logger);
        done := done + log;
        if !ok {
          return;
        }
        i := i + 1;
      }
      WalkEndOver(ParseLicenseSeq, cs, start, done, data);
      ok := true;
    }

    /** Child i of the walk, parsed into this item. */
    method ParseChildAt(cs: seq<Json>, i: nat, ghost start: LicenseData, ghost done: seq<string>, logger: Logger)
      returns (ok: bool, ghost log: seq<string>)
      requires i < |cs| && WalkSoFar(ParseLicenseSeq, cs, i, start, done, data)
      modifies this, logger
      decreases cs, 0
      ensures logger.lines == old(logger.lines) + log
      ensures ok ==> WalkSoFar(ParseLicenseSeq, cs, i + 1, start, done + log, data)
      ensures !ok ==> WalkOver(ParseLicenseSeq, cs, start, false, done + log, data)
    {
      LicenseSeqStep(cs, i, data);
      WalkStep(ParseLicenseSeq, ParseLicense, cs, i, start, done, data);
      log := ParseLicense(cs[i], data).log;
      ok := Parse(cs[i], logger);
      if !ok {
        WalkOverOf(ParseLicenseSeq, cs, start, false, done + log, data);
      }
    }
  }

  // ---------------------------------------------------------------------
  // IFaceItem

  class FaceItem {
    /** m_Values: the vertex (or UV) indices of the face. */
    var data: seq<nat>

    constructor ()
      ensures data == []
    {
      data := [];
    }

    method Parse(j: Json, logger: Logger) returns (ok: bool)
      modifies this, logger
      decreases j
      ensures var r := ParseFace(j, old(data));
        ok == r.ok && data == r.value && logger.lines == old(logger.lines) + r.log
    {
      if IsContainer(j) {
        ok := ParseChildren(Children(j), logger);
      } else if IsNumber(j) {
        data := data + [FloatToSizeT(NumberValue(j))];
        ok := true;
      } else {
        logger.LogJson(Some(j), FACE_UNKNOWN_TYPE);
        ok := false;
      }
    }

    /** The children of a container, parsed into this face in order until one fails. */
    method ParseChildren(cs: seq<Json>, logger: Logger) returns (ok: bool)
      modifies this, logger
      decreases cs, 2
      ensures var r := ParseFaceSeq(cs, old(data));
        ok == r.ok && data == r.value && logger.lines == old(logger.lines) + r.log
    {
      ghost var start := data;
      ghost var log;
      ok, log := WalkChildren(cs, logger);
      WalkOverResult(ParseFaceSeq, cs, start, ok, log, data);
    }

    /** The loop of ParseChildren; its result is kept behind WalkOver. */
    method WalkChildren(cs: seq<Json>, logger: Logger) returns (ok: bool, ghost done: seq<string>)
      modifies this, logger
      decreases cs, 1
      ensures logger.lines == old(logger.lines) + done
      ensures WalkOver(ParseFaceSeq, cs, old(data), ok, done, data)
    {
      ghost var start := data;
      done := [];
      WalkStart(ParseFaceSeq, cs, data);
      var i := 0;
      while i < |cs|
        invariant i <= |cs|
        invariant logger.lines == old(logger.lines) + done
        invariant WalkSoFar(ParseFaceSeq, cs, i, start, done, data)
      {
        ghost var log;
        ok, log := ParseChildAt(cs, i, start, done, logger);
        done := done + log;
        if !ok {
          return;
        }
        i := i + 1;
      }
      WalkEndOver(ParseFaceSeq, cs, start, done, data);
      ok := true;
    }

    /** Child i of the walk, parsed into this item. */
    method ParseChildAt(cs: seq<Json>, i: nat, ghost start: seq<nat>, ghost done: seq<string>, logger: Logger)
      returns (ok: bool, ghost log: seq<string>)
      requires i < |cs| && WalkSoFar(ParseFaceSeq, cs, i, start, done, data)
      modifies this, logger
      decreases cs, 0
      ensures logger.lines == old(logger.lines) + log
      ensures ok ==> WalkSoFar(ParseFaceSeq, cs, i + 1, start, done + log, data)
      ensures !ok ==> WalkOver(ParseFaceSeq, cs, start, false, done + log, data)
    {
      FaceSeqStep(cs, i, data);
      WalkStep(ParseFaceSeq, ParseFace, cs, i, start, done, data);
      log := ParseFace(cs[i], data).log;
      ok := Parse(cs[i], logger);
      if !ok {
        WalkOverOf(ParseFaceSeq, cs, start, false, done + log, data);
      }
    }
  }

  // ---------------------------------------------------------------------
  // IUVCoordItem

  class UVCoordItem {
    /** The members of IUVCoordItem (the coordinate and its slot counter), held as one record. */
    var data: UVCoordData

    constructor ()
      ensures data == DEFAULT_UV
    {
      data := DEFAULT_UV;
    }

    /** The slot reader over X and Y, with the member counter as its index. */
    method Parse(j: Json, logger: Logger) returns (ok: bool)
      modifies this, logger
      ensures var r := ParseUVCoord(j, old(data));
        ok == r.ok && data == r.value && logger.lines == old(logger.lines) + r.log
    {
      var value, index;
      ok, value, index := ReadSlots(j, data.value, data.internalIndex, UV_MESSAGES, logger);
      data := UVCoordData(value, index);
    }
  }

  // ---------------------------------------------------------------------
  // IWeightItem

  class WeightItem {
    /** The members of IWeightItem (vertex index, slot counter, weight), held as one record. */
    var data: WeightData

    constructor ()
      ensures data == DEFAULT_WEIGHT
    {
      data := DEFAULT_WEIGHT;
    }

    method Parse(j: Json, logger: Logger) returns (ok: bool)
      modifies this, logger
      decreases j
      ensures var r := ParseWeight(j, old(data));
        ok == r.ok && data == r.value && logger.lines == old(logger.lines) + r.log
    {
      if IsContainer(j) {
        ok := ParseChildren(Children(j), logger);
      } else if IsNumber(j) {
        if data.internalIndex == 0 {
          var index := if j.value.Int? then IntToSizeT(j.value.i) else FloatToSizeT(j.value.f);
          data := data.(index := index);
        } else if data.internalIndex == 1 {
          data := data.(value := NumberValue(j));
        } else {
          logger.LogJsonValue(Some(j), "Parse weight - index is out of bounds", data.internalIndex);
          return false;
        }
        data := data.(internalIndex := data.internalIndex + 1);
        ok := true;
      } else {
        logger.LogJson(Some(j), WEIGHT_UNKNOWN_TYPE);
        ok := false;
      }
    }

    /** The children of a container, parsed into this weight in order until one fails. */
    method ParseChildren(cs: seq<Json>, logger: Logger) returns (ok: bool)
      modifies this, logger
      decreases cs, 2
      ensures var r := ParseWeightSeq(cs, old(data));
        ok == r.ok && data == r.value && logger.lines == old(logger.lines) + r.log
    {
      ghost var start := data;
      ghost var log;
      ok, log := WalkChildren(cs, logger);
      WalkOverResult(ParseWeightSeq, cs, start, ok, log, data);
    }

    /** The loop of ParseChildren; its result is kept behind WalkOver. */
    method WalkChildren(cs: seq<Json>, logger: Logger) returns (ok: bool, ghost done: seq<string>)
      modifies this, logger
      decreases cs, 1
      ensures logger.lines == old(logger.lines) + done
      ensures WalkOver(ParseWeightSeq, cs, old(data), ok, done, data)
    {
      ghost var start := data;
      done := [];
      WalkStart(ParseWeightSeq, cs, data);
      var i := 0;
      while i < |cs|
        invariant i <= |cs|
        invariant logger.lines == old(logger.lines) + done
        invariant WalkSoFar(ParseWeightSeq, cs, i, start, done, data)
      {
        ghost var log;
        ok, log := ParseChildAt(cs, i, start, done, logger);
        done := done + log;
        if !ok {
          return;
        }
        i := i + 1;
      }
      WalkEndOver(ParseWeightSeq, cs, start, done, data);
      ok := true;
    }

    /** Child i of the walk, parsed into this item. */
    method ParseChildAt(cs: seq<Json>, i: nat, ghost start: WeightData, ghost done: seq<string>, logger: Logger)
      returns (ok: bool, ghost log: seq<string>)
      requires i < |cs| && WalkSoFar(ParseWeightSeq, cs, i, start, done, data)
      modifies this, logger
      decreases cs, 0
      ensures logger.lines == old(logger.lines) + log
      ensures ok ==> WalkSoFar(ParseWeightSeq, cs, i + 1, start, done + log, data)
      ensures !ok ==> WalkOver(ParseWeightSeq, cs, start, false, done + log, data)
    {
      WeightSeqStep(cs, i, data);
      WalkStep(ParseWeightSeq, ParseWeight, cs, i, start, done, data);
      log := ParseWeight(cs[i], data).log;
      ok := Parse(cs[i], logger);
      if !ok {
        WalkOverOf(ParseWeightSeq, cs, start, false, done + log, data);
      }
    }
  }

  // ---------------------------------------------------------------------
  // IWeightGroupItem

  class WeightGroupItem {
    /** The members of IWeightGroupItem (the group's key and its weights), held as one record. */
    var data: WeightGroupData

    constructor ()
      ensures data == DEFAULT_WEIGHT_GROUP
    {
      data := DEFAULT_WEIGHT_GROUP;
    }

    method Parse(j: Json, logger: Logger) returns (ok: bool)
      modifies this, logger
      ensures var r := ParseWeightGroup(j, old(data));
        ok == r.ok && data == r.value && logger.lines == old(logger.lines) + r.log
    {
      if IsContainer(j) {
        if j.name.Some? {
          data := data.(key := j.name.value);
        }
        ok := ParseWeights(Children(j), logger);
      } else {
        logger.LogJson(Some(j), FACE_UNKNOWN_TYPE);
        ok := false;
      }
    }

    /** A fresh weight item per child, appended once it parsed. */
    method ParseWeights(cs: seq<Json>, logger: Logger) returns (ok: bool)
      modifies this, logger
      ensures var l := ParseList(cs, WeightElement);
        ok == l.ok && data == old(data).(weights := old(data).weights + l.value) && logger.lines == old(logger.lines) + l.log
    {
      var items := [];
      ghost var done: seq<string> := [];
      ListStart(cs, WeightElement);
      var i := 0;
      ok := true;
      while i < |cs|
        invariant i <= |cs| && ok
        invariant data == old(data)
        invariant logger.lines == old(logger.lines) + done
        invariant ListSoFar(cs, i, WeightElement, items, done)
      {
        var item;
        ghost var log;
        ok, item, log := WeightAt(cs, i, items, done, logger);
        done := done + log;
        if !ok {
          break;
        }
        items := items + [item];
        i := i + 1;
      }
      if ok {
        ListEnd(cs, WeightElement, items, done);
      }
      data := data.(weights := data.weights + items);
    }
  }

  // ---------------------------------------------------------------------
  // IFitItem

  class FitItem {
    /** m_Values: the fitted vectors. */
    var data: seq<Vector3>

    constructor ()
      ensures data == []
    {
      data := [];
    }

    method Parse(j: Json, logger: Logger) returns (ok: bool)
      modifies this, logger
      ensures var r := ParseFit(j, old(data));
        ok == r.ok && data == r.value && logger.lines == old(logger.lines) + r.log
    {
      if IsContainer(j) {
        ok := ParseValues(Children(j), logger);
      } else {
        logger.LogJson(Some(j), "Parse proxy - unknown type");
        ok := false;
      }
    }

    /** A fresh vector per child, read from index 0 and appended once it parsed. */
    method ParseValues(cs: seq<Json>, logger: Logger) returns (ok: bool)
      modifies this, logger
      ensures var l := ParseList(cs, VertexElement);
        ok == l.ok && data == old(data) + l.value && logger.lines == old(logger.lines) + l.log
    {
      var items := [];
      ghost var done: seq<string> := [];
      ListStart(cs, VertexElement);
      var i := 0;
      ok := true;
      while i < |cs|
        invariant i <= |cs| && ok
        invariant data == old(data)
        invariant logger.lines == old(logger.lines) + done
        invariant ListSoFar(cs, i, VertexElement, items, done)
      {
        var item;
        ghost var log;
        ok, item, log := VertexAt(cs, i, items, done, logger);
        done := done + log;
        if !ok {
          break;
        }
        items := items + [item];
        i := i + 1;
      }
      if ok {
        ListEnd(cs, VertexElement, items, done);
      }
      data := data + items;
    }
  }

  // ---------------------------------------------------------------------
  // IMeshItem

  class MeshItem {
    /** The members of IMeshItem, held as one record. */
    var data: MeshData

    constructor ()
      ensures data == DEFAULT_MESH
    {
      data := DEFAULT_MESH;
    }

    /** An item standing for a mesh embedded in its geometry, with that mesh's current members. */
    constructor Of(v: MeshData)
      ensures data == v
    {
      data := v;
    }

    method Parse(j: Json, logger: Logger) returns (ok: bool)
      modifies this, logger
      decreases j
      ensures var r := ParseMesh(j, old(data));
        ok == r.ok && data == r.value && logger.lines == old(logger.lines) + r.log
    {
      if IsContainer(j) {
        if HasName(j, "mesh") || HasName(j, "seed_mesh") || HasName(j, "proxy_seed_mesh") {
          ok := ParseChildren(Children(j), logger);
        } else if HasName(j, "vertices") {
          ok := ParseVertices(Children(j), logger);
        } else if HasName(j, "faces") {
          ok := ParseFaces(Children(j), logger);
        } else if HasName(j, "uv_coordinates") {
          ok := ParseUVCoords(Children(j), logger);
        } else if HasName(j, "uv_faces") {
          ok := ParseUVFaces(Children(j), logger);
        } else if HasName(j, "weights") {
          ok := ParseWeightGroups(Children(j), logger);
        } else {
          logger.LogJson(Some(j), MESH_UNKNOWN_VALUE);
          ok := true;
        }
      } else {
        logger.LogJson(Some(j), MESH_UNKNOWN_TYPE);
        ok := false;
      }
    }

    /** The children of a "mesh", "seed_mesh" or "proxy_seed_mesh" container, parsed in order until one fails. */
    method ParseChildren(cs: seq<Json>, logger: Logger) returns (ok: bool)
      modifies this, logger
      decreases cs, 2
      ensures var r := ParseMeshSeq(cs, old(data));
        ok == r.ok && data == r.value && logger.lines == old(logger.lines) + r.log
    {
      ghost var start := data;
      ghost var log;
      ok, log := WalkChildren(cs, logger);
      WalkOverResult(ParseMeshSeq, cs, start, ok, log, data);
    }

    /** The loop of ParseChildren; its result is kept behind WalkOver. */
    method WalkChildren(cs: seq<Json>, logger: Logger) returns (ok: bool, ghost done: seq<string>)
      modifies this, logger
      decreases cs, 1
      ensures logger.lines == old(logger.lines) + done
      ensures WalkOver(ParseMeshSeq, cs, old(data), ok, done, data)
    {
      ghost var start := data;
      done := [];
      WalkStart(ParseMeshSeq, cs, data);
      var i := 0;
      while i < |cs|
        invariant i <= |cs|
        invariant logger.lines == old(logger.lines) + done
        invariant WalkSoFar(ParseMeshSeq, cs, i, start, done, data)
      {
        ghost var log;
        ok, log := ParseChildAt(cs, i, start, done, logger);
        done := done + log;
        if !ok {
          return;
        }
        i := i + 1;
      }
      WalkEndOver(ParseMeshSeq, cs, start, done, data);
      ok := true;
    }

    /** Child i of the walk, parsed into this item. */
    method ParseChildAt(cs: seq<Json>, i: nat, ghost start: MeshData, ghost done: seq<string>, logger: Logger)
      returns (ok: bool, ghost log: seq<string>)
      requires i < |cs| && WalkSoFar(ParseMeshSeq, cs, i, start, done, data)
      modifies this, logger
      decreases cs, 0
      ensures logger.lines == old(logger.lines) + log
      ensures ok ==> WalkSoFar(ParseMeshSeq, cs, i + 1, start, done + log, data)
      ensures !ok ==> WalkOver(ParseMeshSeq, cs, start, false, done + log, data)
    {
      MeshSeqStep(cs, i, data);
      WalkStep(ParseMeshSeq, ParseMesh, cs, i, start, done, data);
      log := ParseMesh(cs[i], data).log;
      ok := Parse(cs[i], logger);
      if !ok {
        WalkOverOf(ParseMeshSeq, cs, start, false, done + log, data);
      }
    }

    /** The "vertices" list: a fresh vector per child, read from index 0. */
    method ParseVertices(cs: seq<Json>, logger: Logger) returns (ok: bool)
      modifies this, logger
      ensures var l := ParseList(cs, VertexElement);
        ok == l.ok && data == old(data).(vertices := old(data).vertices + l.value) && logger.lines == old(logger.lines) + l.log
    {
      var items := [];
      ghost var done: seq<string> := [];
      ListStart(cs, VertexElement);
      var i := 0;
      ok := true;
      while i < |cs|
        invariant i <= |cs| && ok
        invariant data == old(data)
        invariant logger.lines == old(logger.lines) + done
        invariant ListSoFar(cs, i, VertexElement, items, done)
      {
        var item;
        ghost var log;
        ok, item, log := VertexAt(cs, i, items, done, logger);
        done := done + log;
        if !ok {
          break;
        }
        items := items + [item];
        i := i + 1;
      }
      if ok {
        ListEnd(cs, VertexElement, items, done);
      }
      data := data.(vertices := data.vertices + items);
    }

    /** The "faces" list: a fresh face item per child. */
    method ParseFaces(cs: seq<Json>, logger: Logger) returns (ok: bool)
      modifies this, logger
      ensures var l := ParseList(cs, FaceElement);
        ok == l.ok && data == old(data).(faces := old(data).faces + l.value) && logger.lines == old(logger.lines) + l.log
    {
      var items := [];
      ghost var done: seq<string> := [];
      ListStart(cs, FaceElement);
      var i := 0;
      ok := true;
      while i < |cs|
        invariant i <= |cs| && ok
        invariant data == old(data)
        invariant logger.lines == old(logger.lines) + done
        invariant ListSoFar(cs, i, FaceElement, items, done)
      {
        var item;
        ghost var log;
        ok, item, log := FaceAt(cs, i, items, done, logger);
        done := done + log;
        if !ok {
          break;
        }
        items := items + [item];
        i := i + 1;
      }
      if ok {
        ListEnd(cs, FaceElement, items, done);
      }
      data := data.(faces := data.faces + items);
    }

    /** The "uv_coordinates" list: a fresh UV coordinate item per child. */
    method ParseUVCoords(cs: seq<Json>, logger: Logger) returns (ok: bool)
      modifies this, logger
      ensures var l := ParseList(cs, UVCoordElement);
        ok == l.ok && data == old(data).(uvCoords := old(data).uvCoords + l.value) && logger.lines == old(logger.lines) + l.log
    {
      var items := [];
      ghost var done: seq<string> := [];
      ListStart(cs, UVCoordElement);
      var i := 0;
      ok := true;
      while i < |cs|
        invariant i <= |cs| && ok
        invariant data == old(data)
        invariant logger.lines == old(logger.lines) + done
        invariant ListSoFar(cs, i, UVCoordElement, items, done)
      {
        var item;
        ghost var log;
        ok, item, log := UVCoordAt(cs, i, items, done, logger);
        done := done + log;
        if !ok {
          break;
        }
        items := items + [item];
        i := i + 1;
      }
      if ok {
        ListEnd(cs, UVCoordElement, items, done);
      }
      data := data.(uvCoords := data.uvCoords + items);
    }

    /** The "uv_faces" list: a fresh face item per child. */
    method ParseUVFaces(cs: seq<Json>, logger: Logger) returns (ok: bool)
      modifies this, logger
      ensures var l := ParseList(cs, FaceElement);
        ok == l.ok && data == old(data).(uvFaces := old(data).uvFaces + l.value) && logger.lines == old(logger.lines) + l.log
    {
      var items := [];
      ghost var done: seq<string> := [];
      ListStart(cs, FaceElement);
      var i := 0;
      ok := true;
      while i < |cs|
        invariant i <= |cs| && ok
        invariant data == old(data)
        invariant logger.lines == old(logger.lines) + done
        invariant ListSoFar(cs, i, FaceElement, items, done)
      {
        var item;
        ghost var log;
        ok, item, log := FaceAt(cs, i, items, done, logger);
        done := done + log;
        if !ok {
          break;
        }
        items := items + [item];
        i := i + 1;
      }
      if ok {
        ListEnd(cs, FaceElement, items, done);
      }
      data := data.(uvFaces := data.uvFaces + items);
    }

    /** The "weights" list: a fresh weight group item per child. */
    method ParseWeightGroups(cs: seq<Json>, logger: Logger) returns (ok: bool)
      modifies this, logger
      ensures var l := ParseList(cs, WeightGroupElement);
        ok == l.ok && data == old(data).(weightGroups := old(data).weightGroups + l.value) && logger.lines == old(logger.lines) + l.log
    {
      var items := [];
      ghost var done: seq<string> := [];
      ListStart(cs, WeightGroupElement);
      var i := 0;
      ok := true;
      while i < |cs|
        invariant i <= |cs| && ok
        invariant data == old(data)
        invariant logger.lines == old(logger.lines) + done
        invariant ListSoFar(cs, i, WeightGroupElement, items, done)
      {
        var item;
        ghost var log;
        ok, item, log := WeightGroupAt(cs, i, items, done, logger);
        done := done + log;
        if !ok {
          break;
        }
        items := items + [item];
        i := i + 1;
      }
      if ok {
        ListEnd(cs, WeightGroupElement, items, done);
      }
      data := data.(weightGroups := data.weightGroups + items);
    }
  }

  // ---------------------------------------------------------------------
  // IProxyItem

  class ProxyItem {
    /** The members of IProxyItem, its embedded license included, held as one record. */
    var data: ProxyData

    constructor ()
      ensures data == DEFAULT_PROXY
    {
      data := DEFAULT_PROXY;
    }

    /** An item standing for a proxy embedded in its geometry, with that proxy's current members. */
    constructor Of(v: ProxyData)
      ensures data == v
    {
      data := v;
    }

    method Parse(j: Json, logger: Logger) returns (ok: bool)
      modifies this, logger
      decreases j
      ensures var r := ParseProxy(j, old(data));
        ok == r.ok && data == r.value && logger.lines == old(logger.lines) + r.log
    {
      if IsContainer(j) {
        if HasName(j, "proxy") || HasName(j, "tags") || HasName(j, "delete_verts") {
          ok := ParseChildren(Children(j), logger);
        } else if HasName(j, "license") {
          var license;
          ok, license := ParseEmbeddedLicense(j, data.license, logger);
          data := data.(license := license);
        } else if HasName(j, "fitting") {
          ok := ParseFitting(Children(j), logger);
        } else {
          ok := ParseChildren(Children(j), logger);
          if ok {
            logger.LogJson(Some(j), PROXY_UNKNOWN_VALUE);
          }
        }
      } else if j.value.String? {
        if j.name.None? {
          data := data.(tags := data.tags + [j.value.s]);
        } else if HasName(j, "name") {
          data := data.(name := j.value.s);
        } else if HasName(j, "type") {
          data := data.(proxyType := j.value.s);
        } else if HasName(j, "uuid") {
          data := data.(uuid := j.value.s);
        } else if HasName(j, "basemesh") {
          data := data.(basemesh := j.value.s);
        } else {
          logger.LogJson(Some(j), PROXY_UNKNOWN_VALUE);
        }
        ok := true;
      } else if j.value.Bool? {
        if j.name.None? {
          data := data.(deleteVerts := data.deleteVerts + [j.value.b]);
        } else {
          logger.LogJson(Some(j), PROXY_UNKNOWN_VALUE);
        }
        ok := true;
      } else if j.value.Null? {
        if !HasName(j, "vertex_bone_weights") {
          logger.LogJson(Some(j), PROXY_UNKNOWN_VALUE);
        }
        ok := true;
      } else {
        logger.LogJson(Some(j), PROXY_UNKNOWN_TYPE);
        ok := false;
      }
    }

    /** The children of a container, parsed into this proxy in order until one fails. */
    method ParseChildren(cs: seq<Json>, logger: Logger) returns (ok: bool)
      modifies this, logger
      decreases cs, 2
      ensures var r := ParseProxySeq(cs, old(data));
        ok == r.ok && data == r.value && logger.lines == old(logger.lines) + r.log
    {
      ghost var start := data;
      ghost var log;
      ok, log := WalkChildren(cs, logger);
      WalkOverResult(ParseProxySeq, cs, start, ok, log, data);
    }

    /** The loop of ParseChildren; its result is kept behind WalkOver. */
    method WalkChildren(cs: seq<Json>, logger: Logger) returns (ok: bool, ghost done: seq<string>)
      modifies this, logger
      decreases cs, 1
      ensures logger.lines == old(logger.lines) + done
      ensures WalkOver(ParseProxySeq, cs, old(data), ok, done, data)
    {
      ghost var start := data;
      done := [];
      WalkStart(ParseProxySeq, cs, data);
      var i := 0;
      while i < |cs|
        invariant i <= |cs|
        invariant logger.lines == old(logger.lines) + done
        invariant WalkSoFar(ParseProxySeq, cs, i, start, done, data)
      {
        ghost var log;
        ok, log := ParseChildAt(cs, i, start, done, logger);
        done := done + log;
        if !ok {
          return;
        }
        i := i + 1;
      }
      WalkEndOver(ParseProxySeq, cs, start, done, data);
      ok := true;
    }

    /** Child i of the walk, parsed into this item. */
    method ParseChildAt(cs: seq<Json>, i: nat, ghost start: ProxyData, ghost done: seq<string>, logger: Logger)
      returns (ok: bool, ghost log: seq<string>)
      requires i < |cs| && WalkSoFar(ParseProxySeq, cs, i, start, done, data)
      modifies this, logger
      decreases cs, 0
      ensures logger.lines == old(logger.lines) + log
      ensures ok ==> WalkSoFar(ParseProxySeq, cs, i + 1, start, done + log, data)
      ensures !ok ==> WalkOver(ParseProxySeq, cs, start, false, done + log, data)
    {
      ProxySeqStep(cs, i, data);
      WalkStep(ParseProxySeq, ParseProxy, cs, i, start, done, data);
      log := ParseProxy(cs[i], data).log;
      ok := Parse(cs[i], logger);
      if !ok {
        WalkOverOf(ParseProxySeq, cs, start, false, done + log, data);
      }
    }

    /** The "fitting" list: a fresh fit item per child. */
    method ParseFitting(cs: seq<Json>, logger: Logger) returns (ok: bool)
      modifies this, logger
      ensures var l := ParseList(cs, FitElement);
        ok == l.ok && data == old(data).(fitting := old(data).fitting + l.value) && logger.lines == old(logger.lines) + l.log
    {
      var items := [];
      ghost var done: seq<string> := [];
      ListStart(cs, FitElement);
      var i := 0;
      ok := true;
      while i < |cs|
        invariant i <= |cs| && ok
        invariant data == old(data)
        invariant logger.lines == old(logger.lines) + done
        invariant ListSoFar(cs, i, FitElement, items, done)
      {
        var item;
        ghost var log;
        ok, item, log := FitAt(cs, i, items, done, logger);
        done := done + log;
        if !ok {
          break;
        }
        items := items + [item];
        i := i + 1;
      }
      if ok {
        ListEnd(cs, FitElement, items, done);
      }
      data := data.(fitting := data.fitting + items);
    }
  }

  // ---------------------------------------------------------------------
  // IGeometryItem

  class GeometryItem {
    /** The members of IGeometryItem, its embedded license, meshes and proxy included, held as one record. */
    var data: GeometryData

    constructor ()
      ensures data == DEFAULT_GEOMETRY
    {
      data := DEFAULT_GEOMETRY;
    }

    method Parse(j: Json, logger: Logger) returns (ok: bool)
      modifies this, logger
      decreases j
      ensures var r := ParseGeometry(j, old(data));
        ok == r.ok && data == r.value && logger.lines == old(logger.lines) + r.log
    {
      if IsContainer(j) {
        if j.name.None? {
          ok := ParseChildren(Children(j), logger);
        } else if HasName(j, "license") {
          var license;
          ok, license := ParseEmbeddedLicense(j, data.license, logger);
          data := data.(license := license);
        } else if HasName(j, "offset") {
          var index := 0;
          var v;
          ok, v, index := ParseVector(j, data.offset, index, logger);
          data := data.(offset := v);
        } else if HasName(j, "mesh") {
          var mesh;
          ok, mesh := ParseEmbeddedMesh(j, data.mesh, logger);
          data := data.(mesh := mesh);
        } else if HasName(j, "seed_mesh") {
          var mesh;
          ok, mesh := ParseEmbeddedMesh(j, data.seedMesh, logger);
          data := data.(seedMesh := mesh);
        } else if HasName(j, "proxy_seed_mesh") {
          var mesh;
          ok, mesh := ParseEmbeddedMesh(j, data.proxySeedMesh, logger);
          data := data.(proxySeedMesh := mesh);
        } else if HasName(j, "proxy") {
          var proxy;
          ok, proxy := ParseEmbeddedProxy(j, data.proxy, logger);
          data := data.(proxy := proxy);
        } else {
          logger.LogJson(Some(j), GEOMETRY_UNKNOWN_VALUE);
          ok := true;
        }
      } else if j.value.String? {
        if HasName(j, "name") {
          data := data.(name := j.value.s);
        } else if HasName(j, "uuid") {
          data := data.(uuid := j.value.s);
        } else if HasName(j, "material") {
          data := data.(material := j.value.s);
        } else {
          logger.LogJson(Some(j), GEOMETRY_UNKNOWN_VALUE);
        }
        ok := true;
      } else if IsNumber(j) {
        if HasName(j, "scale") {
          data := data.(scale := NumberValue(j));
        } else {
          logger.LogJson(Some(j), GEOMETRY_UNKNOWN_VALUE);
        }
        ok := true;
      } else if j.value.Bool? {
        if HasName(j, "issubdivided") {
          data := data.(isSubdivided := j.value.b);
        } else if HasName(j, "human") {
          data := data.(isHuman := j.value.b);
        } else {
          logger.LogJson(Some(j), GEOMETRY_UNKNOWN_VALUE);
        }
        ok := true;
      } else {
        logger.LogJson(Some(j), GEOMETRY_UNKNOWN_TYPE);
        ok := false;
      }
    }

    /** The children of an unnamed container, parsed into this geometry in order until one fails. */
    method ParseChildren(cs: seq<Json>, logger: Logger) returns (ok: bool)
      modifies this, logger
      decreases cs, 2
      ensures var r := ParseGeometrySeq(cs, old(data));
        ok == r.ok && data == r.value && logger.lines == old(logger.lines) + r.log
    {
      ghost var start := data;
      ghost var log;
      ok, log := WalkChildren(cs, logger);
      WalkOverResult(ParseGeometrySeq, cs, start, ok, log, data);
    }

    /** The loop of ParseChildren; its result is kept behind WalkOver. */
    method WalkChildren(cs: seq<Json>, logger: Logger) returns (ok: bool, ghost done: seq<string>)
      modifies this, logger
      decreases cs, 1
      ensures logger.lines == old(logger.lines) + done
      ensures WalkOver(ParseGeometrySeq, cs, old(data), ok, done, data)
    {
      ghost var start := data;
      done := [];
      WalkStart(ParseGeometrySeq, cs, data);
      var i := 0;
      while i < |cs|
        invariant i <= |cs|
        invariant logger.lines == old(logger.lines) + done
        invariant WalkSoFar(ParseGeometrySeq, cs, i, start, done, data)
      {
        ghost var log;
        ok, log := ParseChildAt(cs, i, start, done, logger);
        done := done + log;
        if !ok {
          return;
        }
        i := i + 1;
      }
      WalkEndOver(ParseGeometrySeq, cs, start, done, data);
      ok := true;
    }

    /** Child i of the walk, parsed into this item. */
    method ParseChildAt(cs: seq<Json>, i: nat, ghost start: GeometryData, ghost done: seq<string>, logger: Logger)
      returns (ok: bool, ghost log: seq<string>)
      requires i < |cs| && WalkSoFar(ParseGeometrySeq, cs, i, start, done, data)
      modifies this, logger
      decreases cs, 0
      ensures logger.lines == old(logger.lines) + log
      ensures ok ==> WalkSoFar(ParseGeometrySeq, cs, i + 1, start, done + log, data)
      ensures !ok ==> WalkOver(ParseGeometrySeq, cs, start, false, done + log, data)
    {
      GeometrySeqStep(cs, i, data);
      WalkStep(ParseGeometrySeq, ParseGeometry, cs, i, start, done, data);
      log := ParseGeometry(cs[i], data).log;
      ok := Parse(cs[i], logger);
      if !ok {
        WalkOverOf(ParseGeometrySeq, cs, start, false, done + log, data);
      }
    }
  }

  // ---------------------------------------------------------------------
  // IModelItem

  class ModelItem {
    /** The members of IModelItem, its embedded skeleton included, held as one record. */
    var data: ModelData

    constructor ()
      ensures data == DEFAULT_MODEL
    {
      data := DEFAULT_MODEL;
    }

    method Parse(j: Json, logger: Logger) returns (ok: bool)
      modifies this, logger
      decreases j
      ensures var r := ParseModel(j, old(data));
        ok == r.ok && data == r.value && logger.lines == old(logger.lines) + r.log
    {
      if IsContainer(j) {
        if HasName(j, "skeleton") {
          var skeleton;
          ok, skeleton := ParseEmbeddedSkeleton(j, data.skeleton, logger);
          data := data.(skeleton := skeleton);
        } else if HasName(j, "materials") {
          ok := ParseMaterials(Children(j), logger);
        } else if HasName(j, "geometries") {
          ok := ParseGeometries(Children(j), logger);
        } else {
          ok := ParseChildren(Children(j), logger);
        }
      } else if j.value.String? {
        if HasName(j, "mhx2_version") {
          data := data.(version := j.value.s);
        } else {
          logger.LogJson(Some(j), "Parse model - unknown value");
        }
        ok := true;
      } else {
        logger.LogJson(Some(j), "Parse model - unknown type");
        ok := false;
      }
    }

    /** The children of an unnamed or unknown container, parsed into this model in order until one fails. */
    method ParseChildren(cs: seq<Json>, logger: Logger) returns (ok: bool)
      modifies this, logger
      decreases cs, 2
      ensures var r := ParseModelSeq(cs, old(data));
        ok == r.ok && data == r.value && logger.lines == old(logger.lines) + r.log
    {
      ghost var start := data;
      ghost var log;
      ok, log := WalkChildren(cs, logger);
      WalkOverResult(ParseModelSeq, cs, start, ok, log, data);
    }

    /** The loop of ParseChildren; its result is kept behind WalkOver. */
    method WalkChildren(cs: seq<Json>, logger: Logger) returns (ok: bool, ghost done: seq<string>)
      modifies this, logger
      decreases cs, 1
      ensures logger.lines == old(logger.lines) + done
      ensures WalkOver(ParseModelSeq, cs, old(data), ok, done, data)
    {
      ghost var start := data;
      done := [];
      WalkStart(ParseModelSeq, cs, data);
      var i := 0;
      while i < |cs|
        invariant i <= |cs|
        invariant logger.lines == old(logger.lines) + done
        invariant WalkSoFar(ParseModelSeq, cs, i, start, done, data)
      {
        ghost var log;
        ok, log := ParseChildAt(cs, i, start, done, logger);
        done := done + log;
        if !ok {
          return;
        }
        i := i + 1;
      }
      WalkEndOver(ParseModelSeq, cs, start, done, data);
      ok := true;
    }

    /** Child i of the walk, parsed into this item. */
    method ParseChildAt(cs: seq<Json>, i: nat, ghost start: ModelData, ghost done: seq<string>, logger: Logger)
      returns (ok: bool, ghost log: seq<string>)
      requires i < |cs| && WalkSoFar(ParseModelSeq, cs, i, start, done, data)
      modifies this, logger
      decreases cs, 0
      ensures logger.lines == old(logger.lines) + log
      ensures ok ==> WalkSoFar(ParseModelSeq, cs, i + 1, start, done + log, data)
      ensures !ok ==> WalkOver(ParseModelSeq, cs, start, false, done + log, data)
    {
      ModelSeqStep(cs, i, data);
      WalkStep(ParseModelSeq, ParseModel, cs, i, start, done, data);
      log := ParseModel(cs[i], data).log;
      ok := Parse(cs[i], logger);
      if !ok {
        WalkOverOf(ParseModelSeq, cs, start, false, done + log, data);
      }
    }

    /** The "materials" list: a fresh material item per child. */
    method ParseMaterials(cs: seq<Json>, logger: Logger) returns (ok: bool)
      modifies this, logger
      ensures var l := ParseList(cs, MaterialElement);
        ok == l.ok && data == old(data).(materials := old(data).materials + l.value) && logger.lines == old(logger.lines) + l.log
    {
      var items := [];
      ghost var done: seq<string> := [];
      ListStart(cs, MaterialElement);
      var i := 0;
      ok := true;
      while i < |cs|
        invariant i <= |cs| && ok
        invariant data == old(data)
        invariant logger.lines == old(logger.lines) + done
        invariant ListSoFar(cs, i, MaterialElement, items, done)
      {
        var item;
        ghost var log;
        ok, item, log := MaterialAt(cs, i, items, done, logger);
        done := done + log;
        if !ok {
          break;
        }
        items := items + [item];
        i := i + 1;
      }
      if ok {
        ListEnd(cs, MaterialElement, items, done);
      }
      data := data.(materials := data.materials + items);
    }

    /** The "geometries" list: a fresh geometry item per child. */
    method ParseGeometries(cs: seq<Json>, logger: Logger) returns (ok: bool)
      modifies this, logger
      ensures var l := ParseList(cs, GeometryElement);
        ok == l.ok && data == old(data).(geometries := old(data).geometries + l.value) && logger.lines == old(logger.lines) + l.log
    {
      var items := [];
      ghost var done: seq<string> := [];
      ListStart(cs, GeometryElement);
      var i := 0;
      ok := true;
      while i < |cs|
        invariant i <= |cs| && ok
        invariant data == old(data)
        invariant logger.lines == old(logger.lines) + done
        invariant ListSoFar(cs, i, GeometryElement, items, done)
      {
        var item;
        ghost var log;
        ok, item, log := GeometryAt(cs, i, items, done, logger);
        done := done + log;
        if !ok {
          break;
        }
        items := items + [item];
        i := i + 1;
      }
      if ok {
        ListEnd(cs, GeometryElement, items, done);
      }
      data := data.(geometries := data.geometries + items);
    }
  }

  // ---------------------------------------------------------------------
  // Embedded members, parsed in place from their current contents

  /** The license embedded in its owner, parsed in place: an item holding its current members parses the node. */
  method ParseEmbeddedLicense(j: Json, v: LicenseData, logger: Logger) returns (ok: bool, item: LicenseData)
    modifies logger
    ensures var r := ParseLicense(j, v);
      ok == r.ok && item == r.value && logger.lines == old(logger.lines) + r.log
  {
    var child := new LicenseItem.Of(v);
    ok := child.Parse(j, logger);
    item := child.data;
  }

  /** The mesh embedded in its owner, parsed in place: an item holding its current members parses the node. */
  method ParseEmbeddedMesh(j: Json, v: MeshData, logger: Logger) returns (ok: bool, item: MeshData)
    modifies logger
    ensures var r := ParseMesh(j, v);
      ok == r.ok && item == r.value && logger.lines == old(logger.lines) + r.log
  {
    var child := new MeshItem.Of(v);
    ok := child.Parse(j, logger);
    item := child.data;
  }

  /** The proxy embedded in its owner, parsed in place: an item holding its current members parses the node. */
  method ParseEmbeddedProxy(j: Json, v: ProxyData, logger: Logger) returns (ok: bool, item: ProxyData)
    modifies logger
    ensures var r := ParseProxy(j, v);
      ok == r.ok && item == r.value && logger.lines == old(logger.lines) + r.log
  {
    var child := new ProxyItem.Of(v);
    ok := child.Parse(j, logger);
    item := child.data;
  }

  /** The skeleton embedded in its owner, parsed in place: an item holding its current members parses the node. */
  method ParseEmbeddedSkeleton(j: Json, v: SkeletonData, logger: Logger) returns (ok: bool, item: SkeletonData)
    modifies logger
    ensures var r := ParseSkeleton(j, v);
      ok == r.ok && item == r.value && logger.lines == old(logger.lines) + r.log
  {
    var child := new SkeletonItem.Of(v);
    ok := child.Parse(j, logger);
    item := child.data;
  }

  // ---------------------------------------------------------------------
  // A fresh child item per element of a list

  /** The child of index i of a list, read into a fresh bone item. */
  method BoneAt(cs: seq<Json>, i: nat, ghost got: seq<BoneData>, ghost done: seq<string>, logger: Logger)
    returns (ok: bool, item: BoneData, ghost log: seq<string>)
    requires i < |cs| && ListSoFar(cs, i, BoneElement, got, done)
    modifies logger
    ensures logger.lines == old(logger.lines) + log
    ensures ok ==> ListSoFar(cs, i + 1, BoneElement, got + [item], done + log)
    ensures !ok ==> ParseList(cs, BoneElement) == Parsed(false, got, done + log)
  {
    ListStep(cs, i, BoneElement, got, done);
    var child := new BoneItem();
    ok := child.Parse(cs[i], logger);
    item := child.data;
    log := BoneElement(cs[i]).log;
  }

  /** The child of index i of a list, read into a fresh face item. */
  method FaceAt(cs: seq<Json>, i: nat, ghost got: seq<seq<nat>>, ghost done: seq<string>, logger: Logger)
    returns (ok: bool, item: seq<nat>, ghost log: seq<string>)
    requires i < |cs| && ListSoFar(cs, i, FaceElement, got, done)
    modifies logger
    ensures logger.lines == old(logger.lines) + log
    ensures ok ==> ListSoFar(cs, i + 1, FaceElement, got + [item], done + log)
    ensures !ok ==> ParseList(cs, FaceElement) == Parsed(false, got, done + log)
  {
    ListStep(cs, i, FaceElement, got, done);
    var child := new FaceItem();
    ok := child.Parse(cs[i], logger);
    item := child.data;
    log := FaceElement(cs[i]).log;
  }

  /** The child of index i of a list, read into a fresh UV coordinate item. */
  method UVCoordAt(cs: seq<Json>, i: nat, ghost got: seq<UVCoordData>, ghost done: seq<string>, logger: Logger)
    returns (ok: bool, item: UVCoordData, ghost log: seq<string>)
    requires i < |cs| && ListSoFar(cs, i, UVCoordElement, got, done)
    modifies logger
    ensures logger.lines == old(logger.lines) + log
    ensures ok ==> ListSoFar(cs, i + 1, UVCoordElement, got + [item], done + log)
    ensures !ok ==> ParseList(cs, UVCoordElement) == Parsed(false, got, done + log)
  {
    ListStep(cs, i, UVCoordElement, got, done);
    var child := new UVCoordItem();
    ok := child.Parse(cs[i], logger);
    item := child.data;
    log := UVCoordElement(cs[i]).log;
  }

  /** The child of index i of a list, read into a fresh weight item. */
  method WeightAt(cs: seq<Json>, i: nat, ghost got: seq<WeightData>, ghost done: seq<string>, logger: Logger)
    returns (ok: bool, item: WeightData, ghost log: seq<string>)
    requires i < |cs| && ListSoFar(cs, i, WeightElement, got, done)
    modifies logger
    ensures logger.lines == old(logger.lines) + log
    ensures ok ==> ListSoFar(cs, i + 1, WeightElement, got + [item], done + log)
    ensures !ok ==> ParseList(cs, WeightElement) == Parsed(false, got, done + log)
  {
    ListStep(cs, i, WeightElement, got, done);
    var child := new WeightItem();
    ok := child.Parse(cs[i], logger);
    item := child.data;
    log := WeightElement(cs[i]).log;
  }

  /** The child of index i of a list, read into a fresh weight group item. */
  method WeightGroupAt(cs: seq<Json>, i: nat, ghost got: seq<WeightGroupData>, ghost done: seq<string>, logger: Logger)
    returns (ok: bool, item: WeightGroupData, ghost log: seq<string>)
    requires i < |cs| && ListSoFar(cs, i, WeightGroupElement, got, done)
    modifies logger
    ensures logger.lines == old(logger.lines) + log
    ensures ok ==> ListSoFar(cs, i + 1, WeightGroupElement, got + [item], done + log)
    ensures !ok ==> ParseList(cs, WeightGroupElement) == Parsed(false, got, done + log)
  {
    ListStep(cs, i, WeightGroupElement, got, done);
    var child := new WeightGroupItem();
    ok := child.Parse(cs[i], logger);
    item := child.data;
    log := WeightGroupElement(cs[i]).log;
  }

  /** The child of index i of a list, read into a fresh fit item. */
  method FitAt(cs: seq<Json>, i: nat, ghost got: seq<seq<Vector3>>, ghost done: seq<string>, logger: Logger)
    returns (ok: bool, item: seq<Vector3>, ghost log: seq<string>)
    requires i < |cs| && ListSoFar(cs, i, FitElement, got, done)
    modifies logger
    ensures logger.lines == old(logger.lines) + log
    ensures ok ==> ListSoFar(cs, i + 1, FitElement, got + [item], done + log)
    ensures !ok ==> ParseList(cs, FitElement) == Parsed(false, got, done + log)
  {
    ListStep(cs, i, FitElement, got, done);
    var child := new FitItem();
    ok := child.Parse(cs[i], logger);
    item := child.data;
    log := FitElement(cs[i]).log;
  }

  /** The child of index i of a list, read into a fresh material item. */
  method MaterialAt(cs: seq<Json>, i: nat, ghost got: seq<MaterialData>, ghost done: seq<string>, logger: Logger)
    returns (ok: bool, item: MaterialData, ghost log: seq<string>)
    requires i < |cs| && ListSoFar(cs, i, MaterialElement, got, done)
    modifies logger
    ensures logger.lines == old(logger.lines) + log
    ensures ok ==> ListSoFar(cs, i + 1, MaterialElement, got + [item], done + log)
    ensures !ok ==> ParseList(cs, MaterialElement) == Parsed(false, got, done + log)
  {
    ListStep(cs, i, MaterialElement, got, done);
    var child := new MaterialItem();
    ok := child.Parse(cs[i], logger);
    item := child.data;
    log := MaterialElement(cs[i]).log;
  }

  /** The child of index i of a list, read into a fresh geometry item. */
  method GeometryAt(cs: seq<Json>, i: nat, ghost got: seq<GeometryData>, ghost done: seq<string>, logger: Logger)
    returns (ok: bool, item: GeometryData, ghost log: seq<string>)
    requires i < |cs| && ListSoFar(cs, i, GeometryElement, got, done)
    modifies logger
    ensures logger.lines == old(logger.lines) + log
    ensures ok ==> ListSoFar(cs, i + 1, GeometryElement, got + [item], done + log)
    ensures !ok ==> ParseList(cs, GeometryElement) == Parsed(false, got, done + log)
  {
    ListStep(cs, i, GeometryElement, got, done);
    var child := new GeometryItem();
    ok := child.Parse(cs[i], logger);
    item := child.data;
    log := GeometryElement(cs[i]).log;
  }

  /** The child of index i of a list, read into a fresh vector item. */
  method VertexAt(cs: seq<Json>, i: nat, ghost got: seq<Vector3>, ghost done: seq<string>, logger: Logger)
    returns (ok: bool, item: Vector3, ghost log: seq<string>)
    requires i < |cs| && ListSoFar(cs, i, VertexElement, got, done)
    modifies logger
    ensures logger.lines == old(logger.lines) + log
    ensures ok ==> ListSoFar(cs, i + 1, VertexElement, got + [item], done + log)
    ensures !ok ==> ParseList(cs, VertexElement) == Parsed(false, got, done + log)
  {
    ListStep(cs, i, VertexElement, got, done);
    var index;
    ok, item, index := ParseVector(cs[i], ZERO3, 0, logger);
    log := VertexElement(cs[i]).log;
  }
}
