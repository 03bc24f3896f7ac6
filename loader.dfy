/**
 * The loader (class MHX2Model): its templates and callbacks, the geometry
 * builder that turns one parsed geometry into a mesh of one vertex buffer,
 * and Read, which parses a JSON document, builds the skeleton and the
 * geometries, and publishes the model only when every stage succeeded.
 *
 * The document arrives already parsed: no document (a failed json_parse) is
 * None. The weights and deformers are built only outside pose-only mode,
 * which the loader never leaves, so they are not part of this model.
 */
module Loader {
  import opened Wrappers
  import opened Json
  import opened Logging
  import opened ParseCore
  import opened Math3D
  import opened Vertices
  import opened ModelSpec
  import opened ModelItems
  import opened SkeletonBuilder
  import opened Geometry

  /** The default vertex format template: colours and texture coordinates, 3D positions, no stride yet. */
  const FORMAT_TEMPLATE := VertexFormat(0, UnknownType, Flags(false, true, true), XYZ)

  /** The default culling template: back faces, counter-clockwise. */
  const CULLING_TEMPLATE := VertexCulling(CullingBack, CCW)

  /** The default material template: white, no texture, opaque. */
  const MATERIAL_TEMPLATE := Material(WHITE, None, false)

  /**
   * The format of a geometry's buffer: the template, made of triangles, with
   * the stride its layout calls for.
   */
  function BufferFormat(template: VertexFormat): (r: VertexFormat)
    requires template.coordType != UnknownCoord
    ensures StrideSet(r) && r.stride >= 2
    ensures r.vertexType == Triangles && r.format == template.format && r.coordType == template.coordType
  {
    template.(vertexType := Triangles, stride := CalculateStride(template.coordType, template.format).value)
  }

  /** The default template gives buffers of nine floats per vertex. */
  lemma DefaultBufferStride()
    ensures BufferFormat(FORMAT_TEMPLATE).stride == 9
  {
    KnownStrides();
  }

  /**
   * The mesh BuildGeometry makes of a geometry: one buffer of the template's
   * culling, of the buffer format, of the geometry's material and holding the
   * floats of the fan triangles of all its faces.
   */
  ghost predicate BuiltMesh(mesh: Mesh, format: VertexFormat, culling: VertexCulling, material: Material,
                            onGetVertexColor: Option<ColorCallback>, onLoadTexture: Option<TextureLoader>,
                            materials: seq<MaterialData>, geometry: GeometryData)
    reads mesh
  {
    && format.coordType != UnknownCoord
    && Triangulable(geometry.mesh)
    && |mesh| == 1
    && var vb := mesh[0];
       && vb.format == BufferFormat(format)
       && vb.culling == culling
       && vb.material == GeometryMaterial(material, onLoadTexture, materials, geometry.material)
       && vb.data == FacesValues(vb.format, geometry.mesh, CornerColor(onGetVertexColor, vb.material), |geometry.mesh.faces|)
  }

  /** The geometries of a model can all be built: what Read demands of a document that parses. */
  ghost predicate AllTriangulable(geometries: seq<GeometryData>) {
    forall g :: g in geometries ==> Triangulable(g.mesh)
  }

  /** The buffers of a list of meshes. */
  ghost function Buffers(meshes: seq<Mesh>): set<VertexBuffer> {
    set k, j | 0 <= k < |meshes| && 0 <= j < |meshes[k]| :: meshes[k][j]
  }

  lemma BuffersSnoc(meshes: seq<Mesh>, mesh: Mesh)
    ensures Buffers(meshes + [mesh]) == Buffers(meshes) + set j | 0 <= j < |mesh| :: mesh[j]
  {
    var ms := meshes + [mesh];
    forall o | o in Buffers(ms) ensures o in Buffers(meshes) + set j | 0 <= j < |mesh| :: mesh[j] {
      var k, j :| 0 <= k < |ms| && 0 <= j < |ms[k]| && ms[k][j] == o;
      if k < |meshes| {
        assert ms[k] == meshes[k];
      }
    }
    forall o | o in Buffers(meshes) + set j | 0 <= j < |mesh| :: mesh[j] ensures o in Buffers(ms) {
      if o in Buffers(meshes) {
        var k, j :| 0 <= k < |meshes| && 0 <= j < |meshes[k]| && meshes[k][j] == o;
        assert ms[k] == meshes[k];
      } else {
        var j :| 0 <= j < |mesh| && mesh[j] == o;
        assert ms[|meshes|] == mesh;
      }
    }
  }

  /** The result of parsing a document into a fresh model record. */
  function ParseDocument(j: Json): Parsed<ModelData> {
    ParseModel(j, DEFAULT_MODEL)
  }

  class MHX2Model {
    var model: Model?
    const logger: Logger
    var vertFormatTemplate: VertexFormat
    var vertCullingTemplate: VertexCulling
    var materialTemplate: Material
    var onGetVertexColor: Option<ColorCallback>
    var onLoadTexture: Option<TextureLoader>

    /** A new loader: no model, an empty log, the default templates and no callback. */
    constructor ()
      ensures model == null && fresh(logger) && logger.lines == []
      ensures vertFormatTemplate == FORMAT_TEMPLATE && vertCullingTemplate == CULLING_TEMPLATE && materialTemplate == MATERIAL_TEMPLATE
      ensures onGetVertexColor.None? && onLoadTexture.None?
    {
      model := null;
      logger := new Logger();
      vertFormatTemplate := FORMAT_TEMPLATE;
      vertCullingTemplate := CULLING_TEMPLATE;
      materialTemplate := MATERIAL_TEMPLATE;
      onGetVertexColor := None;
      onLoadTexture := None;
    }

    method SetVertFormatTemplate(template: VertexFormat)
      modifies this
      ensures vertFormatTemplate == template
      ensures model == old(model) && vertCullingTemplate == old(vertCullingTemplate) && materialTemplate == old(materialTemplate)
      ensures onGetVertexColor == old(onGetVertexColor) && onLoadTexture == old(onLoadTexture)
    {
      vertFormatTemplate := template;
    }

    method SetVertCullingTemplate(template: VertexCulling)
      modifies this
      ensures vertCullingTemplate == template
      ensures model == old(model) && vertFormatTemplate == old(vertFormatTemplate) && materialTemplate == old(materialTemplate)
      ensures onGetVertexColor == old(onGetVertexColor) && onLoadTexture == old(onLoadTexture)
    {
      vertCullingTemplate := template;
    }

    method SetMaterial(template: Material)
      modifies this
      ensures materialTemplate == template
      ensures model == old(model) && vertFormatTemplate == old(vertFormatTemplate) && vertCullingTemplate == old(vertCullingTemplate)
      ensures onGetVertexColor == old(onGetVertexColor) && onLoadTexture == old(onLoadTexture)
    {
      materialTemplate := template;
    }

    method SetOnGetVertexColor(callback: Option<ColorCallback>)
      modifies this
      ensures onGetVertexColor == callback
      ensures model == old(model) && vertFormatTemplate == old(vertFormatTemplate) && vertCullingTemplate == old(vertCullingTemplate)
      ensures materialTemplate == old(materialTemplate) && onLoadTexture == old(onLoadTexture)
    {
      onGetVertexColor := callback;
    }

    method SetOnLoadTexture(callback: Option<TextureLoader>)
      modifies this
      ensures onLoadTexture == callback
      ensures model == old(model) && vertFormatTemplate == old(vertFormatTemplate) && vertCullingTemplate == old(vertCullingTemplate)
      ensures materialTemplate == old(materialTemplate) && onGetVertexColor == old(onGetVertexColor)
    {
      onLoadTexture := callback;
    }

    /**
     * The material search of BuildGeometry: the first material named like
     * the geometry's material, found by a loop that stops at it.
     */
    method FindMaterial(materials: seq<MaterialData>, name: string) returns (found: Option<nat>)
      ensures found == FirstMaterial(materials, name)
    {
      found := None;
      var i := 0;
      while i < |materials|
        invariant i <= |materials|
        invariant found.None?
        invariant forall k :: 0 <= k < i ==> materials[k].name != name
      {
        if materials[i].name == name {
          found := Some(i);
          break;
        }
        i := i + 1;
      }
    }

    /**
     * The buffer BuildGeometry fills for a geometry: the templates, the
     * texture of the first material named like the geometry's material (when
     * a texture loader is set) and the fan triangles of every face. loads
     * lists the calls made to the texture loader.
     */
    method FillBuffer(modelItem: ModelData, geometry: GeometryData) returns (vb: VertexBuffer, loads: seq<(string, bool)>)
      requires vertFormatTemplate.coordType != UnknownCoord
      requires Triangulable(geometry.mesh)
      ensures fresh(vb)
      ensures loads == TextureLoads(onLoadTexture, modelItem.materials, geometry.material)
      ensures BuiltMesh([vb], vertFormatTemplate, vertCullingTemplate, materialTemplate,
                        onGetVertexColor, onLoadTexture, modelItem.materials, geometry)
    {
      vb := new VertexBuffer(BufferFormat(vertFormatTemplate), vertCullingTemplate, materialTemplate);
      loads := LoadTexture(modelItem.materials, geometry.material, vb);
      AddFaces(geometry.mesh, onGetVertexColor, vb);
    }

    /**
     * The texture step of BuildGeometry: when a texture loader is set and a
     * material is named like the geometry's material, the buffer's material
     * takes the texture loaded for the first such material and its
     * transparency flag.
     */
    method LoadTexture(materials: seq<MaterialData>, name: string, vb: VertexBuffer) returns (loads: seq<(string, bool)>)
      modifies vb
      ensures vb.format == old(vb.format) && vb.culling == old(vb.culling) && vb.data == old(vb.data)
      ensures vb.material == GeometryMaterial(old(vb.material), onLoadTexture, materials, name)
      ensures loads == TextureLoads(onLoadTexture, materials, name)
    {
      loads := [];
      if onLoadTexture.Some? {
        var found := FindMaterial(materials, name);
        if found.Some? {
          var material := materials[found.value];
          var texture := onLoadTexture.value(material.diffuseTexture, material.transparent);
          loads := [(material.diffuseTexture, material.transparent)];
          vb.material := vb.material.(texture := texture, transparent := material.transparent);
        }
      }
    }

    /**
     * BuildGeometry: a null model is an error; otherwise one mesh holding the
     * geometry's one buffer is appended to the model's meshes, and nothing
     * else of the model changes.
     */
    method BuildGeometry(modelItem: ModelData, geometry: GeometryData, target: Model?) returns (ok: bool, loads: seq<(string, bool)>)
      requires vertFormatTemplate.coordType != UnknownCoord
      requires Triangulable(geometry.mesh)
      modifies target
      ensures ok <==> target != null
      ensures loads == if target == null then [] else TextureLoads(onLoadTexture, modelItem.materials, geometry.material)
      ensures target != null ==>
        && target.skeleton == old(target.skeleton)
        && |target.meshes| == |old(target.meshes)| + 1
        && target.meshes[..|old(target.meshes)|] == old(target.meshes)
        && |target.meshes[|old(target.meshes)|]| == 1
        && fresh(target.meshes[|old(target.meshes)|][0])
        && BuiltMesh(target.meshes[|old(target.meshes)|], vertFormatTemplate, vertCullingTemplate, materialTemplate,
                     onGetVertexColor, onLoadTexture, modelItem.materials, geometry)
    {
      if target == null {
        return false, [];
      }
      var vb;
      vb, loads := FillBuffer(modelItem, geometry);
      target.meshes := target.meshes + [[vb]];
      return true, loads;
    }

    /** The first n meshes are those BuildGeometry makes of the first n geometries. */
    ghost predicate MeshesBuilt(meshes: seq<Mesh>, item: ModelData, n: nat)
      reads this, Buffers(meshes)
    {
      && n == |meshes| <= |item.geometries|
      && forall k :: 0 <= k < n ==>
           BuiltMesh(meshes[k], vertFormatTemplate, vertCullingTemplate, materialTemplate,
                     onGetVertexColor, onLoadTexture, item.materials, item.geometries[k])
    }

    lemma MeshesBuiltSnoc(meshes: seq<Mesh>, mesh: Mesh, item: ModelData)
      requires MeshesBuilt(meshes, item, |meshes|) && |meshes| < |item.geometries|
      requires BuiltMesh(mesh, vertFormatTemplate, vertCullingTemplate, materialTemplate,
                         onGetVertexColor, onLoadTexture, item.materials, item.geometries[|meshes|])
      ensures MeshesBuilt(meshes + [mesh], item, |meshes| + 1)
    {
      var ms := meshes + [mesh];
      forall k | 0 <= k < |ms|
        ensures BuiltMesh(ms[k], vertFormatTemplate, vertCullingTemplate, materialTemplate,
                          onGetVertexColor, onLoadTexture, item.materials, item.geometries[k])
      {
        if k < |meshes| {
          assert ms[k] == meshes[k];
        }
      }
    }

    /**
     * What Read publishes for a parsed model record: a skeleton built from
     * the record's skeleton and one mesh per geometry, in order.
     */
    ghost predicate Publishes(m: Model, item: ModelData)
      reads this, m, m.skeleton, Buffers(m.meshes)
    {
      && m.skeleton != null
      && m.skeleton.name == item.skeleton.name && m.skeleton.offset == item.skeleton.offset
      && m.skeleton.scale == item.skeleton.scale
      && m.skeleton.tree == BuildBones(Tree([], None), item.skeleton.bones).tree
      && |m.meshes| == |item.geometries|
      && MeshesBuilt(m.meshes, item, |item.geometries|)
    }

    /** The vertex format template has a known coordinate type, so BuildGeometry can compute its stride. */
    ghost predicate ModelTemplatesOk()
      reads this
    {
      vertFormatTemplate.coordType != UnknownCoord
    }

    /**
     * The geometry loop of Read: BuildGeometry for each geometry of the
     * record, in order, into a model that has no mesh yet.
     */
    method BuildGeometries(item: ModelData, built: Model)
      requires ModelTemplatesOk() && AllTriangulable(item.geometries)
      requires built.meshes == []
      modifies built
      ensures built.skeleton == old(built.skeleton)
      ensures fresh(Buffers(built.meshes))
      ensures MeshesBuilt(built.meshes, item, |item.geometries|)
    {
      var geometries := item.geometries;
      var i := 0;
      while i < |geometries|
        invariant i <= |geometries|
        invariant built.skeleton == old(built.skeleton)
        invariant fresh(Buffers(built.meshes))
        invariant MeshesBuilt(built.meshes, item, i)
      {
        assert geometries[i] in geometries;
        ghost var before := built.meshes;
        var _, _ := BuildGeometry(item, geometries[i], built);
        assert built.meshes == before + [built.meshes[i]];
        MeshesBuiltSnoc(before, built.meshes[i], item);
        BuffersSnoc(before, built.meshes[i]);
        i := i + 1;
      }
    }

    /**
     * The build stages of Read: a new skeleton built from the record's
     * skeleton, then every geometry. No model when the skeleton cannot be
     * built.
     */
    method BuildModel(item: ModelData) returns (built: Model?)
      requires ModelTemplatesOk() && AllTriangulable(item.geometries)
      ensures built != null <==> BuildBones(Tree([], None), item.skeleton.bones).ok
      ensures built != null ==> fresh(built) && fresh(built.skeleton) && fresh(Buffers(built.meshes)) && Publishes(built, item)
    {
      var m := new Model();
      var skeleton := new Skeleton();
      var ok := BuildSkeleton(item.skeleton, skeleton);
      if !ok {
        return null;
      }
      m.skeleton := skeleton;
      BuildGeometries(item, m);
      return m;
    }

    /**
     * Read: forgets the previous model and log, then, for a document whose
     * root is an object, parses it into a model record, builds a new
     * skeleton from the record's skeleton and one mesh per geometry. The
     * model is published only when all of these succeed; the log holds the
     * lines the parse wrote.
     */
    method Read(root: Option<Json>) returns (ok: bool)
      requires ModelTemplatesOk()
      requires root.Some? && root.value.value.Object? && ParseDocument(root.value).ok ==>
        AllTriangulable(ParseDocument(root.value).value.geometries)
      modifies this, logger
      ensures vertFormatTemplate == old(vertFormatTemplate) && vertCullingTemplate == old(vertCullingTemplate)
      ensures materialTemplate == old(materialTemplate)
      ensures onGetVertexColor == old(onGetVertexColor) && onLoadTexture == old(onLoadTexture)
      ensures ok <==> model != null
      ensures root.None? || !root.value.value.Object? ==> !ok && logger.lines == []
      ensures root.Some? && root.value.value.Object? ==>
        && logger.lines == ParseDocument(root.value).log
        && (ok <==> ParseDocument(root.value).ok && BuildBones(Tree([], None), ParseDocument(root.value).value.skeleton.bones).ok)
      ensures ok ==> fresh(model) && Publishes(model, ParseDocument(root.value).value)
    {
      model := null;
      logger.Clear();
      if root.None? || !root.value.value.Object? {
        return false;
      }
      var item := new ModelItem();
      ok := item.Parse(root.value, logger);
      if !ok {
        return false;
      }
      model := BuildModel(item.data);
      ok := model != null;
    }
  }
}
