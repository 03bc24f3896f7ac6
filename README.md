# MHX2 loader, modelled in Dafny

This project models the loader of MakeHuman exchange files (`.mhx2`), a
JSON format for a rigged human figure (skeleton, materials, geometries
with their meshes and proxies), together with the small helpers around it.

The **lenient reader** (`MHX2Model`) walks the parsed JSON document into
item records (bones, skeleton, materials, license, faces, uv coordinates,
weights, weight groups, fittings, meshes, proxies, geometries, model). It
logs and skips keys it does not know, and fails on values of a type it
cannot handle. It then builds the runtime model:
- a skeleton whose bones are linked to their parents by name, and which
  may have only one root;
- one mesh per geometry, holding one triangle vertex buffer. Each face
  is triangulated as a fan, and each vertex is laid out as position,
  normal, texture coordinates and colour, as the vertex format asks.
  The texture of the geometry's first matching material is loaded
  through a callback.

The **strict reader** (`MHX2Reader`) reads the same document into a
smaller set of records. It fails on every key it does not know and never
logs. Around the two readers the project also models:
- the vertex descriptor (`Vertex`: stride, format comparison, cloning);
- the shader's attribute-name dictionary;
- the texture descriptors and their reset;
- the vertical flip and red/blue swap that turns a decoded PNG buffer
  into a pixel array.

## How the model is organised

- JSON nodes are values `Json(name, value)`. A node's children are its
  object members or array elements. A C++ null node is `Option.None`.
- Every lenient parse is specified by a pure function. It returns
  `Parsed(ok, value, log)`: whether the parse succeeded, the record after
  it, and the lines it appended to the logger. The item classes of
  `ModelItems` are proved against these functions. Each class holds its
  record in one field `data`, and each `Parse` method ensures that the new
  `data`, the returned flag and the logger's new lines are exactly what
  the function says.
- The strict reader reuses the same records. Its functions always return
  an empty log. `StrictSpec` proves, record by record, how the strict
  reading relates to the lenient one.
- The bone tree is an arena: the bones sit in a sequence in insertion
  order, and parent and child links are indices into it.
- Vertex buffers are classes whose `data` sequence the builder extends.
  Every method states the buffer's new contents as a function of the
  vertex format, the mesh and the callbacks.

## Model

| member | source | states |
|---|---|---|
| Json.TypeCode | MHX2/MHX2/MHX2Model.cpp:117-142 | the type code written in log lines is at most 6, and is 1 exactly for objects and 2 exactly for arrays, under the assumed order of the parser's type enum (see Left out) |
| Json.PreOrder | MHX2/MHX2/MHX2Model.cpp:152-217 | the nodes a recursive parse visits, in visiting order, start with the node itself |
| Math3D.SetCell | MHX2/MHX2/MHX2Model.cpp:322-332 | writing one matrix cell changes that cell to the value and keeps the other fifteen |
| Math3D.IntToSizeT | MHX2/MHX2/MHX2Model.cpp:1060-1072 | an integer index stored as size_t lies in the 64-bit range and keeps every value already in range |
| Math3D.Truncate | MHX2/MHX2/MHX2Model.cpp:1074-1086 | a float converted to an integer is truncated toward zero |
| Math3D.FloatToSizeT | MHX2/MHX2/MHX2Model.cpp:1074-1086 | a float index stored as size_t lies in the 64-bit range and is the floor of every non-negative float in range |
| Logging.Digit | MHX2/MHX2/MHX2Model.h:723-731 | a decimal digit is printed as a character between '0' and '9' |
| Logging.NatToString | MHX2/MHX2/MHX2Model.h:723-731 | a logged number is printed as a non-empty string of decimal digits |
| Logging.DecimalRoundTrip | MHX2/MHX2/MHX2Model.h:723-731 | reading back the printed decimal digits gives the logged number |
| Logging.JsonLineShapes | MHX2/MHX2/MHX2Model.cpp:117-142 | a line about an unnamed node is empty; a line about a named node or about no node starts with the message; a line about no node, with or without a value, is the plain message |
| Logging.Logger.constructor | MHX2/MHX2/MHX2Model.cpp:101-102 | a new logger holds no lines |
| Logging.Logger.Clear | MHX2/MHX2/MHX2Model.cpp:107-110 | clearing removes every line |
| Logging.Logger.Log | MHX2/MHX2/MHX2Model.cpp:112-115 | logging a message appends exactly that line |
| Logging.Logger.LogValue | MHX2/MHX2/MHX2Model.h:723-731 | logging a message with a value appends exactly one line, the message followed by the value |
| Logging.Logger.LogJson | MHX2/MHX2/MHX2Model.cpp:117-142 | logging about a node appends exactly one line: the message with the node's key and type, an empty line for an unnamed node, or the message alone for no node |
| Logging.Logger.LogJsonValue | MHX2/MHX2/MHX2Model.h:733-759 | as LogJson, with the value printed after the message |
| ParseCore.ParseListFacts | MHX2/MHX2/MHX2Model.cpp:1712-1743 | the children of a list are parsed in order and each parsed child is kept; the list succeeds exactly when every child parses; on failure it stops at the first child that fails |
| ParseCore.ParseSlots | MHX2/MHX2/MHX2Model.cpp:219-282 | filling the slots of a vector, colour or uv pair keeps their number; a success logs nothing and a failure logs one line |
| ParseCore.ParseSlotsSeq | MHX2/MHX2/MHX2Model.cpp:238-245 | the same for the children of a container, walked in order |
| ParseCore.Numbers | MHX2/MHX2/MHX2Model.cpp:247-277 | the numbers among the visited nodes are no more than the nodes |
| ParseCore.SlotsFollowPreOrder | MHX2/MHX2/MHX2Model.cpp:219-282 | the recursive slot filler consumes the nodes of the document in visiting order |
| ParseCore.SlotsSeqFollowPreOrder | MHX2/MHX2/MHX2Model.cpp:238-245 | the children walk consumes the children's nodes in visiting order |
| ParseCore.RunSlotsResult | MHX2/MHX2/MHX2Model.cpp:219-282 | slot filling succeeds exactly when every visited node is a container or a number and the numbers fit after the start index; on success the next slots hold the numbers in order, the others are kept, and the index advances by their count |
| ParseCore.SlotsFill | MHX2/MHX2/MHX2Model.cpp:219-282 | the same, stated for one document node and its leaves: all numbers in visiting order land in consecutive slots |
| ParseCore.ExtraNumberFails | MHX2/MHX2/MHX2Model.cpp:247-277 | more numbers than free slots make the vector, colour or uv parse fail |
| ParseCore.IndexOutOfBoundsFails | MHX2/MHX2/MHX2Model.cpp:228-233 | starting at an index past the slots fails at once with the one out-of-bounds line |
| ParseCore.ParseMatrixSpec | MHX2/MHX2/MHX2Model.cpp:284-337 | a matrix parse that succeeds logs nothing, and one that fails logs one line |
| ParseCore.ParseMatrixSeq | MHX2/MHX2/MHX2Model.cpp:310-320 | the same for the children of a matrix container, walked in order |
| ParseCore.RowOfNumbers | MHX2/MHX2/MHX2Model.cpp:322-332 | a run of numbers fills one matrix row from column x; it succeeds exactly when it fits in the four columns |
| ParseCore.GridRows | MHX2/MHX2/MHX2Model.cpp:310-320 | rows of four numbers fill consecutive matrix rows; each row resets the column to 0 |
| ParseCore.GridFillsTable | MHX2/MHX2/MHX2Model.cpp:284-337 | a 4x4 array of numbers fills the whole matrix, cell by cell, with row index 5 at the end |
| ParseCore.FlatSixteenFails | MHX2/MHX2/MHX2Model.cpp:293-298 | a flat array of sixteen numbers is refused, because the column index reaches 4 at the fifth number |
| ParseCore.LongRowFails | MHX2/MHX2/MHX2Model.cpp:293-298 | a row of five numbers is refused, because the column index reaches 4 |
| ParseCore.FifthRowFails | MHX2/MHX2/MHX2Model.cpp:300-305 | four full rows followed by a fifth child are refused, because the row index has reached 4 |
| ModelSpec.SizeTs | MHX2/MHX2/MHX2Model.cpp:941-947 | converting face numbers keeps their count and converts each one to size_t, with no rounding through `float` (see Left out) |
| ModelSpec.RunFaceResult | MHX2/MHX2/MHX2Model.cpp:920-952 | a face parse succeeds exactly when every visited node is a container or a number; it then appends all the numbers as indices, in visiting order, and logs nothing; indices are converted exactly (see Left out) |
| ModelSpec.RunFaceNumber | MHX2/MHX2/MHX2Model.cpp:941-947 | the same, when the first visited node is a number; the index is converted exactly (see Left out) |
| ModelSpec.FaceFollowsPreOrder | MHX2/MHX2/MHX2Model.cpp:920-952 | the recursive face parse consumes the nodes in visiting order |
| ModelSpec.FaceSeqFollowsPreOrder | MHX2/MHX2/MHX2Model.cpp:932-939 | the children walk of a face consumes the children's nodes in visiting order |
| ModelSpec.FaceFlattens | MHX2/MHX2/MHX2Model.cpp:920-952 | a face is the flattened list of all numbers below its node, or a failure with one log line; indices are exact, not rounded through `float` (see Left out) |
| ModelSpec.IntIndexAsFloat | MHX2/MHX2/MHX2Model.cpp:1060-1077 | an integer weight index and the same value as a float give the same size_t |
| ModelSpec.RunWeightResult | MHX2/MHX2/MHX2Model.cpp:1039-1091 | a weight parse takes the first number as the vertex index and the second as the weight; it fails on a third number or on a node that is neither container nor number |
| ModelSpec.WeightFollowsPreOrder | MHX2/MHX2/MHX2Model.cpp:1039-1091 | the recursive weight parse consumes the nodes in visiting order |
| ModelSpec.WeightSeqFollowsPreOrder | MHX2/MHX2/MHX2Model.cpp:1051-1058 | the children walk of a weight consumes the children's nodes in visiting order |
| ModelSpec.WeightPair | MHX2/MHX2/MHX2Model.cpp:1039-1091 | a new weight read from a node is the pair of its first two leaves (defaults 0 and 0.0), and fails with one line on more than two |
| ModelSpec.BoneUnknownKeyWarns | MHX2/MHX2/MHX2Model.cpp:373-395 | a named bone container other than head, tail and matrix is skipped with exactly one warning line and leaves the bone unchanged |
| ModelSpec.MaterialUnknownKeyWarns | MHX2/MHX2/MHX2Model.cpp:606-633 | a named material container that is not one of the four colours is skipped with one warning line |
| ModelSpec.MeshUnknownKeyWarns | MHX2/MHX2/MHX2Model.cpp:1246-1367 | a mesh container with an unknown name or no name is skipped, successfully, with one warning line |
| ModelSpec.GeometryUnknownKeyWarns | MHX2/MHX2/MHX2Model.cpp:1569-1592 | a named geometry container with an unknown name is skipped with one warning line |
| ModelSpec.UnhandledTypesFail | MHX2/MHX2/MHX2Model.cpp:349-442 | a boolean under a bone fails with the one "unknown type" line of the bone parse; likewise a string under a mesh, a number under a license and a number or boolean under the model fail with their own "unknown type" line |
| ModelItems.ReadSlots | MHX2/MHX2/MHX2Model.cpp:219-282 | the recursive slot filler returns, and logs, exactly what ParseSlots specifies |
| ModelItems.ParseVector | MHX2/MHX2/MHX2Model.cpp:219-282 | IItem::ParseVector fills the three coordinates as ParseSlots specifies, with the vector messages |
| ModelItems.ParseColor | MHX2/MHX2/MHX2Model.cpp:152-217 | IItem::ParseColor fills the four channels as ParseSlots specifies, with the colour messages |
| ModelItems.ParseMatrix | MHX2/MHX2/MHX2Model.cpp:284-337 | IItem::ParseMatrix returns the matrix, indices and log lines ParseMatrixSpec specifies |
| ModelItems.BoneItem.constructor | MHX2/MHX2/MHX2Model.cpp:341-344 | a new bone item holds the default bone: empty names, zero head and tail, zero roll, identity matrix, the vectors and matrix taken at their assumed defaults (see Left out) |
| ModelItems.BoneItem.Parse | MHX2/MHX2/MHX2Model.cpp:349-442 | IBoneItem::Parse leaves the bone, the result and the new log lines that ParseBone specifies |
| ModelItems.BoneItem.ParseChildren | MHX2/MHX2/MHX2Model.cpp:364-372 | the children of a bone node are parsed in order and the walk stops at the first failure |
| ModelItems.SkeletonItem.constructor | MHX2/MHX2/MHX2Model.cpp:446-449 | a new skeleton item is empty, with scale 0 |
| ModelItems.SkeletonItem.Of | MHX2/MHX2/MHX2Model.cpp:446-449 | a skeleton item holding a given skeleton record |
| ModelItems.SkeletonItem.Parse | MHX2/MHX2/MHX2Model.cpp:460-551 | ISkeletonItem::Parse leaves the skeleton, the result and the new log lines that ParseSkeleton specifies |
| ModelItems.SkeletonItem.ParseChildren | MHX2/MHX2/MHX2Model.cpp:475-484 | the children of a skeleton node are parsed in order |
| ModelItems.SkeletonItem.ParseBones | MHX2/MHX2/MHX2Model.cpp:492-507 | the bones list is read element by element, and the bones parsed before a failure stay appended |
| ModelItems.MaterialItem.constructor | MHX2/MHX2/MHX2Model.cpp:555-578 | a new material item holds the default material |
| ModelItems.MaterialItem.Parse | MHX2/MHX2/MHX2Model.cpp:583-842 | IMaterialItem::Parse leaves the material, the result and the new log lines that ParseMaterial specifies |
| ModelItems.MaterialItem.ParseColorValue | MHX2/MHX2/MHX2Model.cpp:606-633 | a named colour container fills the matching colour; any other name is skipped with a warning |
| ModelItems.MaterialItem.ParseStringValue | MHX2/MHX2/MHX2Model.cpp:635-657 | a known string key sets its field; an unknown one is skipped with a warning |
| ModelItems.MaterialItem.ParseNumberValue | MHX2/MHX2/MHX2Model.cpp:659-777 | a known number key sets its field; an unknown one is skipped with a warning |
| ModelItems.MaterialItem.ParseFlagValue | MHX2/MHX2/MHX2Model.cpp:779-837 | a known boolean key sets its flag; an unknown one is skipped with a warning |
| ModelItems.MaterialItem.ParseChildren | MHX2/MHX2/MHX2Model.cpp:598-605 | the children of a material node are parsed in order |
| ModelItems.LicenseItem.constructor | MHX2/MHX2/MHX2Model.cpp:846-848 | a new license item holds three empty strings |
| ModelItems.LicenseItem.Of | MHX2/MHX2/MHX2Model.cpp:846-848 | a license item holding a given license record |
| ModelItems.LicenseItem.Parse | MHX2/MHX2/MHX2Model.cpp:853-909 | ILicenseItem::Parse leaves the license, the result and the new log lines that ParseLicense specifies |
| ModelItems.LicenseItem.ParseChildren | MHX2/MHX2/MHX2Model.cpp:869-876 | the children of a license node are parsed in order |
| ModelItems.FaceItem.constructor | MHX2/MHX2/MHX2Model.cpp:913-915 | a new face holds no index |
| ModelItems.FaceItem.Parse | MHX2/MHX2/MHX2Model.cpp:920-952 | IFaceItem::Parse leaves the indices, the result and the new log lines that ParseFace specifies |
| ModelItems.FaceItem.ParseChildren | MHX2/MHX2/MHX2Model.cpp:932-939 | the children of a face node are parsed in order |
| ModelItems.UVCoordItem.constructor | MHX2/MHX2/MHX2Model.cpp:956-959 | a new uv coordinate is (0, 0) with internal index 0 |
| ModelItems.UVCoordItem.Parse | MHX2/MHX2/MHX2Model.cpp:964-1025 | IUVCoordItem::Parse fills the pair from its internal index as ParseSlots specifies and keeps the next index |
| ModelItems.WeightItem.constructor | MHX2/MHX2/MHX2Model.cpp:1029-1034 | a new weight has index 0, internal index 0 and value 0 |
| ModelItems.WeightItem.Parse | MHX2/MHX2/MHX2Model.cpp:1039-1091 | IWeightItem::Parse leaves the weight, the result and the new log lines that ParseWeight specifies |
| ModelItems.WeightItem.ParseChildren | MHX2/MHX2/MHX2Model.cpp:1051-1058 | the children of a weight node are parsed in order |
| ModelItems.WeightGroupItem.constructor | MHX2/MHX2/MHX2Model.cpp:1095-1097 | a new weight group has an empty key and no weights |
| ModelItems.WeightGroupItem.Parse | MHX2/MHX2/MHX2Model.cpp:1108-1143 | IWeightGroupItem::Parse takes the node's key and reads its weight list as ParseWeightGroup specifies |
| ModelItems.WeightGroupItem.ParseWeights | MHX2/MHX2/MHX2Model.cpp:1127-1138 | the weights are read element by element and appended, stopping at the first failure |
| ModelItems.FitItem.constructor | MHX2/MHX2/MHX2Model.cpp:1147-1149 | a new fitting holds no vector |
| ModelItems.FitItem.Parse | MHX2/MHX2/MHX2Model.cpp:1160-1193 | IFitItem::Parse reads its vectors as ParseFit specifies |
| ModelItems.FitItem.ParseValues | MHX2/MHX2/MHX2Model.cpp:1175-1188 | the fitting vectors are read element by element and appended |
| ModelItems.MeshItem.constructor | MHX2/MHX2/MHX2Model.cpp:1197-1199 | a new mesh is empty |
| ModelItems.MeshItem.Of | MHX2/MHX2/MHX2Model.cpp:1197-1199 | a mesh item holding a given mesh record |
| ModelItems.MeshItem.Parse | MHX2/MHX2/MHX2Model.cpp:1234-1372 | IMeshItem::Parse leaves the mesh, the result and the new log lines that ParseMesh specifies |
| ModelItems.MeshItem.ParseChildren | MHX2/MHX2/MHX2Model.cpp:1250-1277 | the children of a mesh node are parsed in order |
| ModelItems.MeshItem.ParseVertices | MHX2/MHX2/MHX2Model.cpp:1280-1295 | the vertices list is read element by element and appended |
| ModelItems.MeshItem.ParseFaces | MHX2/MHX2/MHX2Model.cpp:1298-1312 | the faces list is read element by element and appended |
| ModelItems.MeshItem.ParseUVCoords | MHX2/MHX2/MHX2Model.cpp:1315-1329 | the uv coordinates list is read element by element and appended |
| ModelItems.MeshItem.ParseUVFaces | MHX2/MHX2/MHX2Model.cpp:1332-1346 | the uv faces list is read element by element and appended |
| ModelItems.MeshItem.ParseWeightGroups | MHX2/MHX2/MHX2Model.cpp:1349-1363 | the weight groups are read element by element and appended |
| ModelItems.ProxyItem.constructor | MHX2/MHX2/MHX2Model.cpp:1376-1379 | a new proxy is empty |
| ModelItems.ProxyItem.Of | MHX2/MHX2/MHX2Model.cpp:1376-1379 | a proxy item holding a given proxy record |
| ModelItems.ProxyItem.Parse | MHX2/MHX2/MHX2Model.cpp:1393-1531 | IProxyItem::Parse leaves the proxy, the result and the new log lines that ParseProxy specifies |
| ModelItems.ProxyItem.ParseChildren | MHX2/MHX2/MHX2Model.cpp:1409-1466 | the children of a proxy node are parsed in order |
| ModelItems.ProxyItem.ParseFitting | MHX2/MHX2/MHX2Model.cpp:1432-1447 | the fitting list is read element by element and appended |
| ModelItems.GeometryItem.constructor | MHX2/MHX2/MHX2Model.cpp:1535-1540 | a new geometry holds the default geometry |
| ModelItems.GeometryItem.Parse | MHX2/MHX2/MHX2Model.cpp:1545-1663 | IGeometryItem::Parse leaves the geometry, the result and the new log lines that ParseGeometry specifies |
| ModelItems.GeometryItem.ParseChildren | MHX2/MHX2/MHX2Model.cpp:1557-1567 | the children of a geometry node are parsed in order |
| ModelItems.ModelItem.constructor | MHX2/MHX2/MHX2Model.cpp:1667-1669 | a new model item holds the default model |
| ModelItems.ModelItem.Parse | MHX2/MHX2/MHX2Model.cpp:1686-1768 | IModelItem::Parse leaves the model, the result and the new log lines that ParseModel specifies |
| ModelItems.ModelItem.ParseChildren | MHX2/MHX2/MHX2Model.cpp:1745-1751 | the children of the model node are parsed in order |
| ModelItems.ModelItem.ParseMaterials | MHX2/MHX2/MHX2Model.cpp:1712-1726 | the materials list is read element by element and appended |
| ModelItems.ModelItem.ParseGeometries | MHX2/MHX2/MHX2Model.cpp:1729-1743 | the geometries list is read element by element and appended |
| ModelItems.ParseEmbeddedLicense | MHX2/MHX2/MHX2Model.cpp:1570-1571 | the license embedded in a geometry or proxy is parsed in place, as ParseLicense specifies |
| ModelItems.ParseEmbeddedMesh | MHX2/MHX2/MHX2Model.cpp:1579-1586 | an embedded mesh is parsed in place, as ParseMesh specifies |
| ModelItems.ParseEmbeddedProxy | MHX2/MHX2/MHX2Model.cpp:1588-1589 | the embedded proxy is parsed in place, as ParseProxy specifies |
| ModelItems.ParseEmbeddedSkeleton | MHX2/MHX2/MHX2Model.cpp:1702-1709 | the model's embedded skeleton is parsed in place, as ParseSkeleton specifies |
| Vertices.CalculateStride | MHX2/MHX2/Vertex.cpp:59-91 | the stride is unknown exactly for an unknown coordinate type; otherwise it is between 2 and 12 and at least the position size |
| Vertices.StrideGrowsWithFlags | MHX2/MHX2/Vertex.cpp:59-91 | normals add 3 floats, texture coordinates 2, colours 4, and XYZ one more than XY |
| Vertices.KnownStrides | MHX2/MHX2/Vertex.cpp:37-91 | a new vertex has stride 3; XYZ with texture coordinates and colours gives 9; bare XY gives 2; everything gives 12 |
| Vertices.CompareFormatIgnoresNameAndBuffer | MHX2/MHX2/Vertex.cpp:93-99 | two vertices compare equal exactly when they agree on everything but name and buffer |
| Vertices.CompareFormatIsEquivalence | MHX2/MHX2/Vertex.cpp:93-99 | format comparison is reflexive, symmetric and transitive |
| Vertices.Clone | MHX2/MHX2/Vertex.cpp:47-57 | a clone has the same format, name and stride, and an empty buffer |
| Vertices.CloneOfEmpty | MHX2/MHX2/Vertex.cpp:47-57 | cloning a vertex with an empty buffer gives it back, and cloning twice is cloning once |
| SkeletonBuilder.PreOrder | MHX2/MHX2/MHX2Model.cpp:2026-2049 | the bones a depth-first search visits start at the given bone, and every one of them is a bone of the skeleton at or after it |
| SkeletonBuilder.FirstNamed | MHX2/MHX2/MHX2Model.cpp:2033-2046 | the first bone of a visit order with the name, or none exactly when no bone in it has the name |
| SkeletonBuilder.FirstNamedAppend | MHX2/MHX2/MHX2Model.cpp:2040-2046 | searching a concatenation finds a match in the first part before looking at the second |
| SkeletonBuilder.FirstNamedIsFirst | MHX2/MHX2/MHX2Model.cpp:2040-2046 | the bone found comes before every other bone of the order with that name |
| SkeletonBuilder.GetBone | MHX2/MHX2/MHX2Model.cpp:2026-2049 | GetBone from no bone returns none; from a bone it returns the first bone with the name in depth-first order |
| SkeletonBuilder.ChildInPreOrder | MHX2/MHX2/MHX2Model.cpp:2037-2046 | the children of a visited bone are visited too |
| SkeletonBuilder.AllReachable | MHX2/MHX2/MHX2Model.cpp:2026-2049 | in a well-formed skeleton every bone is reachable from the root |
| SkeletonBuilder.ParentOf | MHX2/MHX2/MHX2Model.cpp:2003-2004 | a resolved parent is a bone of the skeleton with the bone's parent name |
| SkeletonBuilder.ParentResolvesIffEarlier | MHX2/MHX2/MHX2Model.cpp:2003-2004 | a non-empty parent name resolves exactly when a bone with that name was added before |
| SkeletonBuilder.Attach | MHX2/MHX2/MHX2Model.cpp:2015-2020 | attaching a bone appends it and lists it among its parent's children; every other bone is kept |
| SkeletonBuilder.AttachOrdered | MHX2/MHX2/MHX2Model.cpp:2015-2020 | after attaching, every child still comes after its parent |
| SkeletonBuilder.AttachLinks | MHX2/MHX2/MHX2Model.cpp:2015-2020 | after attaching, every listed child names its parent as parent |
| SkeletonBuilder.AttachListed | MHX2/MHX2/MHX2Model.cpp:2015-2020 | after attaching, every bone with a parent is listed among that parent's children |
| SkeletonBuilder.AddBoneWellFormed | MHX2/MHX2/MHX2Model.cpp:1992-2021 | adding a bone keeps the skeleton well formed |
| SkeletonBuilder.AddBoneOutcome | MHX2/MHX2/MHX2Model.cpp:1992-2021 | adding a bone fails exactly when it has no resolvable parent while a root exists, and then changes nothing; otherwise the bone is appended with its data, as the root or as the last child of its parent |
| SkeletonBuilder.BuildBones | MHX2/MHX2/MHX2Model.cpp:1989-2021 | building the bones one by one keeps the skeleton well formed |
| SkeletonBuilder.BuildBonesKeeps | MHX2/MHX2/MHX2Model.cpp:1989-2021 | building keeps the bones already there and adds at most one per item, all of them exactly on success |
| SkeletonBuilder.BuildBonesCarries | MHX2/MHX2/MHX2Model.cpp:1995-2000 | on success each new bone carries the name, head, tail, roll and matrix of its item, in order |
| SkeletonBuilder.BuildFromEmpty | MHX2/MHX2/MHX2Model.cpp:2006-2014 | from an empty skeleton, no bones gives an empty success, and a successful build has the first bone as root |
| SkeletonBuilder.SecondRootFails | MHX2/MHX2/MHX2Model.cpp:2009-2013 | a second root bone makes the build fail and leaves the skeleton as it was |
| SkeletonBuilder.Skeleton.constructor | MHX2/MHX2/MHX2Model.cpp:49-52 | a new skeleton has no name, zero offset, scale 1 and no bones |
| SkeletonBuilder.BuildSkeleton | MHX2/MHX2/MHX2Model.cpp:1978-2024 | no target skeleton fails; otherwise name, scale and offset are copied and the bone tree is the one BuildBones gives |
| BoneMatrix.WellFormedParentsBefore | MHX2/MHX2/MHX2Model.cpp:1930-1940 | in a built skeleton every parent precedes its child, so walking up the parents ends |
| BoneMatrix.Ancestors | MHX2/MHX2/MHX2Model.cpp:1930-1940 | the bones visited walking up from a bone start with that bone |
| BoneMatrix.AncestorsFollowParents | MHX2/MHX2/MHX2Model.cpp:1930-1940 | each bone of the walk is the parent of the one before, and the last has no parent |
| BoneMatrix.AncestorsReachRoot | MHX2/MHX2/MHX2Model.cpp:1930-1940 | in a well-formed skeleton the walk ends at the root |
| BoneMatrix.GetBoneMatrix | MHX2/MHX2/MHX2Model.cpp:1920-1951 | no bone leaves the matrix; otherwise it is the product of the matrices from the bone up to the root, times the initial matrix unless that is the identity |
| Geometry.VertexBuffer.constructor | MHX2/MHX2/MHX2Model.cpp:2063-2072 | a new buffer has the given format, culling and material and no data |
| Geometry.Model.constructor | MHX2/MHX2/MHX2Model.cpp:87-89 | a new model has no skeleton and no mesh |
| Geometry.PositionPart | MHX2/MHX2/MHX2Model.cpp:2199-2215 | the position part has 2 or 3 floats, taken from the vertex or zero |
| Geometry.NormalPart | MHX2/MHX2/MHX2Model.cpp:2217-2237 | with normals the part is the normal's 3 floats, otherwise empty |
| Geometry.TexCoordPart | MHX2/MHX2/MHX2Model.cpp:2239-2257 | with texture coordinates the part is the uv pair, otherwise empty |
| Geometry.ColorPart | MHX2/MHX2/MHX2Model.cpp:2259-2275 | with colours the part is the 4 channels of the colour, otherwise empty; the colour is the callback's for the normal and group, or the material's (the callback's buffer argument is left out) |
| Geometry.VertexValuesFitStride | MHX2/MHX2/MHX2Model.cpp:2178-2278 | the floats written for one vertex are exactly as many as the computed stride |
| Geometry.VertexLayout | MHX2/MHX2/MHX2Model.cpp:2178-2278 | one vertex is laid out as position, then normal, texture coordinates and colour, each where its flag puts it |
| Geometry.VertexBufferAdd | MHX2/MHX2/MHX2Model.cpp:2178-2278 | adding succeeds exactly for a buffer with a non-zero stride; it then appends exactly the vertex's floats, and otherwise leaves the data |
| Geometry.AsWrittenOverrunsXY | MHX2/MHX2/MHX2Model.cpp:2190-2215 | for XY the source writes one float more than the stride; for XYZ it writes what the stride says |
| Geometry.AsWrittenOverrunExample | MHX2/MHX2/MHX2Model.cpp:2190-2215 | a bare XY vertex grows the buffer by 2 in the stride but writes 3 floats |
| Geometry.FanTriangle | MHX2/MHX2/MHX2Model.cpp:2127-2130 | triangle j of a fan uses corners 0, j+1 and j+2 |
| Geometry.FanIndicesBound | MHX2/MHX2/MHX2Model.cpp:2127-2130 | the first j fan triangles list 3j corners, none beyond j+1 |
| Geometry.FanIndicesShape | MHX2/MHX2/MHX2Model.cpp:2127-2130 | corner k of fan triangle t sits at position 3t+k |
| Geometry.FanInFace | MHX2/MHX2/MHX2Model.cpp:2127-2130 | the fan of a face with n corners uses only corners of the face |
| Geometry.CornerLength | MHX2/MHX2/MHX2Model.cpp:2134-2139 | one corner adds exactly one stride of floats |
| Geometry.CornersLength | MHX2/MHX2/MHX2Model.cpp:2127-2139 | a run of corners adds one stride per corner |
| Geometry.FaceLength | MHX2/MHX2/MHX2Model.cpp:2120-2139 | a face with n >= 3 corners adds 3(n-2) strides of floats, a face with fewer adds none |
| Geometry.FacesLength | MHX2/MHX2/MHX2Model.cpp:2120-2139 | the faces add one stride per fan vertex, summed over the faces |
| Geometry.FaceCornerAt | MHX2/MHX2/MHX2Model.cpp:2127-2139 | vertex 3t+k of a face's floats is corner k of fan triangle t |
| Geometry.CornersValuesAt | MHX2/MHX2/MHX2Model.cpp:2127-2139 | vertex q of a run of corners is the q-th corner's floats |
| Geometry.CornersValuesAppend | MHX2/MHX2/MHX2Model.cpp:2127-2139 | the floats of two runs of corners are the concatenation of their floats |
| Geometry.AddFanTriangle | MHX2/MHX2/MHX2Model.cpp:2128-2139 | one fan triangle appends the floats of its three corners |
| Geometry.AddFace | MHX2/MHX2/MHX2Model.cpp:2122-2139 | one face appends the floats of its whole fan |
| Geometry.AddFaces | MHX2/MHX2/MHX2Model.cpp:2120-2165 | the face loop fills an empty buffer with the floats of all faces, in order |
| Geometry.FirstMaterial | MHX2/MHX2/MHX2Model.cpp:2085-2094 | the material search returns the first material with the geometry's name, or none when no material has it |
| Geometry.TextureLoads | MHX2/MHX2/MHX2Model.cpp:2083-2105 | the texture loader is called at most once, exactly when it is set and a material matches, with that material's diffuse texture and transparency |
| Loader.BufferFormat | MHX2/MHX2/MHX2Model.cpp:2065-2078 | the buffer's format is the template's, with type Triangles and a computed stride of at least 2 |
| Loader.DefaultBufferStride | MHX2/MHX2/MHX2Model.cpp:1778-1779 | with the default template (texture coordinates and colours) the buffer stride is 9 |
| Loader.MHX2Model.constructor | MHX2/MHX2/MHX2Model.cpp:1772-1787 | a new loader has no model, an empty log, the default templates and no callbacks |
| Loader.MHX2Model.SetVertFormatTemplate | MHX2/MHX2/MHX2Model.cpp:1953-1956 | the format template is replaced and nothing else changes |
| Loader.MHX2Model.SetVertCullingTemplate | MHX2/MHX2/MHX2Model.cpp:1958-1961 | the culling template is replaced and nothing else changes |
| Loader.MHX2Model.SetMaterial | MHX2/MHX2/MHX2Model.cpp:1963-1966 | the material template is replaced and nothing else changes |
| Loader.MHX2Model.SetOnGetVertexColor | MHX2/MHX2/MHX2Model.cpp:1968-1971 | the vertex colour callback is replaced and nothing else changes |
| Loader.MHX2Model.SetOnLoadTexture | MHX2/MHX2/MHX2Model.cpp:1973-1976 | the texture loader is replaced and nothing else changes |
| Loader.MHX2Model.FindMaterial | MHX2/MHX2/MHX2Model.cpp:2085-2094 | the search loop returns the first material with the name |
| Loader.MHX2Model.FillBuffer | MHX2/MHX2/MHX2Model.cpp:2062-2165 | the new buffer has the templates' format, culling and material, the loaded texture, and the floats of every face |
| Loader.MHX2Model.LoadTexture | MHX2/MHX2/MHX2Model.cpp:2083-2105 | the buffer's material gets the loaded texture and the transparency of the first matching material, and the loader is called at most once |
| Loader.MHX2Model.BuildGeometry | MHX2/MHX2/MHX2Model.cpp:2051-2176 | no target model fails; otherwise exactly one new mesh with one new buffer is appended, and the meshes before it and the skeleton are kept |
| Loader.MHX2Model.BuildGeometries | MHX2/MHX2/MHX2Model.cpp:1904-1909 | each geometry, in order, adds its own mesh |
| Loader.MHX2Model.BuildModel | MHX2/MHX2/MHX2Model.cpp:1894-1911 | the model is built exactly when the skeleton builds; it then holds the skeleton and one mesh per geometry |
| Loader.MHX2Model.Read | MHX2/MHX2/MHX2Model.cpp:1863-1913 | Read clears the log and drops the old model; no document or a non-object fails with an empty log; otherwise the log holds the parse's lines, and a model is published exactly when the parse and the skeleton succeed |
| StrictSpec.StrictBone | MHX2/MHX2/MHX2Reader.cpp:197-282 | IBone::Parse never logs |
| StrictSpec.StrictBoneSeq | MHX2/MHX2/MHX2Reader.cpp:209-217 | the walk over a bone's children never logs |
| StrictSpec.StrictBoneElement | MHX2/MHX2/MHX2Reader.cpp:332-341 | a bone list element is read from a new bone and never logs |
| StrictSpec.StrictSkeleton | MHX2/MHX2/MHX2Reader.cpp:300-383 | ISkeleton::Parse never logs |
| StrictSpec.StrictSkeletonSeq | MHX2/MHX2/MHX2Reader.cpp:313-321 | the walk over a skeleton's children never logs |
| StrictSpec.StrictMaterial | MHX2/MHX2/MHX2Reader.cpp:415-665 | IMaterial::Parse never logs |
| StrictSpec.StrictMaterialSeq | MHX2/MHX2/MHX2Reader.cpp:428-435 | the walk over a material's children never logs |
| StrictSpec.StrictMaterialElement | MHX2/MHX2/MHX2Reader.cpp:934-943 | a material list element is read from a new material and never logs |
| StrictSpec.StrictLicense | MHX2/MHX2/MHX2Reader.cpp:676-726 | ILicense::Parse never logs |
| StrictSpec.StrictLicenseSeq | MHX2/MHX2/MHX2Reader.cpp:689-696 | the walk over a license's children never logs |
| StrictSpec.StrictGeometry | MHX2/MHX2/MHX2Reader.cpp:740-840 | IGeometry::Parse never logs |
| StrictSpec.StrictGeometrySeq | MHX2/MHX2/MHX2Reader.cpp:753-759 | the walk over a geometry's children never logs |
| StrictSpec.StrictGeometryElement | MHX2/MHX2/MHX2Reader.cpp:951-960 | a geometry list element is read from a new geometry and never logs |
| StrictSpec.StrictModel | MHX2/MHX2/MHX2Reader.cpp:908-985 | IModel::Parse never logs |
| StrictSpec.StrictModelSeq | MHX2/MHX2/MHX2Reader.cpp:965-970 | the walk over the model's children never logs |
| StrictSpec.ListAgrees | MHX2/MHX2/MHX2Reader.cpp:931-963 | when every element read strictly agrees with the lenient read, a list read strictly agrees with the lenient list read and logs nothing |
| StrictSpec.ListAgreesBack | MHX2/MHX2/MHX2Reader.cpp:931-963 | conversely, a lenient list read without warnings is also the strict list read |
| StrictSpec.BoneAgrees | MHX2/MHX2/MHX2Reader.cpp:197-282 | a bone the strict reader accepts is read the same by the lenient reader, with no warning; a bone the lenient reader reads without warning is accepted the same by the strict reader |
| StrictSpec.BoneSeqAgrees | MHX2/MHX2/MHX2Reader.cpp:209-217 | the same for the walk over a bone's children |
| StrictSpec.BonesAgree | MHX2/MHX2/MHX2Reader.cpp:329-343 | the same for the bones list, whose strict reading logs nothing |
| StrictSpec.SkeletonAgrees | MHX2/MHX2/MHX2Reader.cpp:300-383 | a skeleton the strict reader accepts is read the same by the lenient reader, with no warning, and conversely |
| StrictSpec.SkeletonSeqAgrees | MHX2/MHX2/MHX2Reader.cpp:313-321 | the same for the walk over a skeleton's children |
| StrictSpec.MaterialAgrees | MHX2/MHX2/MHX2Reader.cpp:415-665 | a material the strict reader accepts is read the same by the lenient reader, with no warning, and conversely |
| StrictSpec.MaterialSeqAgrees | MHX2/MHX2/MHX2Reader.cpp:428-435 | the same for the walk over a material's children |
| StrictSpec.LicenseAgrees | MHX2/MHX2/MHX2Reader.cpp:676-726 | a license the strict reader accepts is read the same by the lenient reader, with no warning, and conversely |
| StrictSpec.LicenseSeqAgrees | MHX2/MHX2/MHX2Reader.cpp:689-696 | the same for the walk over a license's children |
| StrictSpec.GeometryAgrees | MHX2/MHX2/MHX2Reader.cpp:740-840 | a geometry the strict reader accepts is read the same by the lenient reader, with no warning; the strict reader never touches mesh, seed mesh, proxy seed mesh or proxy |
| StrictSpec.GeometrySeqAgrees | MHX2/MHX2/MHX2Reader.cpp:753-759 | the same for the walk over a geometry's children |
| StrictSpec.MeshOnlyLenient | MHX2/MHX2/MHX2Reader.cpp:770-774 | an empty mesh container is read by the lenient reader without a warning but refused by the strict one, so the converse of GeometryAgrees does not hold |
| StrictSpec.ModelAgrees | MHX2/MHX2/MHX2Reader.cpp:908-985 | a model the strict reader accepts is read the same by the lenient reader, with no warning |
| StrictSpec.ModelSeqAgrees | MHX2/MHX2/MHX2Reader.cpp:965-970 | the same for the walk over the model's children |
| StrictSpec.BoneUnknownKeysFail | MHX2/MHX2/MHX2Reader.cpp:218-239 | a bone key other than head, tail, matrix, name, parent and roll fails, where the lenient reader warns once |
| StrictSpec.SkeletonUnknownKeysFail | MHX2/MHX2/MHX2Reader.cpp:312-346 | a skeleton key other than offset, bones, name and scale fails |
| StrictSpec.MaterialUnknownContainerFails | MHX2/MHX2/MHX2Reader.cpp:437-461 | a named material container that is not one of the four colours fails, where the lenient reader warns once |
| StrictSpec.MaterialUnknownLeafFails | MHX2/MHX2/MHX2Reader.cpp:463-602 | an unknown string or number key of a material fails |
| StrictSpec.MaterialUnknownFlagFails | MHX2/MHX2/MHX2Reader.cpp:604-661 | an unknown boolean key of a material fails |
| StrictSpec.LicenseUnknownKeysFail | MHX2/MHX2/MHX2Reader.cpp:688-699 | a license key other than author, license and homepage fails |
| StrictSpec.ModelStrictness | MHX2/MHX2/MHX2Reader.cpp:908-985 | under the model an unknown string, a number, a boolean or a null fails; an unknown container is walked into |
| StrictSpec.MeshKeyFails | MHX2/MHX2/MHX2Reader.cpp:762-774 | a mesh key inside a geometry fails, because its branch is commented out |
| StrictSpec.MeshAbortsGeometry | MHX2/MHX2/MHX2Reader.cpp:753-774 | a mesh child anywhere among a geometry's children makes the geometry fail |
| StrictSpec.MeshAbortsGeometries | MHX2/MHX2/MHX2Reader.cpp:948-963 | a geometry with a mesh child makes the geometries list fail |
| StrictSpec.MeshAbortsModelSeq | MHX2/MHX2/MHX2Reader.cpp:908-985 | a geometries list with such a geometry makes the model walk fail |
| StrictSpec.MeshAbortsLoad | MHX2/MHX2/MHX2Reader.cpp:1067-1092 | a document whose geometries list has a geometry with a mesh child cannot be read at all |
| StrictSpec.PartialModelKept | MHX2/MHX2/MHX2Reader.cpp:972-981 | a document with a version and an unknown name key fails strictly, keeping the version already read, while the lenient reader accepts it with one warning |
| StrictReader.ReadSlots | MHX2/MHX2/MHX2Reader.cpp:94-144 | the strict slot filler fills the slots exactly as ParseSlots, without the log |
| StrictReader.ParseVector | MHX2/MHX2/MHX2Reader.cpp:94-144 | IItem::ParseVector fills the three coordinates as ParseSlots specifies |
| StrictReader.ParseColor | MHX2/MHX2/MHX2Reader.cpp:40-92 | IItem::ParseColor fills the four channels as ParseSlots specifies |
| StrictReader.ParseMatrix | MHX2/MHX2/MHX2Reader.cpp:146-185 | IItem::ParseMatrix fills the matrix and indices as ParseMatrixSpec specifies |
| StrictReader.BoneRecord.constructor | MHX2/MHX2/MHX2Reader.cpp:189-192 | a new bone holds the default bone, with the assumed vector and matrix defaults (see Left out) |
| StrictReader.BoneRecord.Parse | MHX2/MHX2/MHX2Reader.cpp:197-282 | IBone::Parse leaves the bone and the result that StrictBone specifies |
| StrictReader.BoneRecord.ParseChildren | MHX2/MHX2/MHX2Reader.cpp:209-217 | the children of a bone node are read in order |
| StrictReader.SkeletonRecord.constructor | MHX2/MHX2/MHX2Reader.cpp:286-289 | a new skeleton holds the default skeleton |
| StrictReader.SkeletonRecord.Of | MHX2/MHX2/MHX2Reader.cpp:286-289 | a skeleton holding a given skeleton record |
| StrictReader.SkeletonRecord.Parse | MHX2/MHX2/MHX2Reader.cpp:300-383 | ISkeleton::Parse leaves the skeleton and the result that StrictSkeleton specifies |
| StrictReader.SkeletonRecord.ParseChildren | MHX2/MHX2/MHX2Reader.cpp:313-321 | the children of a skeleton node are read in order |
| StrictReader.SkeletonRecord.ParseBones | MHX2/MHX2/MHX2Reader.cpp:329-343 | the bones list is read element by element and the bones read before a failure stay appended |
| StrictReader.MaterialRecord.constructor | MHX2/MHX2/MHX2Reader.cpp:387-410 | a new material holds the default material |
| StrictReader.MaterialRecord.Parse | MHX2/MHX2/MHX2Reader.cpp:415-665 | IMaterial::Parse leaves the material and the result that StrictMaterial specifies |
| StrictReader.MaterialRecord.ParseColorValue | MHX2/MHX2/MHX2Reader.cpp:437-461 | a named colour container fills its colour; any other name fails |
| StrictReader.MaterialRecord.ParseStringValue | MHX2/MHX2/MHX2Reader.cpp:463-484 | a known string key sets its field; any other fails |
| StrictReader.MaterialRecord.ParseNumberValue | MHX2/MHX2/MHX2Reader.cpp:486-602 | a known number key sets its field; any other fails |
| StrictReader.MaterialRecord.ParseFlagValue | MHX2/MHX2/MHX2Reader.cpp:604-661 | a known boolean key sets its flag; any other fails |
| StrictReader.MaterialRecord.ParseChildren | MHX2/MHX2/MHX2Reader.cpp:428-435 | the children of a material node are read in order |
| StrictReader.LicenseRecord.Of | MHX2/MHX2/MHX2Reader.cpp:669-671 | a license holding a given license record |
| StrictReader.LicenseRecord.Parse | MHX2/MHX2/MHX2Reader.cpp:676-726 | ILicense::Parse leaves the license and the result that StrictLicense specifies |
| StrictReader.LicenseRecord.ParseChildren | MHX2/MHX2/MHX2Reader.cpp:689-696 | the children of a license node are read in order |
| StrictReader.GeometryRecord.constructor | MHX2/MHX2/MHX2Reader.cpp:730-735 | a new geometry holds the default geometry |
| StrictReader.GeometryRecord.Parse | MHX2/MHX2/MHX2Reader.cpp:740-840 | IGeometry::Parse leaves the geometry and the result that StrictGeometry specifies |
| StrictReader.GeometryRecord.ParseChildren | MHX2/MHX2/MHX2Reader.cpp:753-759 | the children of a geometry node are read in order |
| StrictReader.ModelRecord.constructor | MHX2/MHX2/MHX2Reader.cpp:844-846 | a new model holds the default model |
| StrictReader.ModelRecord.Parse | MHX2/MHX2/MHX2Reader.cpp:908-985 | IModel::Parse leaves the model and the result that StrictModel specifies |
| StrictReader.ModelRecord.ParseChildren | MHX2/MHX2/MHX2Reader.cpp:965-970 | the children of the model node are read in order |
| StrictReader.ModelRecord.ParseMaterials | MHX2/MHX2/MHX2Reader.cpp:931-946 | the materials list is read element by element and appended |
| StrictReader.ModelRecord.ParseGeometries | MHX2/MHX2/MHX2Reader.cpp:948-963 | the geometries list is read element by element and appended |
| StrictReader.Reader.constructor | MHX2/MHX2/MHX2Reader.cpp:989-991 | a new reader holds no model |
| StrictReader.Reader.Read | MHX2/MHX2/MHX2Reader.cpp:1067-1092 | no document or a non-object fails and leaves no model; otherwise a new model holds what StrictModel reads, and the result is its success |
| Shaders.LookupEmptyIffMissing | MHX2/MHX2/Shader.cpp:42-52 | in a dictionary without empty names, a lookup is empty exactly when the attribute has no entry |
| Shaders.WithNameFacts | MHX2/MHX2/Shader.cpp:54-63 | after setting a non-empty name the lookup returns it; other attributes keep their names; an empty name changes nothing; setting twice is setting once; no empty name gets in |
| Shaders.Shader.constructor | MHX2/MHX2/Shader.cpp:34-37 | a new shader names exactly the thirteen populated attributes by their default names, and holds no empty name |
| Shaders.Shader.GetAttributeName | MHX2/MHX2/Shader.cpp:42-52 | a non-empty result is the attribute's entry; with no empty names stored, an empty result means the attribute has no entry |
| Shaders.Shader.SetAttributeName | MHX2/MHX2/Shader.cpp:54-63 | an empty name leaves the dictionary; any other replaces the attribute's entry; no empty name gets in |
| Shaders.Shader.PopulateAttributeDict | MHX2/MHX2/Shader.cpp:65-80 | each of the thirteen attributes gets its default name, and every other entry is kept |
| Textures.Texture.constructor | MHX2/MHX2/Texture.cpp:37-45 | a new texture has 24-bit format, 2D target, repeat wrapping, linear filters and zero size |
| Textures.Texture.Clear | MHX2/MHX2/Texture.cpp:50-59 | clearing restores the constructed values, keeps the hash code, and changes nothing on a texture that already holds them |
| Textures.ModelTexture.constructor | MHX2/MHX2/Texture.cpp:63-66 | a new slot is disabled, unnamed and holds no texture |
| Textures.ModelTexture.Clear | MHX2/MHX2/Texture.cpp:71-79 | clearing empties the name, disables the slot, keeps the pointer, and clears a texture that is there |
| Textures.ModelTexture.Select | MHX2/MHX2/Texture.cpp:81-89 | a texture is selected exactly when the slot is enabled and holds one, and it is that texture |
| PngTexture.AsWrittenBytesPerRowCases | MHX2/MHX2/PngTextureHelper.cpp:89 | the computed row length is 3w when 3w is 0 or 2 modulo 4, 3w+2 when it is 1, and 3w-2 when it is 3, which happens exactly when w is 1 modulo 4 |
| PngTexture.BytesPerRowAgrees | MHX2/MHX2/PngTextureHelper.cpp:89 | the computed row length equals the packed 3w exactly for even widths |
| PngTexture.AsWrittenReadsPastCopy | MHX2/MHX2/PngTextureHelper.cpp:89-112 | for a width of 1 modulo 4 the last pixel of the first output row (x = width-1) reads one byte past the end of the bitmap copy |
| PngTexture.AsWrittenOverrunExample | MHX2/MHX2/PngTextureHelper.cpp:89-112 | a 1x1 image gets a 1-byte copy and reads its red channel at position 2 |
| PngTexture.TargetInside | MHX2/MHX2/PngTextureHelper.cpp:103-112 | every write lands inside the width*height*3 pixel array |
| PngTexture.SourceInside | MHX2/MHX2/PngTextureHelper.cpp:89-112 | with packed rows every read lands inside the bitmap copy |
| PngTexture.PixelBytes | MHX2/MHX2/PngTextureHelper.cpp:108-112 | an output pixel is three bytes, read from the mirrored row with the channels reversed |
| PngTexture.RowBytes | MHX2/MHX2/PngTextureHelper.cpp:109-112 | the first n pixels of an output row are 3n bytes |
| PngTexture.ImageBytes | MHX2/MHX2/PngTextureHelper.cpp:108-112 | the first m output rows are 3wm bytes |
| PngTexture.RowBytesAt | MHX2/MHX2/PngTextureHelper.cpp:109-112 | byte 3x+c of an output row is channel 2-c of pixel x on the mirrored row |
| PngTexture.ImageBytesAt | MHX2/MHX2/PngTextureHelper.cpp:108-112 | output byte 3(wy+x)+c is source byte bytesPerRow*(h-1-y)+3x+(2-c) |
| PngTexture.FlippedImage | MHX2/MHX2/PngTextureHelper.cpp:103-112 | the pixel array has width*height*3 bytes, and each one is its source byte under the vertical flip and the channel swap |
| PngTexture.LoadBitmapData | MHX2/MHX2/PngTextureHelper.cpp:71-134 | the width and height are copied, the format is 24, the length is width*height*3, and the pixel array holds the flipped image |

## Left out

- File and text input: `Open` reads a file into a string; `Read` and `MHX2Reader::Read` hand it to the bundled JSON parser. The parser is not part of this model. Both readers take the parsed document, or none when parsing fails.
- The demo program, the OpenGL renderer and `PngTextureHelper::OpenBitmapData` (PNG decoding through libpng) are not part of this model. `LoadBitmapData` takes the decoded image size and buffer.
- Callbacks: the vertex colour callback and the texture loader are oracle function values. The colour callback is not handed the buffer being filled (see Geometry.ColorPart). The texture loader returns an optional texture id. The model records the calls it receives, in `TextureLoads`, and does not accumulate them across geometries. Texture creation and ownership are not modelled.
- Memory management: destructors, `delete`, the unique pointers and the exceptions thrown when an allocation fails.
- Weights and deformers: the loader always runs with `m_PoseOnly` true, so the branches that build bone weights (MHX2Model.cpp:2110-2117 and 2141-2163) never run and are not modelled.
- Geometry.VertexBufferAdd: models the corrected layout, with as many position floats as the coordinate type has. The source always writes three (see Findings).
- Loader.MHX2Model.BuildGeometry: requires that the coordinate type of the format template is known. `CalculateStride` throws for an unknown one, and the throw is not modelled.
- Loader.MHX2Model.BuildGeometry: requires (`Triangulable`) every face to have at least two values and a uv face beside it, and every index of a face with three or more values to be in range. The source indexes without checking, and for a face of fewer than two values `valueCount - 2` wraps around. Read passes the same requirement on to every parsed geometry.
- Loader.MHX2Model.BuildGeometry: takes the call `m_Format.CalculateStride()` (MHX2Model.cpp:2078) to store the stride that Vertex.cpp:59-91 computes in the buffer's format. `VertexFormat` is declared in none of the files modelled here. The `Vertex::CalculateStride` of Vertex.cpp returns the stride and does not store it; if `VertexFormat` did the same, the buffer would keep the template's stride, and `VertexBufferAdd` would add nothing when that stride is 0.
- Loader.MHX2Model.Read: the coordinate type of the format template is a precondition (`ModelTemplatesOk`) for the same reason.
- The enums and records of Vertex.h, Texture.h and MHX2Model.h appear only with the fields the code touches. `ColorF`'s default is taken to be zero, which gives the specular colour of a new material.
- Json.TypeCode: json.h, the bundled JSON parser's header, is not part of this model. The type codes written into log lines (MHX2Model.h:734-756 and MHX2Model.cpp:117-142) are taken from the declaration order of that parser's type enum, assumed to be null 0, object 1, array 2, string 3, integer 4, float 5, boolean 6. Every code, including the bound and the object and array codes the contract states, rests on that assumption.
- ModelItems.BoneItem.constructor: a new bone item's head and tail are taken to be zero and its matrix the identity. `IBoneItem`'s constructor (MHX2Model.cpp:341-344) sets only the roll. The rest comes from the default constructors of `Vector3F` and `Matrix4x4F`, which are not part of this model.
- StrictReader.BoneRecord.constructor: rests on the same assumption about the `Vector3F` and `Matrix4x4F` defaults.
- Vector defaults elsewhere: the zero offset of a new skeleton item, geometry item, skeleton record, geometry record and `Skeleton`, and the zero texture coordinate of a new uv item, also assume that `Vector3F` and `Vector2F` start at zero.
- Geometry.ColorPart: the colour comes from a callback of the vertex normal and group index only. The source callback (MHX2Model.h:150) is also handed the buffer being filled, which at the call (MHX2Model.cpp:2266) is already resized and partly written. The model states its results only for callbacks that ignore that argument.
- Geometry.VertexBufferAdd: its closed form, and those of Geometry.VertexLayout, Geometry.AddFaces and Loader.MHX2Model.FillBuffer built on it, hold only for a colour callback that ignores the buffer it is handed (see Geometry.ColorPart).
- Shader.h is not part of this model beyond the attribute names the dictionary uses.
- Textures.Texture.constructor: the hash code is left unset, as in the source (Texture.cpp:37-45).
- Textures.ModelTexture.Select: returns the texture it forwards to instead of calling its abstract `Select`.
- StrictSpec.GeometryAgrees: holds in one direction only, because the strict reader refuses every mesh key. `MeshOnlyLenient` shows why the other direction fails.
- StrictSpec.ModelAgrees: holds in one direction only, for the same reason.
- PngTexture.LoadBitmapData: uses the packed row length 3*width instead of the formula at PngTextureHelper.cpp:89 (see Findings). It requires the buffer to hold at least one bitmap's worth of bytes, which the `memcpy` at line 95 needs as well.
- PngTexture.LoadBitmapData: sizes are unbounded. The truncation of `bytesPerRow` and `bitmapSize` to 32-bit `unsigned` for images more than about a billion bytes wide is not modelled.
- Floating point: the source reads the numbers of vectors, colours, matrices and faces, and the bone, skeleton and material values, through a single-precision `float`. It converts an integer leaf with `float(pJson->int_value)` and a double leaf by assignment, and both round. The model reads every number as an exact `real` (`NumberValue`). Integers above 2^24 and most doubles are therefore not rounded as the source rounds them. The arithmetic of `GetBoneMatrix` is exact for the same reason.
- ModelSpec.FaceFlattens: the flattened indices are the exact integer parts of the leaves. The source passes an integer leaf through `float` before storing it as a `size_t` (MHX2Model.cpp:941-942), so an index above 2^24 is rounded there: 16777217 becomes 16777216. The model does not round it.
- ModelSpec.RunFaceResult: the same exact conversion of integer indices, with no rounding through `float`.
- ModelSpec.RunFaceNumber: the same exact conversion for the first number of a face.
- ModelSpec.SizeTs: converts each number exactly, where the source first rounds an integer leaf to the nearest `float`.
- Integer widths elsewhere: indices converted from JSON numbers are reduced to the 64-bit `size_t` range. Other counts are unbounded.

## Findings

| source | as written | input that shows it | evidently intended | confidence | as-written member | corrected member |
|---|---|---|---|---|---|---|
| MHX2/MHX2/MHX2Model.cpp:2197-2215 | `VertexBufferAdd` grows the buffer by the stride, which counts two position floats for XY, but always writes three and moves the offset by 3 | a bare XY format (stride 2): the buffer grows by 2 floats, and the write to `m_Data[offset + 2]` lands one past its end; with more flags every later part is shifted by one float and the last one overruns | write as many position floats as the coordinate type has | medium, not executed | Geometry.AsWrittenOverrunsXY | Geometry.VertexBufferAdd |
| MHX2/MHX2/PngTextureHelper.cpp:89 | `bytesPerRow = ((w*3+3)/4)*4 - (w*3 % 4)` gives 3w-2 when w is 1 modulo 4, and 3w+2 when w is 3 modulo 4 | a 1x1 image: `bytesPerRow` is 1 and `bitmapSize` is 1, yet the red channel is read at position 2 of the copy; for w ≡ 3 mod 4 the `memcpy` at line 95 copies (3w+2)·h bytes from a decoded buffer of 3w·h packed bytes, reading 2h bytes past it | packed rows of 3w bytes, as the decoded buffer holds them | medium, not executed | PngTexture.AsWrittenReadsPastCopy | PngTexture.LoadBitmapData |
