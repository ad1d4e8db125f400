/** Mesh import of src/graphics/mesh.rs: every primitive of the first glTF
    mesh becomes one sub-mesh and one PBR material with consecutive material
    indices; vertices are assembled from the primitive's attributes with
    zero defaults; glTF primitive modes map to GPU topologies.

    The glTF document arrives already decoded: primitives are records of their
    optional attribute arrays. Floats are only copied, never computed with, so
    a float is an opaque `Scalar`. */
module MeshImport {
  import opened Gpu
  import Paths

  type Scalar = int

  datatype Vec2 = Vec2(x: Scalar, y: Scalar)

  datatype Vec3 = Vec3(x: Scalar, y: Scalar, z: Scalar)

  datatype Vec4 = Vec4(x: Scalar, y: Scalar, z: Scalar, w: Scalar)

  const Zero2 := Vec2(0, 0)
  const Zero3 := Vec3(0, 0, 0)
  const Zero4 := Vec4(0, 0, 0, 0)

  /** `MeshVertexData`: one vertex as the vertex buffer holds it. */
  datatype MeshVertexData = MeshVertexData(position: Vec3, normal: Vec3, uv: Vec2, tangent: Vec4)

  /** `MeshVertexData::default()`: everything zero. */
  const DefaultVertex := MeshVertexData(Zero3, Zero3, Zero2, Zero4)

  // ---------------------------------------------------------------------
  // Memory layout of MeshVertexData (`#[repr(C)]`, fields of f32)

  datatype VertexField = Position | Normal | Uv | Tangent

  /** The fields in declaration order. */
  const Fields: seq<VertexField> := [Position, Normal, Uv, Tangent]

  function FieldFloats(f: VertexField): nat
  {
    match f
    case Position => 3
    case Normal => 3
    case Uv => 2
    case Tangent => 4
  }

  /** Every field is made of f32s: four bytes each, four-byte aligned. */
  const FloatSize: nat := 4

  function FieldSize(f: VertexField): nat
  {
    FloatSize * FieldFloats(f)
  }

  /** `n` rounded up to the next multiple of the f32 alignment. */
  function AlignUp(n: nat): (r: nat)
    ensures r % FloatSize == 0 && n <= r < n + FloatSize
  {
    if n % 4 == 0 then n else n + (4 - n % 4)
  }

  /** `repr(C)` offset of field `k`: the end of the previous field, rounded up
      to the field's alignment. */
  function FieldOffset(k: nat): nat
    requires k <= |Fields|
  {
    if k == 0 then 0 else AlignUp(FieldOffset(k - 1) + FieldSize(Fields[k - 1]))
  }

  /** `size_of::<MeshVertexData>()`: the end of the last field rounded up to
      the struct's alignment. */
  function SizeOfMeshVertexData(): nat
  {
    AlignUp(FieldOffset(|Fields|))
  }

  /** The layout has no padding: fields sit at bytes 0, 12, 24 and 32, and a
      vertex takes 48 bytes. */
  lemma VertexLayout()
    ensures FieldOffset(0) == 0 && FieldOffset(1) == 12 && FieldOffset(2) == 24 && FieldOffset(3) == 32
    ensures SizeOfMeshVertexData() == FieldOffset(3) + FieldSize(Tangent) == 48
  {
  }

  /** A vertex state that reads whole `MeshVertexData` vertices and `u32` indices:
      one per-vertex buffer whose stride is the vertex size, with attribute `k`
      at shader location `k`, at field `k`'s offset and with field `k`'s size. */
  predicate ReadsMeshVertexData(vs: VertexState)
  {
    && vs.indexFormat == Some(Uint32)
    && |vs.buffers| == 1
    && vs.buffers[0].stride == SizeOfMeshVertexData()
    && vs.buffers[0].stepMode == PerVertex
    && |vs.buffers[0].attributes| == |Fields|
    && forall k :: 0 <= k < |Fields| ==>
         var a := vs.buffers[0].attributes[k];
         a.shaderLocation == k && a.offset == FieldOffset(k) && FormatSize(a.format) == FieldSize(Fields[k])
  }

  /** `vertex_state_desc` of the mesh passes: 32-bit indices and one
      per-vertex buffer whose four attributes sit at the byte offsets written
      out in the source. It reads `MeshVertexData` exactly as its `repr(C)`
      layout stores it, and the last attribute ends at the stride. */
  function MeshVertexState(): (vs: VertexState)
    ensures ReadsMeshVertexData(vs)
    ensures var b := vs.buffers[0];
            b.attributes[3].offset + FormatSize(b.attributes[3].format) == b.stride == 48
  {
    VertexLayout();
    VertexState(Some(Uint32), [VertexBufferLayout(SizeOfMeshVertexData(), PerVertex,
      [ VertexAttribute(Float3, 0, 0),
        VertexAttribute(Float3, 4 * 3, 1),
        VertexAttribute(Float2, 4 * (3 + 3), 2),
        VertexAttribute(Float4, 4 * (3 + 3 + 2), 3) ])])
  }

  // ---------------------------------------------------------------------
  // Primitive modes

  /** The primitive modes of glTF 2.0 (section 5.24, mesh.primitive, property
      `mode`, values 0 to 6 in this order). */
  datatype Mode = Points | Lines | LineLoop | LineStrip | Triangles | TriangleStrip | TriangleFan

  /** `get_primitive_mode`: the five modes the GPU draws directly; LINE_LOOP
      and TRIANGLE_FAN panic. */
  function PrimitiveTopology(mode: Mode): (r: Result<Topology>)
    ensures r.Panic? ==> r.fault == UnsupportedMode
  {
    match mode
    case Points => Ok(PointList)
    case Lines => Ok(LineList)
    case LineStrip => Ok(Topology.LineStrip)
    case Triangles => Ok(TriangleList)
    case TriangleStrip => Ok(Topology.TriangleStrip)
    case _ => Panic(UnsupportedMode)
  }

  /** The glTF mode a topology comes from. */
  function ModeOf(t: Topology): Mode
  {
    match t
    case PointList => Points
    case LineList => Lines
    case LineStrip => Mode.LineStrip
    case TriangleList => Triangles
    case TriangleStrip => Mode.TriangleStrip
  }

  /** The mapping is defined exactly off LINE_LOOP and TRIANGLE_FAN, it is
      one-to-one there, and every topology is reached. */
  lemma PrimitiveTopologyIsPartialBijection(mode: Mode, t: Topology)
    ensures PrimitiveTopology(mode).Ok? <==> mode != LineLoop && mode != TriangleFan
    ensures PrimitiveTopology(mode).Ok? ==> ModeOf(PrimitiveTopology(mode).value) == mode
    ensures PrimitiveTopology(ModeOf(t)) == Ok(t)
  {
  }

  // ---------------------------------------------------------------------
  // The decoded glTF document

  datatype ImageSource = Uri(uri: string) | BufferView(view: nat)

  /** A glTF texture: the index of the image it samples. */
  datatype Texture = Texture(source: nat)

  /** A decoded primitive: its attribute arrays (absent when the primitive has
      none), indices, the base colour of its material, the index of the
      texture its material takes the base colour from, the index of its
      material (absent for the default material) and its mode. */
  datatype Primitive = Primitive(
    positions: Option<seq<Vec3>>,
    normals: Option<seq<Vec3>>,
    uvs: Option<seq<Vec2>>,
    tangents: Option<seq<Vec4>>,
    indices: Option<seq<nat>>,
    baseColorFactor: Vec4,
    baseColorTexture: Option<nat>,
    material: Option<nat>,
    mode: Mode)

  datatype GltfMesh = GltfMesh(primitives: seq<Primitive>)

  /** The document's texture and image lists. */
  datatype Assets = Assets(textures: seq<Texture>, images: seq<ImageSource>)

  datatype Document = Document(meshes: seq<GltfMesh>, assets: Assets)

  // ---------------------------------------------------------------------
  // Vertex assembly

  /** Entry `i` of an optional attribute array, or `zero` when there is none. */
  function AttributeAt<T>(attribute: Option<seq<T>>, i: nat, zero: T): T
  {
    if attribute.Some? && i < |attribute.value| then attribute.value[i] else zero
  }

  /** An optional attribute array can be written into `n` vertices without an
      index going out of range. */
  predicate FitsInto<T>(attribute: Option<seq<T>>, n: nat)
  {
    attribute.None? || |attribute.value| <= n
  }

  /** Writing an attribute array over the vertices, entry by entry: entry `i`
      goes into vertex `i`, and an entry past the last vertex is an index out
      of range. */
  function Overwrite<T>(vertices: seq<MeshVertexData>, entries: seq<T>, write: (MeshVertexData, T) -> MeshVertexData): (r: Result<seq<MeshVertexData>>)
    ensures r.Ok? <==> |entries| <= |vertices|
    ensures r.Panic? ==> r.fault == AttributeOutOfRange
    ensures r.Ok? ==> |r.value| == |vertices|
    ensures r.Ok? ==> forall i :: 0 <= i < |vertices| ==>
              r.value[i] == if i < |entries| then write(vertices[i], entries[i]) else vertices[i]
    decreases |entries|
  {
    if entries == [] then Ok(vertices)
    else
      var i := |entries| - 1;
      var written :- Overwrite(vertices, entries[..i], write);
      if i < |written| then Ok(written[i := write(written[i], entries[i])]) else Panic(AttributeOutOfRange)
  }

  function OverwriteIfPresent<T>(vertices: seq<MeshVertexData>, attribute: Option<seq<T>>, write: (MeshVertexData, T) -> MeshVertexData): Result<seq<MeshVertexData>>
  {
    if attribute.Some? then Overwrite(vertices, attribute.value, write) else Ok(vertices)
  }

  /** Vertex assembly: one default vertex per position carrying that position,
      then normals, texture coordinates and tangents written over it. */
  function Vertices(positions: seq<Vec3>, normals: Option<seq<Vec3>>, uvs: Option<seq<Vec2>>, tangents: Option<seq<Vec4>>): (r: Result<seq<MeshVertexData>>)
    ensures r.Ok? <==> FitsInto(normals, |positions|) && FitsInto(uvs, |positions|) && FitsInto(tangents, |positions|)
    ensures r.Panic? ==> r.fault == AttributeOutOfRange
    ensures r.Ok? ==> |r.value| == |positions|
    ensures r.Ok? ==> forall i :: 0 <= i < |positions| ==>
              r.value[i] == MeshVertexData(positions[i], AttributeAt(normals, i, Zero3), AttributeAt(uvs, i, Zero2), AttributeAt(tangents, i, Zero4))
  {
    var base := seq(|positions|, i requires 0 <= i < |positions| => DefaultVertex.(position := positions[i]));
    var withNormals :- OverwriteIfPresent(base, normals, (v: MeshVertexData, n: Vec3) => v.(normal := n));
    var withUvs :- OverwriteIfPresent(withNormals, uvs, (v: MeshVertexData, t: Vec2) => v.(uv := t));
    OverwriteIfPresent(withUvs, tangents, (v: MeshVertexData, t: Vec4) => v.(tangent := t))
  }

  /** A primitive without normals, texture coordinates or tangents keeps them
      zero in every vertex. */
  lemma AbsentAttributesStayZero(positions: seq<Vec3>, i: nat)
    requires i < |positions|
    ensures Vertices(positions, None, None, None) == Ok(seq(|positions|, k requires 0 <= k < |positions| => DefaultVertex.(position := positions[k])))
    ensures Vertices(positions, None, None, None).value[i].normal == Zero3
  {
    var r := Vertices(positions, None, None, None);
    assert r.Ok?;
    assert r.value == seq(|positions|, k requires 0 <= k < |positions| => DefaultVertex.(position := positions[k]));
  }

  // ---------------------------------------------------------------------
  // Materials

  /** The texture used when the material names none. */
  const DefaultTexture := "white.png"

  /** `PBRMaterial::new(main_texture, color, index)`, as `Material::PBR`. */
  datatype ImportedMaterial = ImportedMaterial(mainTexture: string, color: Vec4, index: int)

  /** The image the code looks up for the texture with index `t`: it indexes the
      image list with the texture's own index (`images.get(tex.index())`). */
  function ImageAsWritten(doc: Assets, t: nat): Option<ImageSource>
  {
    if t < |doc.images| then Some(doc.images[t]) else None
  }

  /** The image the texture with index `t` samples: `textures[t].source`. */
  function ImageOfTexture(doc: Assets, t: nat): Option<ImageSource>
  {
    if t < |doc.textures| && doc.textures[t].source < |doc.images| then Some(doc.images[doc.textures[t].source]) else None
  }

  /** The main texture named by a looked-up image: the file name of its URI;
      none for a missing image or one stored in a buffer view; a URI without a
      file name panics. */
  function TextureFileName(image: Option<ImageSource>): (r: Result<Option<string>>)
    ensures r.Panic? <==> image.Some? && image.value.Uri? && Paths.FileName(image.value.uri).None?
    ensures r.Panic? ==> r.fault == NoFileName
    ensures r.Ok? && r.value.Some? <==> image.Some? && image.value.Uri? && Paths.FileName(image.value.uri).Some?
    ensures r.Ok? && r.value.Some? ==> r.value == Paths.FileName(image.value.uri)
  {
    match image
    case None => Ok(None)
    case Some(BufferView(_)) => Ok(None)
    case Some(Uri(uri)) =>
      var name := Paths.FileName(uri);
      if name.None? then Panic(NoFileName) else Ok(name)
  }

  /** The material texture as the code computes it, through `ImageAsWritten`. */
  function MaterialTextureAsWritten(doc: Assets, prim: Primitive): (r: Result<string>)
    ensures prim.baseColorTexture.None? ==> r == Ok(DefaultTexture)
    ensures prim.baseColorTexture.Some? ==>
              var image := ImageAsWritten(doc, prim.baseColorTexture.value);
              && (r.Panic? <==> image.Some? && image.value.Uri? && Paths.FileName(image.value.uri).None?)
              && (image.Some? && image.value.Uri? && r.Ok? ==> Some(r.value) == Paths.FileName(image.value.uri))
              && (image.None? || image.value.BufferView? ==> r == Ok(DefaultTexture))
  {
    if prim.baseColorTexture.None? then Ok(DefaultTexture)
    else
      var name :- TextureFileName(ImageAsWritten(doc, prim.baseColorTexture.value));
      Ok(name.GetOr(DefaultTexture))
  }

  /** The material texture: the file name of the base-colour texture's image
      URI, otherwise "white.png". */
  function MaterialTexture(doc: Assets, prim: Primitive): (r: Result<string>)
    ensures prim.baseColorTexture.None? ==> r == Ok(DefaultTexture)
    ensures prim.baseColorTexture.Some? ==>
              var image := ImageOfTexture(doc, prim.baseColorTexture.value);
              && (r.Panic? <==> image.Some? && image.value.Uri? && Paths.FileName(image.value.uri).None?)
              && (image.Some? && image.value.Uri? && r.Ok? ==> Some(r.value) == Paths.FileName(image.value.uri))
              && (image.None? || image.value.BufferView? ==> r == Ok(DefaultTexture))
  {
    if prim.baseColorTexture.None? then Ok(DefaultTexture)
    else
      var name :- TextureFileName(ImageOfTexture(doc, prim.baseColorTexture.value));
      Ok(name.GetOr(DefaultTexture))
  }

  /** Which image the primitive loop reads for the base-colour texture: the
      one at the texture's own index, as `Mesh::new` does, or the one the
      texture samples, as intended. */
  datatype ImageLookup = ByTextureIndex | BySource

  /** The main texture under `lookup`. */
  function MainTexture(lookup: ImageLookup, doc: Assets, prim: Primitive): Result<string>
  {
    match lookup
    case ByTextureIndex => MaterialTextureAsWritten(doc, prim)
    case BySource => MaterialTexture(doc, prim)
  }

  /** Every texture samples the image at its own index. */
  predicate Aligned(doc: Assets)
  {
    forall t :: 0 <= t < |doc.textures| ==> doc.textures[t].source == t
  }

  /** The primitive's base-colour texture, if any, is one the document has. */
  predicate TextureKnown(doc: Assets, prim: Primitive)
  {
    prim.baseColorTexture.Some? ==> prim.baseColorTexture.value < |doc.textures|
  }

  /** Where every texture samples the image at its own index, the code's
      lookup and the intended one name the same texture. */
  lemma LookupsAgreeWhenAligned(doc: Assets, prim: Primitive)
    requires Aligned(doc) && TextureKnown(doc, prim)
    ensures MainTexture(ByTextureIndex, doc, prim) == MainTexture(BySource, doc, prim)
  {
    if prim.baseColorTexture.Some? {
      assert ImageAsWritten(doc, prim.baseColorTexture.value) == ImageOfTexture(doc, prim.baseColorTexture.value);
    }
  }

  /** Where the texture list is not the image list in the same order, the
      code names the wrong image: in a document whose texture 0 samples image
      1, the primitive textured with texture 0 gets image 0's file name. */
  lemma TextureIndexPicksWrongImage(a: string, b: string)
    requires '/' !in a && Paths.Named(a) && a != ".."
    requires '/' !in b && Paths.Named(b) && b != ".."
    requires a != b
    ensures var doc := Assets([Texture(1), Texture(0)], [Uri(a), Uri(b)]);
            var prim := Primitive(Some([]), None, None, None, Some([]), Zero4, Some(0), Some(0), Triangles);
            && MaterialTextureAsWritten(doc, prim) == Ok(a)
            && MaterialTexture(doc, prim) == Ok(b)
            && MaterialTextureAsWritten(doc, prim) != MaterialTexture(doc, prim)
  {
    var doc := Assets([Texture(1), Texture(0)], [Uri(a), Uri(b)]);
    assert ImageAsWritten(doc, 0) == Some(Uri(a));
    assert ImageOfTexture(doc, 0) == Some(Uri(b));
    Paths.FileNameOfBareName(a);
    Paths.FileNameOfBareName(b);
  }

  // ---------------------------------------------------------------------
  // Sub-meshes

  /** A sub-mesh: its vertices and indices, the number of indices, its
      topology, the glTF material it was authored with, the vertex and index
      buffers made from its data, and its material index. */
  datatype SubMesh = SubMesh(
    vertices: seq<MeshVertexData>,
    indices: seq<nat>,
    indexCount: nat,
    mode: Topology,
    materialId: Option<nat>,
    vertexBuffer: nat,
    indexBuffer: nat,
    materialIndex: int)

  datatype Mesh = Mesh(subMeshes: seq<SubMesh>)

  /** A primitive imports without a panic. */
  predicate Importable(lookup: ImageLookup, doc: Assets, prim: Primitive)
  {
    && prim.positions.Some?
    && FitsInto(prim.normals, |prim.positions.value|)
    && FitsInto(prim.uvs, |prim.positions.value|)
    && FitsInto(prim.tangents, |prim.positions.value|)
    && prim.indices.Some?
    && MainTexture(lookup, doc, prim).Ok?
    && PrimitiveTopology(prim.mode).Ok?
  }

  /** `sub` and `mat` are what primitive `prim` becomes with material index `index`. */
  predicate ImportedFrom(lookup: ImageLookup, doc: Assets, prim: Primitive, index: int, sub: SubMesh, mat: ImportedMaterial)
    requires Importable(lookup, doc, prim)
  {
    var positions := prim.positions.value;
    && |sub.vertices| == |positions|
    && (forall i :: 0 <= i < |positions| ==>
          sub.vertices[i] == MeshVertexData(positions[i], AttributeAt(prim.normals, i, Zero3),
                                            AttributeAt(prim.uvs, i, Zero2), AttributeAt(prim.tangents, i, Zero4)))
    && sub.indices == prim.indices.value
    && sub.indexCount == |prim.indices.value|
    && Ok(sub.mode) == PrimitiveTopology(prim.mode)
    && sub.materialId == prim.material
    && sub.materialIndex == index
    && mat == ImportedMaterial(MainTexture(lookup, doc, prim).value, prim.baseColorFactor, index)
  }

  /** One iteration of the primitive loop. The vertex and index buffers made
      from the primitive's data get the fresh handles `buffers` and
      `buffers + 1`. */
  function ImportPrimitive(lookup: ImageLookup, doc: Assets, prim: Primitive, index: int, buffers: nat): (r: Result<(SubMesh, ImportedMaterial)>)
    ensures r.Ok? <==> Importable(lookup, doc, prim)
    ensures prim.positions.None? ==> r == Panic(MissingPositions)
    ensures prim.positions.Some? && prim.indices.None? ==> r.Panic?
    ensures r.Ok? ==> ImportedFrom(lookup, doc, prim, index, r.value.0, r.value.1)
    ensures r.Ok? ==> r.value.0.vertexBuffer == buffers && r.value.0.indexBuffer == buffers + 1
  {
    if prim.positions.None? then Panic(MissingPositions)
    else
      var vertices :- Vertices(prim.positions.value, prim.normals, prim.uvs, prim.tangents);
      if prim.indices.None? then Panic(MissingIndices)
      else
        var texture :- MainTexture(lookup, doc, prim);
        var mode :- PrimitiveTopology(prim.mode);
        var indices := prim.indices.value;
        Ok((SubMesh(vertices, indices, |indices|, mode, prim.material, buffers, buffers + 1, index),
            ImportedMaterial(texture, prim.baseColorFactor, index)))
  }

  /** The primitive loop from the `k`-th primitive on; the first panic stops it. */
  function ImportPrimitives(lookup: ImageLookup, doc: Assets, prims: seq<Primitive>, index: int, buffers: nat): (r: Result<(seq<SubMesh>, seq<ImportedMaterial>)>)
    ensures r.Ok? <==> forall k :: 0 <= k < |prims| ==> Importable(lookup, doc, prims[k])
    ensures r.Ok? ==> |r.value.0| == |r.value.1| == |prims|
    ensures r.Ok? ==> forall k :: 0 <= k < |prims| ==>
              && ImportedFrom(lookup, doc, prims[k], index + k, r.value.0[k], r.value.1[k])
              && r.value.0[k].vertexBuffer == buffers + 2 * k
              && r.value.0[k].indexBuffer == buffers + 2 * k + 1
    decreases |prims|
  {
    if prims == [] then Ok(([], []))
    else
      var first :- ImportPrimitive(lookup, doc, prims[0], index, buffers);
      var rest :- ImportPrimitives(lookup, doc, prims[1..], index + 1, buffers + 2);
      Ok(([first.0] + rest.0, [first.1] + rest.1))
  }

  /** `Mesh::new`: the sub-meshes and materials of the first mesh of the
      document; the document must have a mesh. `New(ByTextureIndex, …)` is the
      code as written, `New(BySource, …)` the import with the intended
      texture lookup. */
  function New(lookup: ImageLookup, doc: Document, materialStartIndex: int, buffers: nat): (r: Result<(Mesh, seq<ImportedMaterial>)>)
    ensures |doc.meshes| == 0 ==> r == Panic(NoMesh)
    ensures |doc.meshes| > 0 ==>
              (r.Ok? <==> forall k :: 0 <= k < |doc.meshes[0].primitives| ==> Importable(lookup, doc.assets, doc.meshes[0].primitives[k]))
    ensures r.Ok? ==>
              var prims := doc.meshes[0].primitives;
              && |r.value.0.subMeshes| == |r.value.1| == |prims|
              && forall k :: 0 <= k < |prims| ==>
                   && ImportedFrom(lookup, doc.assets, prims[k], materialStartIndex + k, r.value.0.subMeshes[k], r.value.1[k])
                   && r.value.0.subMeshes[k].materialIndex == r.value.1[k].index == materialStartIndex + k
  {
    if |doc.meshes| == 0 then Panic(NoMesh)
    else
      var imported :- ImportPrimitives(lookup, doc.assets, doc.meshes[0].primitives, materialStartIndex, buffers);
      Ok((Mesh(imported.0), imported.1))
  }

  /** Only the first mesh is imported: meshes after it change nothing. */
  lemma LaterMeshesIgnored(lookup: ImageLookup, doc: Document, extra: seq<GltfMesh>, materialStartIndex: int, buffers: nat)
    requires |doc.meshes| > 0
    ensures New(lookup, doc.(meshes := doc.meshes + extra), materialStartIndex, buffers)
         == New(lookup, doc.(meshes := doc.meshes[..1]), materialStartIndex, buffers)
  {
    assert (doc.meshes + extra)[0] == doc.meshes[..1][0];
  }

  /** Every buffer handle the import hands out is distinct. */
  lemma BuffersAreDistinct(lookup: ImageLookup, doc: Document, materialStartIndex: int, buffers: nat)
    requires New(lookup, doc, materialStartIndex, buffers).Ok?
    ensures var subs := New(lookup, doc, materialStartIndex, buffers).value.0.subMeshes;
            forall j, k :: 0 <= j < |subs| && 0 <= k < |subs| ==>
              subs[j].vertexBuffer != subs[k].indexBuffer && (j != k ==> subs[j].vertexBuffer != subs[k].vertexBuffer)
  {
    var subs := New(lookup, doc, materialStartIndex, buffers).value.0.subMeshes;
    var imported := ImportPrimitives(lookup, doc.assets, doc.meshes[0].primitives, materialStartIndex, buffers);
    assert subs == imported.value.0;
  }

  /** On a document whose textures sample the images at their own indices,
      the import as written and the intended import agree. */
  lemma {:induction false} ImportsAgreeWhenAligned(doc: Assets, prims: seq<Primitive>, index: int, buffers: nat)
    requires Aligned(doc)
    requires forall k :: 0 <= k < |prims| ==> TextureKnown(doc, prims[k])
    ensures ImportPrimitives(ByTextureIndex, doc, prims, index, buffers) == ImportPrimitives(BySource, doc, prims, index, buffers)
    decreases |prims|
  {
    if prims != [] {
      LookupsAgreeWhenAligned(doc, prims[0]);
      assert ImportPrimitive(ByTextureIndex, doc, prims[0], index, buffers) == ImportPrimitive(BySource, doc, prims[0], index, buffers);
      ImportsAgreeWhenAligned(doc, prims[1..], index + 1, buffers + 2);
    }
  }

  /** `Mesh::new` as written and with the intended lookup agree on such a document. */
  lemma NewAgreesWhenAligned(doc: Document, materialStartIndex: int, buffers: nat)
    requires Aligned(doc.assets)
    requires |doc.meshes| > 0 ==> forall k :: 0 <= k < |doc.meshes[0].primitives| ==> TextureKnown(doc.assets, doc.meshes[0].primitives[k])
    ensures New(ByTextureIndex, doc, materialStartIndex, buffers) == New(BySource, doc, materialStartIndex, buffers)
  {
    if |doc.meshes| > 0 {
      ImportsAgreeWhenAligned(doc.assets, doc.meshes[0].primitives, materialStartIndex, buffers);
    }
  }

  /** A primitive with no vertices and no indices, drawn as triangles with
      base-colour texture 0 and glTF material 0. */
  function TexturedPrimitive(): Primitive
  {
    Primitive(Some([]), None, None, None, Some([]), Zero4, Some(0), Some(0), Triangles)
  }

  /** Two images, ".." and `name`, where texture 0 samples image 1. */
  function SwappedAssets(name: string): Assets
  {
    Assets([Texture(1), Texture(0)], [Uri(".."), Uri(name)])
  }

  /** On those assets the code's lookup reads "..", which has no file name,
      and the intended lookup reads `name`. */
  lemma SwappedLookups(name: string)
    requires '/' !in name && Paths.Named(name) && name != ".."
    ensures MaterialTextureAsWritten(SwappedAssets(name), TexturedPrimitive()) == Panic(NoFileName)
    ensures MaterialTexture(SwappedAssets(name), TexturedPrimitive()) == Ok(name)
  {
    var assets, prim := SwappedAssets(name), TexturedPrimitive();
    assert prim.baseColorTexture == Some(0);
    Paths.ParentAloneHasNoFileName();
    Paths.FileNameOfBareName(name);
    assert ImageAsWritten(assets, 0) == Some(Uri(".."));
    assert TextureFileName(Some(Uri(".."))) == Panic(NoFileName);
    assert ImageOfTexture(assets, 0) == Some(Uri(name));
    assert TextureFileName(Some(Uri(name))) == Ok(Some(name));
  }

  /** The primitive imports with the intended lookup and panics with the code's. */
  lemma SwappedImport(name: string)
    requires '/' !in name && Paths.Named(name) && name != ".."
    ensures Importable(BySource, SwappedAssets(name), TexturedPrimitive())
    ensures !Importable(ByTextureIndex, SwappedAssets(name), TexturedPrimitive())
  {
    var prim, assets := TexturedPrimitive(), SwappedAssets(name);
    SwappedLookups(name);
    assert MainTexture(BySource, assets, prim) == Ok(name);
    assert MainTexture(ByTextureIndex, assets, prim).Panic?;
    assert prim.mode == Triangles;
    assert PrimitiveTopology(Triangles) == Ok(TriangleList);
    assert prim.positions == Some([]) && prim.indices == Some([]);
    assert FitsInto(prim.normals, 0) && FitsInto(prim.uvs, 0) && FitsInto(prim.tangents, 0);
  }

  /** Where they disagree, the code can panic on a document the intended
      lookup imports. */
  lemma MisalignedImportPanics(name: string)
    requires '/' !in name && Paths.Named(name) && name != ".."
    ensures var doc := Document([GltfMesh([TexturedPrimitive()])], SwappedAssets(name));
            && New(ByTextureIndex, doc, 0, 0) == Panic(NoFileName)
            && New(BySource, doc, 0, 0).Ok?
            && New(BySource, doc, 0, 0).value.1 == [ImportedMaterial(name, Zero4, 0)]
  {
    var prim, assets := TexturedPrimitive(), SwappedAssets(name);
    var doc := Document([GltfMesh([prim])], assets);
    SwappedLookups(name);
    SwappedImport(name);
    assert Vertices([], None, None, None) == Ok([]);
    assert ImportPrimitive(ByTextureIndex, assets, prim, 0, 0) == Panic(NoFileName);
    var r := New(BySource, doc, 0, 0);
    assert r.Ok?;
    assert ImportedFrom(BySource, assets, prim, 0, r.value.0.subMeshes[0], r.value.1[0]);
    assert r.value.1 == [r.value.1[0]];
  }
}
