/** GPU objects as opaque handles, the commands a pass records, the descriptors
    a pass declares, and the panics of harmony as values.

    Every wgpu object (buffer, texture, view, sampler, layout, pipeline) is a
    `nat` handle; bind groups are identified by their descriptor. */
module Gpu {

  datatype Option<+T> = None | Some(value: T) {
    function GetOr(default: T): T {
      if Some? then value else default
    }
  }

  /** The ways harmony panics, one per `unwrap` of an absent
      value, out-of-range index or explicit `panic!` that the model reaches. */
  datatype Fault =
    | MissingBindGroup(position: nat)  // the material at `position` has no bind group data
    | UnknownMesh(name: string)        // a mesh name the asset table does not hold
    | MissingSkyboxPbrGroup            // the skybox resource has no PBR bind group
    | UnwrapNone                       // a pass rendered without its bind group or input
    | NoMesh                           // a glTF document without any mesh
    | MissingPositions                 // a primitive without POSITION
    | AttributeOutOfRange              // more normals/uvs/tangents than positions
    | MissingIndices                   // a primitive without indices
    | NoFileName                       // a base-colour image URI without a file name
    | UnsupportedMode                  // LINE_LOOP or TRIANGLE_FAN

  /** Either the value an operation returns or the panic that stops it. */
  datatype Result<+T> = Ok(value: T) | Panic(fault: Fault) {
    predicate IsFailure() {
      Panic?
    }

    function PropagateFailure<U>(): Result<U>
      requires Panic?
    {
      Panic(fault)
    }

    function Extract(): T
      requires Ok?
    {
      value
    }
  }

  /** `as u32` on a `usize`: keeps the low 32 bits. */
  const U32Modulus: nat := 0x1_0000_0000

  function AsU32(n: nat): (r: nat)
    ensures r < U32Modulus
    ensures (n - r) % U32Modulus == 0
    ensures n < U32Modulus ==> r == n
  {
    n % U32Modulus
  }

  /** A half-open range `start..end`. */
  datatype Range = Range(start: nat, end: nat)

  // ---------------------------------------------------------------------
  // Resources and bind groups

  datatype ViewDimension = D2 | Cube

  datatype TextureView = TextureView(id: nat, dimension: ViewDimension)

  datatype Resource =
    | BufferRange(buffer: nat, start: nat, end: nat)
    | View(view: TextureView)
    | SamplerOf(sampler: nat)

  datatype Binding = Binding(binding: nat, resource: Resource)

  /** A bind group, identified by the layout it was created for and its bindings. */
  datatype BindGroup = BindGroup(layout: nat, bindings: seq<Binding>)

  /** A compiled pipeline: its handle and the bind group layouts built from its
      description, in declaration order. */
  datatype Pipeline = Pipeline(handle: nat, bindGroupLayouts: seq<nat>)

  // ---------------------------------------------------------------------
  // Bind group layouts. Every sampled texture in the program is a
  // non-multisampled float texture, every uniform buffer is non-dynamic and
  // every sampler is non-comparing, so those flags are not modelled.

  datatype Stage = VertexStage | FragmentStage

  datatype BindingType = UniformBuffer | SampledTexture(dimension: ViewDimension) | Sampler

  datatype LayoutEntry = LayoutEntry(binding: nat, visibility: set<Stage>, ty: BindingType)

  /** Binding numbers run 0, 1, 2, ... in declaration order. */
  predicate Consecutive(layout: seq<LayoutEntry>)
  {
    forall i :: 0 <= i < |layout| ==> layout[i].binding == i
  }

  /** A resource fits a binding slot of type `ty`. */
  predicate Accepts(ty: BindingType, resource: Resource)
  {
    match ty
    case UniformBuffer => resource.BufferRange? && resource.start < resource.end
    case SampledTexture(dim) => resource.View? && resource.view.dimension == dim
    case Sampler => resource.SamplerOf?
  }

  /** The bind group supplies every entry of `layout`, in order, with a resource
      of the declared kind. */
  predicate Conforms(group: BindGroup, layout: seq<LayoutEntry>)
  {
    && |group.bindings| == |layout|
    && forall i :: 0 <= i < |layout| ==>
         group.bindings[i].binding == layout[i].binding && Accepts(layout[i].ty, group.bindings[i].resource)
  }

  // ---------------------------------------------------------------------
  // Commands

  /** A command recorded into a render pass. */
  datatype Cmd =
    | SetPipeline(pipeline: nat)
    | SetBindGroup(slot: nat, group: BindGroup)
    | SetIndexBuffer(buffer: nat, offset: nat, size: nat)
    | SetVertexBuffer(slot: nat, buffer: nat, offset: nat, size: nat)
    | DrawIndexed(indices: Range, baseVertex: int, instances: Range)
    | Draw(vertices: Range, instances: Range)

  datatype Origin = Origin(x: nat, y: nat, z: nat)

  datatype Extent = Extent(width: nat, height: nat, depth: nat)

  /** One end of a texture copy: a texture, a mip level, an array layer and a texel origin. */
  datatype TextureCopyView = TextureCopyView(texture: nat, mipLevel: nat, arrayLayer: nat, origin: Origin)

  /** A command recorded into a command encoder outside any render pass. */
  datatype EncoderCmd =
    | CopyBufferToBuffer(src: nat, srcOffset: nat, dst: nat, dstOffset: nat, size: nat)
    | CopyTextureToTexture(source: TextureCopyView, destination: TextureCopyView, extent: Extent)
    | RenderPass(commands: seq<Cmd>)

  /** A finished encoder, ready to be submitted to the queue. */
  datatype CommandBuffer = CommandBuffer(commands: seq<EncoderCmd>)

  // ---------------------------------------------------------------------
  // Projections of a trace

  /** The bind groups bound at `slot`, in order. */
  function Binds(cmds: seq<Cmd>, slot: nat): seq<BindGroup>
  {
    if cmds == [] then []
    else
      var c := cmds[|cmds| - 1];
      Binds(cmds[..|cmds| - 1], slot) + (if c.SetBindGroup? && c.slot == slot then [c.group] else [])
  }

  /** The index ranges of the indexed draws, in order. */
  function Draws(cmds: seq<Cmd>): seq<Range>
  {
    if cmds == [] then []
    else
      var c := cmds[|cmds| - 1];
      Draws(cmds[..|cmds| - 1]) + (if c.DrawIndexed? then [c.indices] else [])
  }

  lemma {:induction false} BindsAppend(a: seq<Cmd>, b: seq<Cmd>, slot: nat)
    ensures Binds(a + b, slot) == Binds(a, slot) + Binds(b, slot)
    decreases |b|
  {
    if b == [] {
      assert a + b == a;
    } else {
      assert (a + b)[..|a + b| - 1] == a + b[..|b| - 1];
      BindsAppend(a, b[..|b| - 1], slot);
    }
  }

  lemma {:induction false} DrawsAppend(a: seq<Cmd>, b: seq<Cmd>)
    ensures Draws(a + b) == Draws(a) + Draws(b)
    decreases |b|
  {
    if b == [] {
      assert a + b == a;
    } else {
      assert (a + b)[..|a + b| - 1] == a + b[..|b| - 1];
      DrawsAppend(a, b[..|b| - 1]);
    }
  }

  /** The render of the cube-projection, irradiance and specular passes: the
      pass's pipeline, its one bind group at slot 0, then six vertices drawn
      six times; it panics when the bind group has not been prepared. */
  function BoundCubeDraw(pipeline: Pipeline, group: Option<BindGroup>): (r: Result<seq<Cmd>>)
    ensures r.Panic? <==> group.None?
    ensures r.Panic? ==> r.fault == UnwrapNone
    ensures r.Ok? ==>
              && |r.value| == 3
              && r.value[0] == SetPipeline(pipeline.handle)
              && Binds(r.value, 0) == [group.value]
              && (forall slot :: slot != 0 ==> Binds(r.value, slot) == [])
              && r.value[2] == Draw(Range(0, 6), Range(0, 6))
  {
    match group
    case None => Panic(UnwrapNone)
    case Some(g) =>
      var cmds := [SetPipeline(pipeline.handle), SetBindGroup(0, g), Draw(Range(0, 6), Range(0, 6))];
      assert cmds[..2][..1][..0] == [];
      assert cmds[..2][..1] == [SetPipeline(pipeline.handle)];
      assert cmds[..2] == [SetPipeline(pipeline.handle), SetBindGroup(0, g)];
      assert forall slot :: Binds(cmds[..2][..1], slot) == [];
      assert forall slot :: Binds(cmds[..2], slot) == (if slot == 0 then [g] else []);
      assert forall slot :: Binds(cmds, slot) == Binds(cmds[..2], slot);
      Ok(cmds)
  }

  /** A texture view together with the sampler it is read with: an image of
      the asset manager, or a render target handed to a pass as input. */
  datatype ViewAndSampler = ViewAndSampler(view: TextureView, sampler: nat)

  // ---------------------------------------------------------------------
  // Pass descriptions

  datatype TextureFormat = Rgba32Float | Rgba8UnormSrgb | Bgra8UnormSrgb | RendererDepthFormat

  datatype FrontFace = Ccw | Cw

  datatype CullMode = CullNone | CullFront | CullBack

  datatype Topology = PointList | LineList | LineStrip | TriangleList | TriangleStrip

  datatype CompareFunction = Never | Less | LessEqual | Always

  /** Colour target state. Every pass of the program blends with REPLACE for
      colour and alpha and writes all channels, so only the format varies. */
  datatype ColorState = ColorState(format: TextureFormat)

  /** Depth state. Every pass with one ignores the stencil. */
  datatype DepthState = DepthState(format: TextureFormat, writeEnabled: bool, compare: CompareFunction)

  datatype VertexFormat = Float2 | Float3 | Float4

  /** The number of f32 components of a vertex attribute format. */
  function FloatCount(f: VertexFormat): nat
  {
    match f
    case Float2 => 2
    case Float3 => 3
    case Float4 => 4
  }

  /** Byte size of a vertex attribute format: four bytes per float. */
  function FormatSize(f: VertexFormat): (n: nat)
    ensures n == 4 * FloatCount(f)
    ensures n % 4 == 0 && 8 <= n <= 16
  {
    match f
    case Float2 => 8
    case Float3 => 12
    case Float4 => 16
  }

  datatype VertexAttribute = VertexAttribute(format: VertexFormat, offset: nat, shaderLocation: nat)

  datatype StepMode = PerVertex | PerInstance

  datatype VertexBufferLayout = VertexBufferLayout(stride: nat, stepMode: StepMode, attributes: seq<VertexAttribute>)

  datatype IndexFormat = Uint16 | Uint32

  /** Vertex input state; `indexFormat == None` leaves the builder's default. */
  datatype VertexState = VertexState(indexFormat: Option<IndexFormat>, buffers: seq<VertexBufferLayout>)

  /** The vertex state a fresh `VertexStateBuilder` describes. */
  const EmptyVertexState := VertexState(None, [])

  /** Everything a pass description supplies to build its pipeline. */
  datatype PassDesc = PassDesc(
    shader: string,
    layouts: seq<seq<LayoutEntry>>,
    frontFace: FrontFace,
    cullMode: CullMode,
    topology: Topology,
    colorStates: seq<ColorState>,
    depth: Option<DepthState>,
    vertex: VertexState)

  /** Full-screen passes that render one float target without depth and without vertex input. */
  predicate OffscreenFloatPass(d: PassDesc)
  {
    && d.colorStates == [ColorState(Rgba32Float)]
    && d.depth == None
    && d.vertex == EmptyVertexState
    && d.topology == TriangleList
    && d.frontFace == Cw && d.cullMode == CullNone
  }

  /** The description of a full-screen pass that renders one float target:
      the colour format does not follow the swap chain. */
  function OffscreenFloatDesc(shader: string, layouts: seq<seq<LayoutEntry>>): (d: PassDesc)
    ensures OffscreenFloatPass(d)
    ensures d.shader == shader && d.layouts == layouts
  {
    PassDesc(shader, layouts, Cw, CullNone, TriangleList, [ColorState(Rgba32Float)], None, EmptyVertexState)
  }

  /** The one layout of the passes that sample a single image: its 2D view
      at 0 and its sampler at 1, both read by the fragment stage. */
  function SampledImageLayouts(): (ls: seq<seq<LayoutEntry>>)
    ensures |ls| == 1 && |ls[0]| == 2 && Consecutive(ls[0])
    ensures ls[0][0].ty == SampledTexture(D2) && ls[0][1].ty == Sampler
    ensures forall k :: 0 <= k < |ls[0]| ==> ls[0][k].visibility == {FragmentStage}
  {
    [[LayoutEntry(0, {FragmentStage}, SampledTexture(D2)), LayoutEntry(1, {FragmentStage}, Sampler)]]
  }

  /** The depth test the on-screen mesh passes use: nearer fragments win and are written. */
  const LessWriteDepth := DepthState(RendererDepthFormat, true, Less)
}
