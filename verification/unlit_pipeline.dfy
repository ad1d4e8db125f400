/** The unlit pass of src/graphics/pipelines/unlit.rs: its layouts, its vertex
    input over `MeshVertexData`, its depth test, its global bind group, and a
    `render` that hands that group to the unlit draw submission. */
module UnlitPipeline {
  import opened Gpu
  import opened Batching
  import MeshImport
  import RenderUnlit

  /** `UnlitPipeline`: its uniform buffer and the global bind group over it. */
  datatype State = State(constantsBuffer: nat, globalBindGroup: BindGroup)

  /** Two layouts: the global uniform buffer, then the material's uniform
      buffer, 2D texture and sampler. */
  function Layouts(): (ls: seq<seq<LayoutEntry>>)
    ensures |ls| == 2 && |ls[0]| == 1 && |ls[1]| == 3
    ensures Consecutive(ls[0]) && Consecutive(ls[1])
    ensures ls[0][0] == LayoutEntry(0, {VertexStage}, UniformBuffer)
    ensures ls[1][0] == LayoutEntry(0, {VertexStage}, UniformBuffer)
    ensures ls[1][1] == LayoutEntry(1, {FragmentStage}, SampledTexture(D2))
    ensures ls[1][2] == LayoutEntry(2, {FragmentStage}, Sampler)
  {
    [ [LayoutEntry(0, {VertexStage}, UniformBuffer)],
      [ LayoutEntry(0, {VertexStage}, UniformBuffer),
        LayoutEntry(1, {FragmentStage}, SampledTexture(D2)),
        LayoutEntry(2, {FragmentStage}, Sampler) ] ]
  }

  /** The pass description: the swap chain's format, back faces culled, and
      nearer fragments win and are written. */
  function Description(swapChainFormat: TextureFormat): (d: PassDesc)
    ensures d.colorStates == [ColorState(swapChainFormat)]
    ensures d.depth.Some? && d.depth.value.compare == Less && d.depth.value.writeEnabled
    ensures d.vertex == MeshImport.MeshVertexState() && d.layouts == Layouts() && d.shader == "unlit.shader"
    ensures d.frontFace == Cw && d.cullMode == CullBack && d.topology == TriangleList
  {
    PassDesc("unlit.shader", Layouts(), Cw, CullBack, TriangleList, [ColorState(swapChainFormat)], Some(LessWriteDepth), MeshImport.MeshVertexState())
  }

  /** `build`, given the new buffer's handle and `size_of::<GlobalUniforms>()`:
      the global bind group covers the whole buffer, for the first layout. */
  function Build(layoutHandles: seq<nat>, constantsBuffer: nat, globalUniformsSize: nat): (s: State)
    requires |layoutHandles| >= 1
    ensures s.constantsBuffer == constantsBuffer
    ensures s.globalBindGroup.layout == layoutHandles[0]
    ensures s.globalBindGroup.bindings == [Binding(0, BufferRange(constantsBuffer, 0, globalUniformsSize))]
  {
    State(constantsBuffer, BindGroup(layoutHandles[0], [Binding(0, BufferRange(constantsBuffer, 0, globalUniformsSize))]))
  }

  /** The global bind group fits the first layout, for a non-empty uniform struct. */
  lemma GlobalGroupFitsLayout(layoutHandles: seq<nat>, constantsBuffer: nat, globalUniformsSize: nat)
    requires |layoutHandles| >= 1 && globalUniformsSize > 0
    ensures Conforms(Build(layoutHandles, constantsBuffer, globalUniformsSize).globalBindGroup, Layouts()[0])
  {
  }

  /** `render`: the unlit draw submission with this pass's global bind group,
      which is then bound exactly once, at slot 1. */
  method Render(s: State, pipeline: Pipeline, ms: seq<Material>, es: seq<Entity>, meshes: MeshTable)
    returns (r: Result<seq<Cmd>>)
    ensures r.Ok? <==> Ready(UnlitShading, ms, es, meshes)
    ensures r.Panic? ==> r.fault.MissingBindGroup? || r.fault.UnknownMesh?
    ensures r.Ok? ==> r.value == [SetPipeline(pipeline.handle), SetBindGroup(1, s.globalBindGroup)] + BatchCmds(UnlitShading, ms, es, meshes)
    ensures r.Ok? ==> |r.value| >= 2 && r.value[0] == SetPipeline(pipeline.handle) && Binds(r.value, 1) == [s.globalBindGroup]
  {
    r := RenderUnlit.Run(pipeline, s.globalBindGroup, ms, es, meshes);
  }
}
