/** The PBR pass of src/graphics/pipelines/pbr.rs: its layouts, its vertex
    input over `MeshVertexData`, its depth test, its global bind group over the
    camera and lighting buffers, and a `render` that hands that group to the
    PBR draw submission. */
module PbrPipeline {
  import opened Gpu
  import opened Batching
  import MeshImport
  import RenderPbr
  import UnlitPipeline

  /** `PBRPipeline`: its two uniform buffers and the global bind group over them. */
  datatype State = State(constantsBuffer: nat, lightingBuffer: nat, globalBindGroup: BindGroup)

  /** Three layouts: the global camera and lighting buffers; the material's
      uniform buffer, 2D texture and sampler; and the environment: two cube
      maps and a 2D texture, each followed by its sampler. */
  function Layouts(): (ls: seq<seq<LayoutEntry>>)
    ensures |ls| == 3 && |ls[0]| == 2 && |ls[1]| == 3 && |ls[2]| == 6
    ensures forall l :: 0 <= l < |ls| ==> Consecutive(ls[l])
    ensures ls[0][0] == LayoutEntry(0, {VertexStage}, UniformBuffer)
    ensures ls[0][1] == LayoutEntry(1, {VertexStage, FragmentStage}, UniformBuffer)
    ensures ls[1][0].ty == UniformBuffer && ls[1][1].ty == SampledTexture(D2) && ls[1][2].ty == Sampler
    ensures ls[2][0].ty == ls[2][2].ty == SampledTexture(Cube) && ls[2][4].ty == SampledTexture(D2)
    ensures forall k :: 0 <= k < 6 && k % 2 == 1 ==> ls[2][k].ty == Sampler
    ensures forall k :: 0 <= k < 6 ==> ls[2][k].visibility == {FragmentStage}
  {
    [ [ LayoutEntry(0, {VertexStage}, UniformBuffer),
        LayoutEntry(1, {VertexStage, FragmentStage}, UniformBuffer) ],
      [ LayoutEntry(0, {VertexStage}, UniformBuffer),
        LayoutEntry(1, {FragmentStage}, SampledTexture(D2)),
        LayoutEntry(2, {FragmentStage}, Sampler) ],
      [ LayoutEntry(0, {FragmentStage}, SampledTexture(Cube)),
        LayoutEntry(1, {FragmentStage}, Sampler),
        LayoutEntry(2, {FragmentStage}, SampledTexture(Cube)),
        LayoutEntry(3, {FragmentStage}, Sampler),
        LayoutEntry(4, {FragmentStage}, SampledTexture(D2)),
        LayoutEntry(5, {FragmentStage}, Sampler) ] ]
  }

  /** The pass description: exactly that of the unlit pass, with the PBR
      shader and layouts. */
  function Description(swapChainFormat: TextureFormat): (d: PassDesc)
    ensures d == UnlitPipeline.Description(swapChainFormat).(shader := "pbr.shader", layouts := Layouts())
    ensures d.layouts[1] == UnlitPipeline.Layouts()[1]
  {
    PassDesc("pbr.shader", Layouts(), Cw, CullBack, TriangleList, [ColorState(swapChainFormat)], Some(LessWriteDepth), MeshImport.MeshVertexState())
  }

  /** `build`, given the two new buffers' handles and the sizes of
      `GlobalUniforms` and `LightingUniform`: the global bind group covers the
      whole camera buffer at 0 and the whole lighting buffer at 1, for the
      first layout. */
  function Build(layoutHandles: seq<nat>, constantsBuffer: nat, lightingBuffer: nat,
                 globalUniformsSize: nat, lightingUniformSize: nat): (s: State)
    requires |layoutHandles| >= 1
    ensures s.constantsBuffer == constantsBuffer && s.lightingBuffer == lightingBuffer
    ensures s.globalBindGroup.layout == layoutHandles[0]
    ensures s.globalBindGroup.bindings
         == [ Binding(0, BufferRange(constantsBuffer, 0, globalUniformsSize)),
              Binding(1, BufferRange(lightingBuffer, 0, lightingUniformSize)) ]
  {
    State(constantsBuffer, lightingBuffer,
      BindGroup(layoutHandles[0],
        [ Binding(0, BufferRange(constantsBuffer, 0, globalUniformsSize)),
          Binding(1, BufferRange(lightingBuffer, 0, lightingUniformSize)) ]))
  }

  /** The global bind group fits the first layout, for non-empty uniform structs. */
  lemma GlobalGroupFitsLayout(layoutHandles: seq<nat>, constantsBuffer: nat, lightingBuffer: nat,
                              globalUniformsSize: nat, lightingUniformSize: nat)
    requires |layoutHandles| >= 1 && globalUniformsSize > 0 && lightingUniformSize > 0
    ensures Conforms(Build(layoutHandles, constantsBuffer, lightingBuffer, globalUniformsSize, lightingUniformSize).globalBindGroup,
                     Layouts()[0])
  {
  }

  /** `render`: the PBR draw submission with this pass's global bind group,
      which is bound exactly once, at slot 1, whenever there is anything to
      draw and a skybox. */
  method Render(s: State, pipeline: Pipeline, skybox: Option<RenderPbr.SkyboxView>,
                ms: seq<Material>, es: seq<Entity>, meshes: MeshTable)
    returns (r: Result<seq<Cmd>>)
    ensures RenderPbr.TransformCount(es) == 0 || skybox.None? ==> r == Ok([])
    ensures RenderPbr.TransformCount(es) > 0 && skybox.Some? && skybox.value.pbrBindGroup.None? ==>
              r == Panic(MissingSkyboxPbrGroup)
    ensures RenderPbr.TransformCount(es) > 0 && skybox.Some? && skybox.value.pbrBindGroup.Some? ==>
              && (r.Ok? <==> Ready(PbrShading, ms, es, meshes))
              && (r.Panic? ==> r.fault.MissingBindGroup? || r.fault.UnknownMesh?)
    ensures RenderPbr.TransformCount(es) > 0 && skybox.Some? && r.Ok? ==>
              && r.value == [SetPipeline(pipeline.handle), SetBindGroup(1, s.globalBindGroup), SetBindGroup(3, skybox.value.pbrBindGroup.value)]
                            + BatchCmds(PbrShading, ms, es, meshes)
              && r.value[0] == SetPipeline(pipeline.handle)
              && Binds(r.value, 1) == [s.globalBindGroup]
  {
    r := RenderPbr.Run(pipeline, s.globalBindGroup, skybox, ms, es, meshes);
  }
}
