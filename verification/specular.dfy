/** The specular pre-filter pass of src/graphics/pipelines/specular.rs: one
    pass per mip level of the specular cube map. `build` creates its uniform
    buffer; `prepare` binds that buffer, the input's view and its sampler and
    panics without an input; `render` draws with that bind group. */
module Specular {
  import opened Gpu

  /** `SpecularPipelineDesc`; `new` is its constructor. The resolution is an
      f32 that is only copied. */
  datatype Desc = Desc(mipLevel: nat, resolution: int)

  /** `SpecularPipeline`: its uniform buffer, the resolution and the bind group
      `prepare` builds. */
  datatype State = State(constantsBuffer: nat, resolution: int, bindGroup: Option<BindGroup>)

  /** `size_of::<Uniforms>()`: roughness and resolution, two f32s. */
  const UniformsSize: nat := 2 * 4

  /** The one layout: the uniform buffer at 0, a 2D view at 1 and a sampler
      at 2, all read by the fragment stage. */
  function Layouts(): (ls: seq<seq<LayoutEntry>>)
    ensures |ls| == 1 && |ls[0]| == 3 && Consecutive(ls[0])
    ensures ls[0][0].ty == UniformBuffer && ls[0][1].ty == SampledTexture(D2) && ls[0][2].ty == Sampler
    ensures forall k :: 0 <= k < |ls[0]| ==> ls[0][k].visibility == {FragmentStage}
  {
    [[ LayoutEntry(0, {FragmentStage}, UniformBuffer),
       LayoutEntry(1, {FragmentStage}, SampledTexture(D2)),
       LayoutEntry(2, {FragmentStage}, Sampler) ]]
  }

  /** The pass description: a float target, whatever format the swap chain has. */
  function Description(swapChainFormat: TextureFormat): (d: PassDesc)
    ensures OffscreenFloatPass(d) && d.colorStates == [ColorState(Rgba32Float)]
    ensures d.shader == "specular.shader" && d.layouts == Layouts()
  {
    OffscreenFloatDesc("specular.shader", Layouts())
  }

  /** `build`, given the uniform buffer it creates: the resolution carried
      over, no bind group yet. */
  function Build(d: Desc, constantsBuffer: nat): (s: State)
    ensures s.resolution == d.resolution && s.constantsBuffer == constantsBuffer
    ensures s.bindGroup.None?
  {
    State(constantsBuffer, d.resolution, None)
  }

  /** `prepare`: binds the whole uniform buffer at 0, the input's view at 1 and
      its sampler at 2, for the pipeline's first layout; without an input it
      panics. */
  function Prepare(s: State, pipeline: Pipeline, input: Option<ViewAndSampler>): (r: Result<State>)
    requires |pipeline.bindGroupLayouts| >= 1
    ensures r.Ok? <==> input.Some?
    ensures r.Panic? ==> r.fault == UnwrapNone
    ensures r.Ok? ==>
              && r.value.constantsBuffer == s.constantsBuffer && r.value.resolution == s.resolution
              && r.value.bindGroup.Some? && r.value.bindGroup.value.layout == pipeline.bindGroupLayouts[0]
              && r.value.bindGroup.value.bindings
                   == [ Binding(0, BufferRange(s.constantsBuffer, 0, UniformsSize)),
                        Binding(1, View(input.value.view)),
                        Binding(2, SamplerOf(input.value.sampler)) ]
  {
    if input.None? then Panic(UnwrapNone)
    else
      var target := input.value;
      var group := BindGroup(pipeline.bindGroupLayouts[0],
        [ Binding(0, BufferRange(s.constantsBuffer, 0, UniformsSize)),
          Binding(1, View(target.view)),
          Binding(2, SamplerOf(target.sampler)) ]);
      Ok(s.(bindGroup := Some(group)))
  }

  /** `render`: the pipeline, the prepared bind group at slot 0 and the
      six-vertex draw six times; before `prepare` it panics. */
  function Render(s: State, pipeline: Pipeline): (r: Result<seq<Cmd>>)
    ensures r.Ok? <==> s.bindGroup.Some?
    ensures r.Panic? ==> r.fault == UnwrapNone
    ensures r.Ok? ==>
              && |r.value| == 3
              && r.value[0] == SetPipeline(pipeline.handle)
              && Binds(r.value, 0) == [s.bindGroup.value]
              && r.value[2] == Draw(Range(0, 6), Range(0, 6))
  {
    BoundCubeDraw(pipeline, s.bindGroup)
  }

  /** Rendering a freshly built pass, before any `prepare`, panics. */
  lemma RenderBeforePrepareFails(d: Desc, buffer: nat, pipeline: Pipeline)
    ensures Render(Build(d, buffer), pipeline) == Panic(UnwrapNone)
  {
  }

  /** After a successful `prepare`, `render` sets the pipeline, binds exactly
      the prepared group at slot 0 and draws `0..6` six times; the group fits
      the pass's layout whenever the input is a 2D view. */
  lemma RenderAfterPrepare(s: State, pipeline: Pipeline, input: ViewAndSampler)
    requires |pipeline.bindGroupLayouts| >= 1
    ensures var p := Prepare(s, pipeline, Some(input)).value;
            && Render(p, pipeline).Ok?
            && Render(p, pipeline).value[0] == SetPipeline(pipeline.handle)
            && Binds(Render(p, pipeline).value, 0) == [p.bindGroup.value]
            && Render(p, pipeline).value[2] == Draw(Range(0, 6), Range(0, 6))
            && (input.view.dimension == D2 ==> Conforms(p.bindGroup.value, Layouts()[0]))
  {
  }
}
