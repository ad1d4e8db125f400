/** The irradiance pass of src/graphics/pipelines/irradiance.rs: convolves
    the render target it is given as input. `prepare` binds the input's view
    and sampler and panics without an input; `render` draws with that bind
    group. */
module Irradiance {
  import opened Gpu

  /** `IrradiancePipelineDesc`; `new` is its constructor. */
  datatype Desc = Desc(size: nat)

  /** `IrradiancePipeline`: the size and the bind group `prepare` builds. */
  datatype State = State(size: nat, bindGroup: Option<BindGroup>)

  /** The pass description: the shared single-image layout and a float
      target, whatever format the swap chain has. */
  function Description(swapChainFormat: TextureFormat): (d: PassDesc)
    ensures OffscreenFloatPass(d) && d.colorStates == [ColorState(Rgba32Float)]
    ensures d.shader == "irradiance.shader" && d.layouts == SampledImageLayouts()
  {
    OffscreenFloatDesc("irradiance.shader", SampledImageLayouts())
  }

  /** `build`: the size carried over, no bind group yet. */
  function Build(d: Desc): (s: State)
    ensures s.size == d.size && s.bindGroup.None?
  {
    State(d.size, None)
  }

  /** `prepare`: binds the input's view at 0 and its sampler at 1, for the
      pipeline's first layout; without an input it panics. */
  function Prepare(s: State, pipeline: Pipeline, input: Option<ViewAndSampler>): (r: Result<State>)
    requires |pipeline.bindGroupLayouts| >= 1
    ensures r.Ok? <==> input.Some?
    ensures r.Panic? ==> r.fault == UnwrapNone
    ensures r.Ok? ==>
              && r.value.size == s.size
              && r.value.bindGroup.Some? && r.value.bindGroup.value.layout == pipeline.bindGroupLayouts[0]
              && r.value.bindGroup.value.bindings
                   == [Binding(0, View(input.value.view)), Binding(1, SamplerOf(input.value.sampler))]
  {
    if input.None? then Panic(UnwrapNone)
    else
      var target := input.value;
      Ok(s.(bindGroup := Some(BindGroup(pipeline.bindGroupLayouts[0], [Binding(0, View(target.view)), Binding(1, SamplerOf(target.sampler))]))))
  }

  /** `render`: the pipeline, the prepared bind group at slot 0 and the
      six-vertex draw six times; before `prepare` it panics. */
  function Render(s: State, pipeline: Pipeline): (r: Result<seq<Cmd>>)
    ensures r.Ok? <==> s.bindGroup.Some?
    ensures r.Panic? ==> r.fault == UnwrapNone
    ensures r.Ok? ==>
              && |r.value| == 3
              && r.value[0] == SetPipeline(pipeline.handle)
              && Binds(r.value, 0) == [s.bindGroup.value]
              && r.value[2] == Draw(Range(0, 6), Range(0, 6))
  {
    BoundCubeDraw(pipeline, s.bindGroup)
  }

  /** Rendering a freshly built pass, before any `prepare`, panics. */
  lemma RenderBeforePrepareFails(d: Desc, pipeline: Pipeline)
    ensures Render(Build(d), pipeline) == Panic(UnwrapNone)
  {
  }

  /** After a successful `prepare`, `render` sets the pipeline, binds exactly
      the prepared group at slot 0 and draws `0..6` six times; the group fits
      the pass's layout whenever the input is a 2D view. */
  lemma RenderAfterPrepare(s: State, pipeline: Pipeline, input: ViewAndSampler)
    requires |pipeline.bindGroupLayouts| >= 1
    ensures var p := Prepare(s, pipeline, Some(input)).value;
            && Render(p, pipeline).Ok?
            && Render(p, pipeline).value[0] == SetPipeline(pipeline.handle)
            && Binds(Render(p, pipeline).value, 0) == [p.bindGroup.value]
            && Render(p, pipeline).value[2] == Draw(Range(0, 6), Range(0, 6))
            && (input.view.dimension == D2 ==> Conforms(p.bindGroup.value, SampledImageLayouts()[0]))
  {
  }
}
