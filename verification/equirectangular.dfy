/** The cube-projection pass of src/graphics/pipelines/equirectangular.rs:
    draws a named equirectangular image into the cube-map atlas. `prepare`
    binds the image's view and sampler; `render` draws with that bind group. */
module Equirectangular {
  import opened Gpu

  /** `CubeProjectionPipelineDesc`; `new` is its constructor. */
  datatype Desc = Desc(texture: string, size: nat)

  /** `CubeProjectionPipeline`: the image name, the atlas size and the bind
      group `prepare` builds. */
  datatype State = State(texture: string, size: nat, bindGroup: Option<BindGroup>)

  /** The pass description: the shared single-image layout and a float
      target, whatever format the swap chain has. */
  function Description(swapChainFormat: TextureFormat): (d: PassDesc)
    ensures OffscreenFloatPass(d) && d.colorStates == [ColorState(Rgba32Float)]
    ensures d.shader == "hdr_to_cubemap.shader" && d.layouts == SampledImageLayouts()
  {
    OffscreenFloatDesc("hdr_to_cubemap.shader", SampledImageLayouts())
  }

  /** `build`: name and size carried over, no bind group yet. */
  function Build(d: Desc): (s: State)
    ensures s.texture == d.texture && s.size == d.size
    ensures s.bindGroup.None?
  {
    State(d.texture, d.size, None)
  }

  /** `prepare`: binds the named image's view at 0 and its sampler at 1, for the
      pipeline's first layout. The input target is not read. The asset
      manager is given as the table of its loaded images. */
  function Prepare(s: State, pipeline: Pipeline, images: map<string, ViewAndSampler>, input: Option<ViewAndSampler>): (r: State)
    requires |pipeline.bindGroupLayouts| >= 1
    requires s.texture in images
    ensures r.texture == s.texture && r.size == s.size
    ensures r.bindGroup.Some? && r.bindGroup.value.layout == pipeline.bindGroupLayouts[0]
    ensures |r.bindGroup.value.bindings| == 2
    ensures r.bindGroup.value.bindings[0] == Binding(0, View(images[s.texture].view))
    ensures r.bindGroup.value.bindings[1] == Binding(1, SamplerOf(images[s.texture].sampler))
  {
    var image := images[s.texture];
    s.(bindGroup := Some(BindGroup(pipeline.bindGroupLayouts[0], [Binding(0, View(image.view)), Binding(1, SamplerOf(image.sampler))])))
  }

  /** `render`: the pipeline, the prepared bind group at slot 0 and the
      six-vertex draw six times; before `prepare` it panics. */
  function Render(s: State, pipeline: Pipeline): (r: Result<seq<Cmd>>)
    ensures r.Ok? <==> s.bindGroup.Some?
    ensures r.Panic? ==> r.fault == UnwrapNone
    ensures r.Ok? ==>
              && |r.value| == 3
              && r.value[0] == SetPipeline(pipeline.handle)
              && Binds(r.value, 0) == [s.bindGroup.value]
              && r.value[2] == Draw(Range(0, 6), Range(0, 6))
  {
    BoundCubeDraw(pipeline, s.bindGroup)
  }

  /** `prepare` does not depend on its input target. */
  lemma PrepareIgnoresInput(s: State, pipeline: Pipeline, images: map<string, ViewAndSampler>, a: Option<ViewAndSampler>, b: Option<ViewAndSampler>)
    requires |pipeline.bindGroupLayouts| >= 1
    requires s.texture in images
    ensures Prepare(s, pipeline, images, a) == Prepare(s, pipeline, images, b)
  {
  }

  /** Rendering a freshly built pass, before any `prepare`, panics. */
  lemma RenderBeforePrepareFails(d: Desc, pipeline: Pipeline)
    ensures Render(Build(d), pipeline) == Panic(UnwrapNone)
  {
  }

  /** After `prepare`, `render` sets the pipeline, binds exactly the prepared
      group at slot 0 and draws `0..6` six times; the group fits the pass's
      layout whenever the image is a 2D view. */
  lemma RenderAfterPrepare(s: State, pipeline: Pipeline, images: map<string, ViewAndSampler>, input: Option<ViewAndSampler>)
    requires |pipeline.bindGroupLayouts| >= 1
    requires s.texture in images
    ensures var p := Prepare(s, pipeline, images, input);
            && Render(p, pipeline).Ok?
            && Render(p, pipeline).value[0] == SetPipeline(pipeline.handle)
            && Binds(Render(p, pipeline).value, 0) == [p.bindGroup.value]
            && Render(p, pipeline).value[2] == Draw(Range(0, 6), Range(0, 6))
            && (images[s.texture].view.dimension == D2 ==> Conforms(p.bindGroup.value, SampledImageLayouts()[0]))
  {
  }
}
