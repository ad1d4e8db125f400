/** The BRDF look-up pass of src/graphics/pipelines/specular_brdf.rs: no
    bindings, a no-op `prepare`, and a `render` that draws one full-screen
    triangle into an 8-bit sRGB target. */
module SpecularBrdf {
  import opened Gpu

  /** `SpecularBRDFPipelineDesc`; `new` is its constructor. */
  datatype Desc = Desc(size: nat)

  /** `SpecularBRDFPipeline`. */
  datatype State = State(size: nat)

  /** `create_layout`: the pass binds nothing. */
  function Layouts(): (ls: seq<seq<LayoutEntry>>)
    ensures |ls| == 0
  {
    []
  }

  /** The pass description: one 8-bit sRGB target, no depth, no vertex input. */
  function Description(swapChainFormat: TextureFormat): (d: PassDesc)
    ensures d.colorStates == [ColorState(Rgba8UnormSrgb)] && d.depth.None?
    ensures d.vertex == EmptyVertexState && d.layouts == Layouts()
    ensures d.shader == "specular_brdf.shader"
  {
    PassDesc("specular_brdf.shader", Layouts(), Cw, CullNone, TriangleList, [ColorState(Rgba8UnormSrgb)], None, EmptyVertexState)
  }

  /** `build`: the size carried over. */
  function Build(d: Desc): (s: State)
    ensures s.size == d.size
  {
    State(d.size)
  }

  /** `prepare` has no effect, whatever its input. */
  function Prepare(s: State, input: Option<ViewAndSampler>): (r: State)
    ensures r == s
  {
    s
  }

  /** `render`: the pipeline, then three vertices drawn once, without any bind
      group; it cannot panic. */
  function Render(s: State, pipeline: Pipeline): (cmds: seq<Cmd>)
    ensures |cmds| == 2 && cmds[0] == SetPipeline(pipeline.handle)
    ensures cmds[1] == Draw(Range(0, 3), Range(0, 1))
    ensures forall slot :: Binds(cmds, slot) == []
  {
    var cmds := [SetPipeline(pipeline.handle), Draw(Range(0, 3), Range(0, 1))];
    assert cmds[..1][..0] == [];
    assert cmds[..1] == [SetPipeline(pipeline.handle)];
    assert forall slot :: Binds(cmds[..1], slot) == [];
    assert forall slot :: Binds(cmds, slot) == Binds(cmds[..1], slot);
    cmds
  }
}
