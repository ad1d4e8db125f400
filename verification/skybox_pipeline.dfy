/** The skybox pass of src/graphics/pipelines/skybox.rs. `build` creates a
    uniform buffer of two identity matrices and binds it; `prepare` picks the
    first active camera and records a copy of its matrices into a command
    encoder of its own, which it then drops; `render` records nothing. */
module SkyboxPipeline {
  import opened Gpu
  import SkyboxMaterial

  /** A 4×4 matrix of f32s, row by row; its entries are only copied. */
  datatype Mat4 = Mat4(entries: seq<int>)

  /** The identity matrix: ones where the row equals the column. */
  function Identity(): (m: Mat4)
    ensures |m.entries| == 16
    ensures forall i :: 0 <= i < 16 ==> m.entries[i] == if i / 4 == i % 4 then 1 else 0
  {
    Mat4(seq(16, i => if i % 5 == 0 then 1 else 0))
  }

  /** The camera component: whether it is active and its two matrices. */
  datatype CameraData = CameraData(active: bool, projection: Mat4, view: Mat4)

  /** `SkyboxUniforms`: the matrices the skybox shader reads. */
  datatype SkyboxUniforms = SkyboxUniforms(proj: Mat4, view: Mat4)

  /** `size_of::<SkyboxUniforms>()`: two matrices of sixteen f32s. */
  const UniformsSize: nat := 2 * 16 * 4

  /** `SkyboxPipeline`: its uniform buffer and the bind group over it. */
  datatype State = State(constantsBuffer: nat, globalBindGroup: BindGroup)

  /** Two layouts: the uniform buffer for the vertex stage, then the cube view
      and its sampler for the fragment stage. */
  function Layouts(): (ls: seq<seq<LayoutEntry>>)
    ensures |ls| == 2 && |ls[0]| == 1 && |ls[1]| == 2
    ensures Consecutive(ls[0]) && Consecutive(ls[1])
    ensures ls[0][0] == LayoutEntry(0, {VertexStage}, UniformBuffer)
    ensures ls[1][0].ty == SampledTexture(Cube) && ls[1][1].ty == Sampler
    ensures ls[1][0].visibility == ls[1][1].visibility == {FragmentStage}
  {
    [ [LayoutEntry(0, {VertexStage}, UniformBuffer)],
      [LayoutEntry(0, {FragmentStage}, SampledTexture(Cube)), LayoutEntry(1, {FragmentStage}, Sampler)] ]
  }

  /** The pass description: the swap chain's format, the renderer's depth
      test, 16-bit indices and no vertex buffer. */
  function Description(swapChainFormat: TextureFormat): (d: PassDesc)
    ensures d.colorStates == [ColorState(swapChainFormat)] && d.depth == Some(LessWriteDepth)
    ensures d.vertex.indexFormat == Some(Uint16) && d.vertex.buffers == []
    ensures d.layouts == Layouts() && d.shader == "skybox.shader"
    ensures d.frontFace == Cw && d.cullMode == CullNone && d.topology == TriangleList
  {
    PassDesc("skybox.shader", Layouts(), Cw, CullNone, TriangleList, [ColorState(swapChainFormat)], Some(LessWriteDepth),
             VertexState(Some(Uint16), []))
  }

  /** What `build` creates: the pipeline state and the uniform buffer's
      initial contents. */
  datatype Built = Built(state: State, initial: SkyboxUniforms)

  /** `build`, given the new buffer's handle: the buffer starts with identity
      matrices and the bind group covers all of it, for the first layout. */
  function Build(layoutHandles: seq<nat>, constantsBuffer: nat): (b: Built)
    requires |layoutHandles| >= 1
    ensures b.initial.proj == Identity() && b.initial.view == Identity()
    ensures b.state.constantsBuffer == constantsBuffer
    ensures b.state.globalBindGroup.layout == layoutHandles[0]
    ensures b.state.globalBindGroup.bindings == [Binding(0, BufferRange(constantsBuffer, 0, UniformsSize))]
  {
    Built(State(constantsBuffer, BindGroup(layoutHandles[0], [Binding(0, BufferRange(constantsBuffer, 0, UniformsSize))])),
          SkyboxUniforms(Identity(), Identity()))
  }

  /** The position of the first active camera, in join order. */
  function FirstActive(cameras: seq<CameraData>): (r: Option<nat>)
    ensures r.Some? ==> r.value < |cameras| && cameras[r.value].active
    ensures r.Some? ==> forall j :: 0 <= j < r.value ==> !cameras[j].active
    ensures r.None? <==> forall j :: 0 <= j < |cameras| ==> !cameras[j].active
  {
    if cameras == [] then None
    else if cameras[0].active then Some(0)
    else
      match FirstActive(cameras[1..])
      case None => None
      case Some(i) => Some(i + 1)
  }

  /** What `prepare` leaves behind: the shared encoder, the encoder it created
      for itself (and drops without submitting), and the uniforms it wrote
      into a new staging buffer, if any. */
  datatype Prepared = Prepared(shared: seq<EncoderCmd>, local: seq<EncoderCmd>, uniforms: Option<SkyboxUniforms>)

  /** `prepare`: nothing without a skybox resource or an active camera;
      otherwise the first active camera's matrices go into the staging
      buffer, and a copy of it into the uniform buffer is recorded into the
      local encoder. The shared encoder is never touched. */
  function Prepare(s: State, skyboxPresent: bool, cameras: seq<CameraData>, staging: nat, shared: seq<EncoderCmd>): (r: Prepared)
    ensures r.shared == shared
    ensures !skyboxPresent || (forall j :: 0 <= j < |cameras| ==> !cameras[j].active) ==>
              r.local == [] && r.uniforms.None?
    ensures skyboxPresent && FirstActive(cameras).Some? ==>
              var c := cameras[FirstActive(cameras).value];
              && r.uniforms == Some(SkyboxUniforms(c.projection, c.view))
              && r.local == [CopyBufferToBuffer(staging, 0, s.constantsBuffer, 0, UniformsSize)]
  {
    if !skyboxPresent then Prepared(shared, [], None)
    else
      match FirstActive(cameras)
      case None => Prepared(shared, [], None)
      case Some(i) =>
        var camera := cameras[i];
        Prepared(shared, [CopyBufferToBuffer(staging, 0, s.constantsBuffer, 0, UniformsSize)],
                 Some(SkyboxUniforms(camera.projection, camera.view)))
  }

  /** `render` records nothing: the skybox is not drawn by this pass. */
  function Render(s: State, pipeline: Pipeline): (cmds: seq<Cmd>)
    ensures cmds == []
  {
    []
  }

  /** With several active cameras the earliest one is used, and a camera that
      is not active is never used. */
  lemma FirstActiveCameraWins(s: State, cameras: seq<CameraData>, staging: nat, shared: seq<EncoderCmd>, i: nat)
    requires i < |cameras| && cameras[i].active
    requires forall j :: 0 <= j < i ==> !cameras[j].active
    ensures Prepare(s, true, cameras, staging, shared).uniforms == Some(SkyboxUniforms(cameras[i].projection, cameras[i].view))
  {
    var k := FirstActive(cameras);
    assert k.Some?;
    assert k.value == i;
  }

  /** The bind group `build` creates fits the first layout. */
  lemma GlobalGroupFitsLayout(layoutHandles: seq<nat>, constantsBuffer: nat)
    requires |layoutHandles| >= 1
    ensures Conforms(Build(layoutHandles, constantsBuffer).state.globalBindGroup, Layouts()[0])
  {
  }

  /** The skybox material's bind group fits the second layout once its view is
      a cube view, as the one `Skybox::new` creates is. */
  lemma MaterialGroupFitsLayout(skybox: SkyboxMaterial.Skybox, materialLayout: nat)
    requires skybox.view.dimension == Cube
    ensures Conforms(SkyboxMaterial.CreateBindGroup(skybox, materialLayout).bindGroup.value, Layouts()[1])
  {
  }
}
