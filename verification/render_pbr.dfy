/** `RenderPBR::run` of src/scene/systems/render_pbr.rs: nothing at all when
    no entity has a transform or there is no skybox resource; otherwise the
    PBR pipeline, the global bind group at slot 1 and the skybox's PBR bind
    group at slot 3, then the PBR materials' batches. */
module RenderPbr {
  import opened Gpu
  import opened Batching

  /** The part of the skybox resource `run` reads: its PBR bind group, built
      by a step that is not part of this model. */
  datatype SkyboxView = SkyboxView(pbrBindGroup: Option<BindGroup>)

  /** `transforms.count()`: the number of entities with a transform, drawn or not. */
  function TransformCount(es: seq<Entity>): nat
  {
    if es == [] then 0
    else TransformCount(es[..|es| - 1]) + (if es[|es| - 1].transform.Some? then 1 else 0)
  }

  /** The count is zero exactly when no entity has a transform. */
  lemma {:induction false} NoTransformsIff(es: seq<Entity>)
    ensures TransformCount(es) == 0 <==> forall j :: 0 <= j < |es| ==> es[j].transform.None?
    ensures TransformCount(es) <= |es|
    decreases |es|
  {
    if es != [] {
      NoTransformsIff(es[..|es| - 1]);
      assert forall j :: 0 <= j < |es| - 1 ==> es[..|es| - 1][j] == es[j];
    }
  }

  /** The render pass after `run`, or the panic that stopped it. */
  method Run(pipeline: Pipeline, global: BindGroup, skybox: Option<SkyboxView>,
             ms: seq<Material>, es: seq<Entity>, meshes: MeshTable)
    returns (r: Result<seq<Cmd>>)
    ensures TransformCount(es) == 0 || skybox.None? ==> r == Ok([])
    ensures TransformCount(es) > 0 && skybox.Some? && skybox.value.pbrBindGroup.None? ==>
              r == Panic(MissingSkyboxPbrGroup)
    ensures TransformCount(es) > 0 && skybox.Some? && skybox.value.pbrBindGroup.Some? ==>
              && (r.Ok? <==> Ready(PbrShading, ms, es, meshes))
              && (r.Panic? ==> r.fault.MissingBindGroup? || r.fault.UnknownMesh?)
    ensures TransformCount(es) > 0 && skybox.Some? && r.Ok? ==>
              && skybox.value.pbrBindGroup.Some?
              && r.value == [SetPipeline(pipeline.handle), SetBindGroup(1, global), SetBindGroup(3, skybox.value.pbrBindGroup.value)]
                            + BatchCmds(PbrShading, ms, es, meshes)
    ensures TransformCount(es) > 0 && skybox.Some? && r.Ok? ==>
              && |r.value| >= 3
              && r.value[0] == SetPipeline(pipeline.handle)
              && DrawOnly(r.value[3..])
              && Binds(r.value, 1) == [global]
              && Binds(r.value, 3) == [skybox.value.pbrBindGroup.value]
              && GroupsBuilt(PbrShading, ms)
              && Binds(r.value, 2) == MaterialGroups(PbrShading, ms)
              && Binds(r.value, 0) == BatchTransforms(PbrShading, ms, es)
              && |Draws(r.value)| == TotalDraws(PbrShading, ms, es, meshes)
  {
    if TransformCount(es) == 0 || skybox.None? {
      return Ok([]);
    }
    if skybox.value.pbrBindGroup.None? {
      return Panic(MissingSkyboxPbrGroup);
    }
    var environment := skybox.value.pbrBindGroup.value;
    var batch :- Submit(PbrShading, ms, es, meshes);
    PbrTrace(pipeline, global, environment, ms, es, meshes, batch);
    return Ok([SetPipeline(pipeline.handle), SetBindGroup(1, global), SetBindGroup(3, environment)] + batch);
  }

  /** The three commands before the batch set the pipeline, bind the global
      group at 1 and the environment at 3, and draw nothing. */
  lemma HeadProjections(pipeline: Pipeline, global: BindGroup, environment: BindGroup)
    ensures var head := [SetPipeline(pipeline.handle), SetBindGroup(1, global), SetBindGroup(3, environment)];
            && Binds(head, 0) == [] && Binds(head, 1) == [global] && Binds(head, 2) == []
            && Binds(head, 3) == [environment] && Draws(head) == []
  {
    var h1 := [SetPipeline(pipeline.handle)];
    var h2 := h1 + [SetBindGroup(1, global)];
    var head := h2 + [SetBindGroup(3, environment)];
    assert h1[..0] == [] && h2[..1] == h1 && head[..2] == h2;
    assert Binds(h1, 0) == [];
    assert Binds(h1, 1) == [];
    assert Binds(h1, 2) == [];
    assert Binds(h1, 3) == [];
    assert Draws(h1) == [];
    assert Binds(h2, 0) == [] && Binds(h2, 1) == [global] && Binds(h2, 2) == [] && Binds(h2, 3) == [] && Draws(h2) == [];
    assert head == [SetPipeline(pipeline.handle), SetBindGroup(1, global), SetBindGroup(3, environment)];
  }

  /** The trace `run` records for a ready batch: the head, then the batch. */
  lemma PbrTrace(pipeline: Pipeline, global: BindGroup, environment: BindGroup,
                 ms: seq<Material>, es: seq<Entity>, meshes: MeshTable, batch: seq<Cmd>)
    requires Ready(PbrShading, ms, es, meshes) && batch == BatchCmds(PbrShading, ms, es, meshes)
    ensures var cmds := [SetPipeline(pipeline.handle), SetBindGroup(1, global), SetBindGroup(3, environment)] + batch;
            && |cmds| >= 3
            && cmds[0] == SetPipeline(pipeline.handle)
            && DrawOnly(cmds[3..])
            && Binds(cmds, 1) == [global]
            && Binds(cmds, 3) == [environment]
            && GroupsBuilt(PbrShading, ms)
            && Binds(cmds, 2) == MaterialGroups(PbrShading, ms)
            && Binds(cmds, 0) == BatchTransforms(PbrShading, ms, es)
            && |Draws(cmds)| == TotalDraws(PbrShading, ms, es, meshes)
  {
    var head := [SetPipeline(pipeline.handle), SetBindGroup(1, global), SetBindGroup(3, environment)];
    var cmds := head + batch;
    HeadProjections(pipeline, global, environment);
    BatchIsDrawOnly(PbrShading, ms, es, meshes);
    EachMaterialBoundOnce(PbrShading, ms, es, meshes);
    EntitiesBoundPerMaterial(PbrShading, ms, es, meshes);
    DrawCountIsSubMeshTotal(PbrShading, ms, es, meshes);
    DrawOnlyBindsNoOtherSlot(batch, 1);
    DrawOnlyBindsNoOtherSlot(batch, 3);
    BindsAppend(head, batch, 0);
    BindsAppend(head, batch, 1);
    BindsAppend(head, batch, 2);
    BindsAppend(head, batch, 3);
    DrawsAppend(head, batch);
    assert cmds[3..] == batch;
  }
}
