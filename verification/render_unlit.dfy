/** `RenderUnlit::run` of src/scene/systems/render_unlit.rs: sets the unlit
    pipeline and the global bind group at slot 1, then submits the unlit
    materials' batches. */
module RenderUnlit {
  import opened Gpu
  import opened Batching
  import MeshImport

  /** The render pass after `run`, or the panic that stopped it. */
  method Run(pipeline: Pipeline, global: BindGroup, ms: seq<Material>, es: seq<Entity>, meshes: MeshTable)
    returns (r: Result<seq<Cmd>>)
    ensures r.Ok? <==> Ready(UnlitShading, ms, es, meshes)
    ensures r.Panic? ==> r.fault.MissingBindGroup? || r.fault.UnknownMesh?
    ensures r.Ok? ==> r.value == [SetPipeline(pipeline.handle), SetBindGroup(1, global)] + BatchCmds(UnlitShading, ms, es, meshes)
    ensures r.Ok? ==>
              && |r.value| >= 2
              && r.value[0] == SetPipeline(pipeline.handle)
              && DrawOnly(r.value[2..])
              && Binds(r.value, 1) == [global]
              && GroupsBuilt(UnlitShading, ms)
              && Binds(r.value, 2) == MaterialGroups(UnlitShading, ms)
              && Binds(r.value, 0) == BatchTransforms(UnlitShading, ms, es)
              && |Draws(r.value)| == TotalDraws(UnlitShading, ms, es, meshes)
  {
    var batch :- Submit(UnlitShading, ms, es, meshes);
    UnlitTrace(pipeline, global, ms, es, meshes, batch);
    return Ok([SetPipeline(pipeline.handle), SetBindGroup(1, global)] + batch);
  }

  /** The trace `run` records for a ready batch: the pipeline, the global
      group at 1, then the batch. */
  lemma UnlitTrace(pipeline: Pipeline, global: BindGroup, ms: seq<Material>, es: seq<Entity>, meshes: MeshTable, batch: seq<Cmd>)
    requires Ready(UnlitShading, ms, es, meshes) && batch == BatchCmds(UnlitShading, ms, es, meshes)
    ensures var cmds := [SetPipeline(pipeline.handle), SetBindGroup(1, global)] + batch;
            && |cmds| >= 2
            && cmds[0] == SetPipeline(pipeline.handle)
            && DrawOnly(cmds[2..])
            && Binds(cmds, 1) == [global]
            && GroupsBuilt(UnlitShading, ms)
            && Binds(cmds, 2) == MaterialGroups(UnlitShading, ms)
            && Binds(cmds, 0) == BatchTransforms(UnlitShading, ms, es)
            && |Draws(cmds)| == TotalDraws(UnlitShading, ms, es, meshes)
  {
    var head := [SetPipeline(pipeline.handle), SetBindGroup(1, global)];
    var cmds := head + batch;
    BatchIsDrawOnly(UnlitShading, ms, es, meshes);
    EachMaterialBoundOnce(UnlitShading, ms, es, meshes);
    EntitiesBoundPerMaterial(UnlitShading, ms, es, meshes);
    DrawCountIsSubMeshTotal(UnlitShading, ms, es, meshes);
    DrawOnlyBindsNoOtherSlot(batch, 1);
    BindsAppend(head, batch, 0);
    BindsAppend(head, batch, 1);
    BindsAppend(head, batch, 2);
    DrawsAppend(head, batch);
    assert head[..1][..0] == [];
    assert head[..1] == [SetPipeline(pipeline.handle)];
    assert Binds(head[..1], 0) == [] && Binds(head[..1], 1) == [] && Binds(head[..1], 2) == [];
    assert Draws(head[..1]) == [];
    assert cmds[2..] == batch;
  }

  /** Two unlit materials, 0 and 1, with their bind groups built. */
  function TwoMaterials(): seq<Material>
  {
    [Unlit(0, Some(Group(0))), Unlit(1, Some(Group(1)))]
  }

  /** Five entities alternating between materials 0 and 1, all drawing the quad. */
  function FiveEntities(): seq<Entity>
  {
    [Placed(2, 0), Placed(3, 1), Placed(4, 0), Placed(5, 1), Placed(6, 0)]
  }

  /** Per material, the five entities' meshes are loaded, their transforms
      come in join order, and each contributes one sub-mesh. */
  lemma FiveEntitiesPerMaterial()
    ensures MeshesKnown(FiveEntities(), 0, OneQuad()) && MeshesKnown(FiveEntities(), 1, OneQuad())
    ensures Transforms(FiveEntities(), 0) == [Group(2), Group(4), Group(6)]
    ensures Transforms(FiveEntities(), 1) == [Group(3), Group(5)]
    ensures SubMeshCount(FiveEntities(), 0, OneQuad()) == 3 && SubMeshCount(FiveEntities(), 1, OneQuad()) == 2
  {
    var meshes := OneQuad();
    // The entity list, grown one entity at a time.
    var p1 := [Placed(2, 0)];
    var p2 := p1 + [Placed(3, 1)];
    var p3 := p2 + [Placed(4, 0)];
    var p4 := p3 + [Placed(5, 1)];
    var es := p4 + [Placed(6, 0)];
    assert p1[..0] == [] && p2[..1] == p1 && p3[..2] == p2 && p4[..3] == p3 && es[..4] == p4;
    assert MeshesKnown(p1, 0, meshes) && MeshesKnown(p1, 1, meshes);
    assert MeshesKnown(p2, 0, meshes) && MeshesKnown(p2, 1, meshes);
    assert MeshesKnown(p3, 0, meshes) && MeshesKnown(p3, 1, meshes);
    assert MeshesKnown(p4, 0, meshes) && MeshesKnown(p4, 1, meshes);
    assert MeshesKnown(es, 0, meshes) && MeshesKnown(es, 1, meshes);
    assert Transforms(p1, 0) == [Group(2)] && Transforms(p1, 1) == [];
    assert Transforms(p2, 0) == [Group(2)] && Transforms(p2, 1) == [Group(3)];
    assert Transforms(p3, 0) == [Group(2), Group(4)] && Transforms(p3, 1) == [Group(3)];
    assert Transforms(p4, 0) == [Group(2), Group(4)] && Transforms(p4, 1) == [Group(3), Group(5)];
    assert SubMeshCount(p1, 0, meshes) == 1 && SubMeshCount(p1, 1, meshes) == 0;
    assert SubMeshCount(p2, 0, meshes) == 1 && SubMeshCount(p2, 1, meshes) == 1;
    assert SubMeshCount(p3, 0, meshes) == 2 && SubMeshCount(p3, 1, meshes) == 1;
    assert SubMeshCount(p4, 0, meshes) == 2 && SubMeshCount(p4, 1, meshes) == 2;
    assert es == FiveEntities();
  }

  /** Three entities under material 0 and two under material 1, all with a
      one-sub-mesh mesh: the two unlit materials are bound once each, and
      every entity is drawn exactly once, material by material. */
  lemma TwoMaterialsFiveEntities()
    ensures Ready(UnlitShading, TwoMaterials(), FiveEntities(), OneQuad())
    ensures Binds(BatchCmds(UnlitShading, TwoMaterials(), FiveEntities(), OneQuad()), 2) == [Group(0), Group(1)]
    ensures Binds(BatchCmds(UnlitShading, TwoMaterials(), FiveEntities(), OneQuad()), 0)
         == [Group(2), Group(4), Group(6), Group(3), Group(5)]
    ensures |Draws(BatchCmds(UnlitShading, TwoMaterials(), FiveEntities(), OneQuad()))| == 5
  {
    var ms, es, meshes := TwoMaterials(), FiveEntities(), OneQuad();
    FiveEntitiesPerMaterial();
    assert ms[..1][..0] == [];
    assert ms[..1] == [ms[0]];
    assert MaterialReady(UnlitShading, ms[0], es, meshes) && MaterialReady(UnlitShading, ms[1], es, meshes);
    assert Ready(UnlitShading, ms[..1][..0], es, meshes);
    assert Ready(UnlitShading, ms[..1], es, meshes);
    assert Ready(UnlitShading, ms, es, meshes);
    EachMaterialBoundOnce(UnlitShading, ms, es, meshes);
    EntitiesBoundPerMaterial(UnlitShading, ms, es, meshes);
    DrawCountIsSubMeshTotal(UnlitShading, ms, es, meshes);
    assert MaterialGroups(UnlitShading, ms[..1]) == [Group(0)];
    assert BatchTransforms(UnlitShading, ms[..1], es) == [Group(2), Group(4), Group(6)];
    assert TotalDraws(UnlitShading, ms[..1], es, meshes) == 3;
  }

  /** A bind group told apart by its layout handle alone. */
  function Group(n: nat): BindGroup
  {
    BindGroup(n, [])
  }

  /** An entity drawing the "quad" mesh with material `material` and transform `Group(transform)`. */
  function Placed(transform: nat, material: int): Entity
  {
    Entity(Some("quad"), Some(material), Some(Group(transform)))
  }

  /** A table holding one mesh, "quad", with a single three-index sub-mesh. */
  function OneQuad(): MeshTable
  {
    map["quad" := MeshImport.Mesh([MeshImport.SubMesh([], [0, 1, 2], 3, TriangleList, None, 1, 2, 0)])]
  }
}
