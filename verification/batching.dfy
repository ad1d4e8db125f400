/** Material-batched draw submission, the loop shared by
    src/scene/systems/render_unlit.rs and src/scene/systems/render_pbr.rs:
    for every asset material of the pass's shading model, in the asset list's
    order, bind the material once at slot 2, then draw every entity that has a
    mesh, a material and a transform and whose material index is the
    material's: bind its transform at slot 0, then bind and draw each of its
    mesh's sub-meshes in order. Materials of the other shading model emit
    nothing. */
module Batching {
  import opened Gpu
  import MeshImport

  datatype Shading = UnlitShading | PbrShading

  /** An asset material: its shading model, the index entities refer to it by,
      and the bind group of its data once that has been built. */
  datatype Material = Unlit(index: int, bindGroup: Option<BindGroup>) | PBR(index: int, bindGroup: Option<BindGroup>)

  function ShadingOf(m: Material): Shading
  {
    if m.Unlit? then UnlitShading else PbrShading
  }

  /** The components of a scene entity the draw reads: the name of its mesh,
      the index of its material and the bind group of its transform. */
  datatype Entity = Entity(mesh: Option<string>, material: Option<int>, transform: Option<BindGroup>)

  /** The asset manager's meshes, by name. */
  type MeshTable = map<string, MeshImport.Mesh>

  /** The entity is in the join of meshes, materials and transforms. */
  predicate Joined(e: Entity)
  {
    e.mesh.Some? && e.material.Some? && e.transform.Some?
  }

  /** The entity is drawn under the material with index `index`. */
  predicate DrawnUnder(e: Entity, index: int)
  {
    Joined(e) && e.material.value == index
  }

  /** Every entity drawn under `index` names a mesh the table holds. */
  predicate MeshesKnown(es: seq<Entity>, index: int, meshes: MeshTable)
  {
    es == [] ||
      var e := es[|es| - 1];
      MeshesKnown(es[..|es| - 1], index, meshes) && (DrawnUnder(e, index) ==> e.mesh.value in meshes)
  }

  /** Drawing with material `m` does not panic: its bind group data is built
      and the meshes of its entities are loaded. */
  predicate MaterialReady(kind: Shading, m: Material, es: seq<Entity>, meshes: MeshTable)
  {
    ShadingOf(m) == kind ==> m.bindGroup.Some? && MeshesKnown(es, m.index, meshes)
  }

  /** Drawing with every material of the list does not panic. */
  predicate Ready(kind: Shading, ms: seq<Material>, es: seq<Entity>, meshes: MeshTable)
  {
    ms == [] || (Ready(kind, ms[..|ms| - 1], es, meshes) && MaterialReady(kind, ms[|ms| - 1], es, meshes))
  }

  /** `MeshesKnown` holds exactly when each entity drawn under `index` names a known mesh. */
  lemma {:induction false} MeshesKnownEverywhere(es: seq<Entity>, index: int, meshes: MeshTable)
    ensures MeshesKnown(es, index, meshes)
        <==> forall j :: 0 <= j < |es| && DrawnUnder(es[j], index) ==> es[j].mesh.value in meshes
    decreases |es|
  {
    if es != [] {
      MeshesKnownEverywhere(es[..|es| - 1], index, meshes);
    }
  }

  /** `Ready` holds exactly when each material of the list is ready. */
  lemma {:induction false} ReadyEverywhere(kind: Shading, ms: seq<Material>, es: seq<Entity>, meshes: MeshTable)
    ensures Ready(kind, ms, es, meshes) <==> forall i :: 0 <= i < |ms| ==> MaterialReady(kind, ms[i], es, meshes)
    decreases |ms|
  {
    if ms != [] {
      ReadyEverywhere(kind, ms[..|ms| - 1], es, meshes);
    }
  }

  lemma {:induction false} MeshesKnownPrefix(es: seq<Entity>, k: nat, index: int, meshes: MeshTable)
    requires k <= |es| && MeshesKnown(es, index, meshes)
    ensures MeshesKnown(es[..k], index, meshes)
    decreases |es|
  {
    if k < |es| {
      MeshesKnownPrefix(es[..|es| - 1], k, index, meshes);
      assert es[..|es| - 1][..k] == es[..k];
    } else {
      assert es[..k] == es;
    }
  }

  lemma {:induction false} ReadyPrefix(kind: Shading, ms: seq<Material>, k: nat, es: seq<Entity>, meshes: MeshTable)
    requires k <= |ms| && Ready(kind, ms, es, meshes)
    ensures Ready(kind, ms[..k], es, meshes)
    decreases |ms|
  {
    if k < |ms| {
      ReadyPrefix(kind, ms[..|ms| - 1], k, es, meshes);
      assert ms[..|ms| - 1][..k] == ms[..k];
    } else {
      assert ms[..k] == ms;
    }
  }

  // ---------------------------------------------------------------------
  // The trace, stated per sub-mesh, entity and material

  /** One sub-mesh: its index buffer, its vertex buffer at slot 0 (whole
      buffers), then one instance of all its indices, the count cut to 32 bits. */
  function SubMeshCmds(s: MeshImport.SubMesh): seq<Cmd>
  {
    [ SetIndexBuffer(s.indexBuffer, 0, 0),
      SetVertexBuffer(0, s.vertexBuffer, 0, 0),
      DrawIndexed(Range(0, AsU32(s.indexCount)), 0, Range(0, 1)) ]
  }

  function MeshCmds(subs: seq<MeshImport.SubMesh>): seq<Cmd>
  {
    if subs == [] then [] else MeshCmds(subs[..|subs| - 1]) + SubMeshCmds(subs[|subs| - 1])
  }

  function EntityCmds(e: Entity, meshes: MeshTable): seq<Cmd>
    requires Joined(e) && e.mesh.value in meshes
  {
    [SetBindGroup(0, e.transform.value)] + MeshCmds(meshes[e.mesh.value].subMeshes)
  }

  function EntitiesCmds(es: seq<Entity>, index: int, meshes: MeshTable): seq<Cmd>
    requires MeshesKnown(es, index, meshes)
  {
    if es == [] then []
    else
      var e := es[|es| - 1];
      EntitiesCmds(es[..|es| - 1], index, meshes) + (if DrawnUnder(e, index) then EntityCmds(e, meshes) else [])
  }

  function MaterialCmds(kind: Shading, m: Material, es: seq<Entity>, meshes: MeshTable): seq<Cmd>
    requires MaterialReady(kind, m, es, meshes)
  {
    if ShadingOf(m) == kind then [SetBindGroup(2, m.bindGroup.value)] + EntitiesCmds(es, m.index, meshes) else []
  }

  function BatchCmds(kind: Shading, ms: seq<Material>, es: seq<Entity>, meshes: MeshTable): seq<Cmd>
    requires Ready(kind, ms, es, meshes)
  {
    if ms == [] then []
    else BatchCmds(kind, ms[..|ms| - 1], es, meshes) + MaterialCmds(kind, ms[|ms| - 1], es, meshes)
  }

  // ---------------------------------------------------------------------
  // The loop

  /** The sub-mesh loop of one entity. */
  method SubmitMesh(subs: seq<MeshImport.SubMesh>) returns (cmds: seq<Cmd>)
    ensures cmds == MeshCmds(subs)
  {
    cmds := [];
    var k := 0;
    while k < |subs|
      invariant 0 <= k <= |subs|
      invariant cmds == MeshCmds(subs[..k])
    {
      assert subs[..k + 1][..k] == subs[..k];
      cmds := cmds + SubMeshCmds(subs[k]);
      k := k + 1;
    }
    assert subs[..k] == subs;
  }

  /** The entity loop of one material: the join of meshes, materials and
      transforms, filtered on the material's index. */
  method SubmitEntities(es: seq<Entity>, index: int, meshes: MeshTable) returns (r: Result<seq<Cmd>>)
    ensures r.Ok? <==> MeshesKnown(es, index, meshes)
    ensures r.Ok? ==> r.value == EntitiesCmds(es, index, meshes)
    ensures r.Panic? ==> r.fault.UnknownMesh? && r.fault.name !in meshes
  {
    var cmds: seq<Cmd> := [];
    var j := 0;
    while j < |es|
      invariant 0 <= j <= |es|
      invariant MeshesKnown(es[..j], index, meshes)
      invariant cmds == EntitiesCmds(es[..j], index, meshes)
    {
      var e := es[j];
      assert es[..j + 1][..j] == es[..j];
      if Joined(e) && e.material.value == index {
        if e.mesh.value !in meshes {
          if MeshesKnown(es, index, meshes) {
            MeshesKnownPrefix(es, j + 1, index, meshes);
            assert false;
          }
          return Panic(UnknownMesh(e.mesh.value));
        }
        var drawn := SubmitMesh(meshes[e.mesh.value].subMeshes);
        cmds := cmds + ([SetBindGroup(0, e.transform.value)] + drawn);
      }
      j := j + 1;
    }
    assert es[..j] == es;
    return Ok(cmds);
  }

  /** The material loop of `run`: the commands it records, or the panic that
      stops it (a material without bind group data, or an entity whose mesh
      the asset manager does not hold). */
  method Submit(kind: Shading, ms: seq<Material>, es: seq<Entity>, meshes: MeshTable) returns (r: Result<seq<Cmd>>)
    ensures r.Ok? <==> Ready(kind, ms, es, meshes)
    ensures r.Ok? ==> r.value == BatchCmds(kind, ms, es, meshes)
    ensures r.Panic? && r.fault.MissingBindGroup? ==>
              && r.fault.position < |ms|
              && ShadingOf(ms[r.fault.position]) == kind
              && ms[r.fault.position].bindGroup.None?
              && Ready(kind, ms[..r.fault.position], es, meshes)
    ensures r.Panic? ==> r.fault.MissingBindGroup? || (r.fault.UnknownMesh? && r.fault.name !in meshes)
  {
    var cmds: seq<Cmd> := [];
    var i := 0;
    while i < |ms|
      invariant 0 <= i <= |ms|
      invariant Ready(kind, ms[..i], es, meshes)
      invariant cmds == BatchCmds(kind, ms[..i], es, meshes)
    {
      var m := ms[i];
      assert ms[..i + 1][..i] == ms[..i];
      if ShadingOf(m) == kind {
        if m.bindGroup.None? {
          if Ready(kind, ms, es, meshes) {
            ReadyPrefix(kind, ms, i + 1, es, meshes);
            assert false;
          }
          return Panic(MissingBindGroup(i));
        }
        var entities := SubmitEntities(es, m.index, meshes);
        if entities.Panic? {
          if Ready(kind, ms, es, meshes) {
            ReadyPrefix(kind, ms, i + 1, es, meshes);
            assert false;
          }
          return Panic(entities.fault);
        }
        var drawn := entities.value;
        cmds := cmds + ([SetBindGroup(2, m.bindGroup.value)] + drawn);
      }
      i := i + 1;
    }
    assert ms[..i] == ms;
    return Ok(cmds);
  }

  // ---------------------------------------------------------------------
  // What the trace holds, stated without the trace

  /** The index range each sub-mesh is drawn with, in order. */
  function IndexRanges(subs: seq<MeshImport.SubMesh>): seq<Range>
  {
    seq(|subs|, k requires 0 <= k < |subs| => Range(0, AsU32(subs[k].indexCount)))
  }

  /** The transforms of the entities drawn under `index`, in join order. */
  function Transforms(es: seq<Entity>, index: int): seq<BindGroup>
  {
    if es == [] then []
    else
      var e := es[|es| - 1];
      Transforms(es[..|es| - 1], index) + (if DrawnUnder(e, index) then [e.transform.value] else [])
  }

  /** The number of sub-meshes of the entities drawn under `index`. */
  function SubMeshCount(es: seq<Entity>, index: int, meshes: MeshTable): nat
    requires MeshesKnown(es, index, meshes)
  {
    if es == [] then 0
    else
      var e := es[|es| - 1];
      SubMeshCount(es[..|es| - 1], index, meshes) + (if DrawnUnder(e, index) then |meshes[e.mesh.value].subMeshes| else 0)
  }

  /** Every material of shading `kind` has its bind group built. */
  predicate GroupsBuilt(kind: Shading, ms: seq<Material>)
  {
    ms == [] || (GroupsBuilt(kind, ms[..|ms| - 1]) && (ShadingOf(ms[|ms| - 1]) == kind ==> ms[|ms| - 1].bindGroup.Some?))
  }

  /** The bind groups of the materials of shading `kind`, in list order. */
  function MaterialGroups(kind: Shading, ms: seq<Material>): seq<BindGroup>
    requires GroupsBuilt(kind, ms)
  {
    if ms == [] then []
    else
      var m := ms[|ms| - 1];
      MaterialGroups(kind, ms[..|ms| - 1]) + (if ShadingOf(m) == kind then [m.bindGroup.value] else [])
  }

  /** The transforms drawn, material by material. */
  function BatchTransforms(kind: Shading, ms: seq<Material>, es: seq<Entity>): seq<BindGroup>
  {
    if ms == [] then []
    else
      var m := ms[|ms| - 1];
      BatchTransforms(kind, ms[..|ms| - 1], es) + (if ShadingOf(m) == kind then Transforms(es, m.index) else [])
  }

  /** The sum, over the materials of shading `kind`, of the sub-mesh counts of
      their entities. */
  function TotalDraws(kind: Shading, ms: seq<Material>, es: seq<Entity>, meshes: MeshTable): nat
    requires Ready(kind, ms, es, meshes)
  {
    if ms == [] then 0
    else
      var m := ms[|ms| - 1];
      TotalDraws(kind, ms[..|ms| - 1], es, meshes) + (if ShadingOf(m) == kind then SubMeshCount(es, m.index, meshes) else 0)
  }

  lemma SubMeshProjections(s: MeshImport.SubMesh, slot: nat)
    ensures Binds(SubMeshCmds(s), slot) == []
    ensures Draws(SubMeshCmds(s)) == [Range(0, AsU32(s.indexCount))]
  {
    var c := SubMeshCmds(s);
    assert c[..2][..1][..0] == [];
    assert c[..2][..1] == [SetIndexBuffer(s.indexBuffer, 0, 0)];
    assert Binds(c[..2][..1], slot) == [];
    assert Draws(c[..2][..1]) == [];
    assert c[..2] == c[..2][..1] + [c[1]];
  }

  /** A mesh draws each of its sub-meshes once, in order, and binds no group. */
  lemma {:induction false} MeshProjections(subs: seq<MeshImport.SubMesh>, slot: nat)
    ensures Binds(MeshCmds(subs), slot) == []
    ensures Draws(MeshCmds(subs)) == IndexRanges(subs)
    decreases |subs|
  {
    if subs != [] {
      var init := subs[..|subs| - 1];
      MeshProjections(init, slot);
      SubMeshProjections(subs[|subs| - 1], slot);
      BindsAppend(MeshCmds(init), SubMeshCmds(subs[|subs| - 1]), slot);
      DrawsAppend(MeshCmds(init), SubMeshCmds(subs[|subs| - 1]));
      assert IndexRanges(subs) == IndexRanges(init) + [Range(0, AsU32(subs[|subs| - 1].indexCount))];
    }
  }

  /** A drawn entity binds its transform once at slot 0, binds no material,
      and draws every sub-mesh of its mesh. */
  lemma EntityProjections(e: Entity, meshes: MeshTable)
    requires Joined(e) && e.mesh.value in meshes
    ensures Binds(EntityCmds(e, meshes), 0) == [e.transform.value]
    ensures Binds(EntityCmds(e, meshes), 2) == []
    ensures |Draws(EntityCmds(e, meshes))| == |meshes[e.mesh.value].subMeshes|
  {
    var subs := meshes[e.mesh.value].subMeshes;
    var head := [SetBindGroup(0, e.transform.value)];
    MeshProjections(subs, 0);
    MeshProjections(subs, 2);
    BindsAppend(head, MeshCmds(subs), 0);
    BindsAppend(head, MeshCmds(subs), 2);
    DrawsAppend(head, MeshCmds(subs));
    assert head[..0] == [];
  }

  /** Under one material, exactly the entities drawn under its index bind their
      transforms, in join order, and their sub-meshes are all drawn. */
  lemma {:induction false} EntitiesProjections(es: seq<Entity>, index: int, meshes: MeshTable)
    requires MeshesKnown(es, index, meshes)
    ensures Binds(EntitiesCmds(es, index, meshes), 0) == Transforms(es, index)
    ensures Binds(EntitiesCmds(es, index, meshes), 2) == []
    ensures |Draws(EntitiesCmds(es, index, meshes))| == SubMeshCount(es, index, meshes)
    decreases |es|
  {
    if es != [] {
      var init, e := es[..|es| - 1], es[|es| - 1];
      assert MeshesKnown(init, index, meshes);
      EntitiesProjections(init, index, meshes);
      var tail := if DrawnUnder(e, index) then EntityCmds(e, meshes) else [];
      if DrawnUnder(e, index) {
        EntityProjections(e, meshes);
      }
      BindsAppend(EntitiesCmds(init, index, meshes), tail, 0);
      BindsAppend(EntitiesCmds(init, index, meshes), tail, 2);
      DrawsAppend(EntitiesCmds(init, index, meshes), tail);
    }
  }

  /** One material of the pass's kind binds its group once at slot 2, then
      the transforms of its entities at slot 0, and draws their sub-meshes; a
      material of the other kind records nothing. */
  lemma MaterialProjections(kind: Shading, m: Material, es: seq<Entity>, meshes: MeshTable)
    requires MaterialReady(kind, m, es, meshes)
    ensures Binds(MaterialCmds(kind, m, es, meshes), 2) == (if ShadingOf(m) == kind then [m.bindGroup.value] else [])
    ensures Binds(MaterialCmds(kind, m, es, meshes), 0) == (if ShadingOf(m) == kind then Transforms(es, m.index) else [])
    ensures |Draws(MaterialCmds(kind, m, es, meshes))| == (if ShadingOf(m) == kind then SubMeshCount(es, m.index, meshes) else 0)
  {
    if ShadingOf(m) == kind {
      var head := [SetBindGroup(2, m.bindGroup.value)];
      EntitiesProjections(es, m.index, meshes);
      BindsAppend(head, EntitiesCmds(es, m.index, meshes), 0);
      BindsAppend(head, EntitiesCmds(es, m.index, meshes), 2);
      DrawsAppend(head, EntitiesCmds(es, m.index, meshes));
      assert head[..0] == [];
    }
  }

  /** Each material of shading `kind` is bound exactly once at slot 2, in
      list order, whether or not an entity uses it. */
  lemma {:induction false} EachMaterialBoundOnce(kind: Shading, ms: seq<Material>, es: seq<Entity>, meshes: MeshTable)
    requires Ready(kind, ms, es, meshes)
    ensures GroupsBuilt(kind, ms)
    ensures Binds(BatchCmds(kind, ms, es, meshes), 2) == MaterialGroups(kind, ms)
    decreases |ms|
  {
    if ms != [] {
      var init, m := ms[..|ms| - 1], ms[|ms| - 1];
      assert Ready(kind, init, es, meshes);
      EachMaterialBoundOnce(kind, init, es, meshes);
      var last := MaterialCmds(kind, m, es, meshes);
      BindsAppend(BatchCmds(kind, init, es, meshes), last, 2);
      MaterialProjections(kind, m, es, meshes);
    }
  }

  /** Transforms are bound material by material, for exactly the entities
      drawn under it. */
  lemma {:induction false} EntitiesBoundPerMaterial(kind: Shading, ms: seq<Material>, es: seq<Entity>, meshes: MeshTable)
    requires Ready(kind, ms, es, meshes)
    ensures Binds(BatchCmds(kind, ms, es, meshes), 0) == BatchTransforms(kind, ms, es)
    decreases |ms|
  {
    if ms != [] {
      var init, m := ms[..|ms| - 1], ms[|ms| - 1];
      assert Ready(kind, init, es, meshes);
      EntitiesBoundPerMaterial(kind, init, es, meshes);
      var last := MaterialCmds(kind, m, es, meshes);
      BindsAppend(BatchCmds(kind, init, es, meshes), last, 0);
      MaterialProjections(kind, m, es, meshes);
    }
  }

  /** The number of indexed draws is the total number of sub-meshes of the
      entities drawn, material by material. */
  lemma {:induction false} DrawCountIsSubMeshTotal(kind: Shading, ms: seq<Material>, es: seq<Entity>, meshes: MeshTable)
    requires Ready(kind, ms, es, meshes)
    ensures |Draws(BatchCmds(kind, ms, es, meshes))| == TotalDraws(kind, ms, es, meshes)
    decreases |ms|
  {
    if ms != [] {
      var init, m := ms[..|ms| - 1], ms[|ms| - 1];
      assert Ready(kind, init, es, meshes);
      DrawCountIsSubMeshTotal(kind, init, es, meshes);
      var last := MaterialCmds(kind, m, es, meshes);
      DrawsAppend(BatchCmds(kind, init, es, meshes), last);
      MaterialProjections(kind, m, es, meshes);
    }
  }

  /** A command the batch loop issues: a transform or material bind, a buffer
      bind, or an indexed draw. */
  predicate BatchCmd(c: Cmd)
  {
    || (c.SetBindGroup? && (c.slot == 0 || c.slot == 2))
    || c.SetIndexBuffer?
    || c.SetVertexBuffer?
    || c.DrawIndexed?
  }

  predicate DrawOnly(cmds: seq<Cmd>)
  {
    forall k :: 0 <= k < |cmds| ==> BatchCmd(cmds[k])
  }

  lemma {:induction false} MeshIsDrawOnly(subs: seq<MeshImport.SubMesh>)
    ensures DrawOnly(MeshCmds(subs))
    decreases |subs|
  {
    if subs != [] {
      MeshIsDrawOnly(subs[..|subs| - 1]);
    }
  }

  lemma {:induction false} EntitiesAreDrawOnly(es: seq<Entity>, index: int, meshes: MeshTable)
    requires MeshesKnown(es, index, meshes)
    ensures DrawOnly(EntitiesCmds(es, index, meshes))
    decreases |es|
  {
    if es != [] {
      var e := es[|es| - 1];
      EntitiesAreDrawOnly(es[..|es| - 1], index, meshes);
      if DrawnUnder(e, index) {
        MeshIsDrawOnly(meshes[e.mesh.value].subMeshes);
      }
    }
  }

  /** The batch sets no pipeline, binds nothing outside slots 0 and 2 and
      issues no non-indexed draw. */
  lemma {:induction false} BatchIsDrawOnly(kind: Shading, ms: seq<Material>, es: seq<Entity>, meshes: MeshTable)
    requires Ready(kind, ms, es, meshes)
    ensures DrawOnly(BatchCmds(kind, ms, es, meshes))
    decreases |ms|
  {
    if ms != [] {
      var m := ms[|ms| - 1];
      BatchIsDrawOnly(kind, ms[..|ms| - 1], es, meshes);
      if ShadingOf(m) == kind {
        EntitiesAreDrawOnly(es, m.index, meshes);
      }
    }
  }

  /** A draw-only trace binds nothing at any slot but 0 and 2. */
  lemma {:induction false} DrawOnlyBindsNoOtherSlot(cmds: seq<Cmd>, slot: nat)
    requires DrawOnly(cmds) && slot != 0 && slot != 2
    ensures Binds(cmds, slot) == []
    decreases |cmds|
  {
    if cmds != [] {
      DrawOnlyBindsNoOtherSlot(cmds[..|cmds| - 1], slot);
    }
  }

  /** Materials of the other shading model contribute nothing: the trace is
      the one of the materials of shading `kind` alone. */
  lemma {:induction false} OtherShadingEmitsNothing(kind: Shading, ms: seq<Material>, es: seq<Entity>, meshes: MeshTable)
    requires Ready(kind, ms, es, meshes)
    ensures Ready(kind, OfShading(kind, ms), es, meshes)
    ensures BatchCmds(kind, ms, es, meshes) == BatchCmds(kind, OfShading(kind, ms), es, meshes)
    decreases |ms|
  {
    if ms != [] {
      var init, m := ms[..|ms| - 1], ms[|ms| - 1];
      assert Ready(kind, init, es, meshes);
      OtherShadingEmitsNothing(kind, init, es, meshes);
      var f := OfShading(kind, ms);
      if ShadingOf(m) == kind {
        assert f == OfShading(kind, init) + [m];
        assert f[..|f| - 1] == OfShading(kind, init);
        assert f[|f| - 1] == m;
        assert Ready(kind, f[..|f| - 1], es, meshes);
        assert Ready(kind, f, es, meshes);
        assert BatchCmds(kind, f, es, meshes)
            == BatchCmds(kind, OfShading(kind, init), es, meshes) + MaterialCmds(kind, m, es, meshes);
      } else {
        assert f == OfShading(kind, init) + [];
        assert f == OfShading(kind, init);
        assert BatchCmds(kind, ms, es, meshes) == BatchCmds(kind, init, es, meshes) + [];
        assert BatchCmds(kind, ms, es, meshes) == BatchCmds(kind, init, es, meshes);
      }
    }
  }

  /** The materials of shading `kind`, in list order. */
  function OfShading(kind: Shading, ms: seq<Material>): (r: seq<Material>)
    ensures |r| <= |ms|
    ensures forall k :: 0 <= k < |r| ==> ShadingOf(r[k]) == kind && r[k] in ms
  {
    if ms == [] then []
    else
      var m := ms[|ms| - 1];
      OfShading(kind, ms[..|ms| - 1]) + (if ShadingOf(m) == kind then [m] else [])
  }

  /** Every material of shading `kind` is kept, and a list of that shading
      alone is kept whole. */
  lemma {:induction false} OfShadingKeepsKind(kind: Shading, ms: seq<Material>)
    ensures forall k :: 0 <= k < |ms| && ShadingOf(ms[k]) == kind ==> ms[k] in OfShading(kind, ms)
    ensures (forall k :: 0 <= k < |ms| ==> ShadingOf(ms[k]) == kind) ==> OfShading(kind, ms) == ms
    decreases |ms|
  {
    if ms != [] {
      var init := ms[..|ms| - 1];
      OfShadingKeepsKind(kind, init);
      assert forall k :: 0 <= k < |init| ==> init[k] == ms[k];
      assert init + [ms[|ms| - 1]] == ms;
    }
  }

  /** Filtering distributes over concatenation, so together with the
      one-material case it keeps the list order. */
  lemma {:induction false} OfShadingAppend(kind: Shading, a: seq<Material>, b: seq<Material>)
    ensures OfShading(kind, a + b) == OfShading(kind, a) + OfShading(kind, b)
    ensures |b| == 1 ==> OfShading(kind, b) == (if ShadingOf(b[0]) == kind then b else [])
    decreases |b|
  {
    if b != [] {
      var init, m := b[..|b| - 1], b[|b| - 1];
      var tail := if ShadingOf(m) == kind then [m] else [];
      assert (a + b)[..|a + b| - 1] == a + init;
      assert (a + b)[|a + b| - 1] == m;
      assert OfShading(kind, a + b) == OfShading(kind, a + init) + tail;
      assert OfShading(kind, b) == OfShading(kind, init) + tail;
      OfShadingAppend(kind, a, init);
      if |b| == 1 {
        assert init == [];
      }
    } else {
      assert a + b == a;
    }
  }
}
