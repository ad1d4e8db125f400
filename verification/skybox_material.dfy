/** The skybox material of src/graphics/material/skybox.rs: `Skybox::new`
    renders an equirectangular image into a `size` × `6·size` atlas, copies the
    atlas's six `size` × `size` slices into the six layers of a cube texture,
    and wraps the cube in a cube view and a sampler; `create_bind_group` binds
    view and sampler for the skybox pass. */
module SkyboxMaterial {
  import opened Gpu

  /** The number of faces of a cube map. */
  const Faces: nat := 6

  /** A 2D texture (possibly layered): its extent, mip count and format. */
  datatype TextureDesc = TextureDesc(id: nat, width: nat, height: nat, layers: nat, mipLevels: nat, format: TextureFormat)

  /** A view onto a texture: its dimension and the mip levels and array layers it spans. */
  datatype ViewDesc = ViewDesc(
    texture: nat,
    format: TextureFormat,
    dimension: ViewDimension,
    baseMipLevel: nat,
    levelCount: nat,
    baseArrayLayer: nat,
    layerCount: nat)

  /** The render target the projection pass draws the atlas into. */
  datatype TargetDesc = TargetDesc(width: nat, height: nat, format: TextureFormat)

  datatype Skybox = Skybox(size: nat, texture: TextureDesc, view: ViewDesc, sampler: nat, bindGroup: Option<BindGroup>)

  /** The atlas target: one `size` × `size` slice per face, stacked vertically. */
  function AtlasTarget(size: nat): (t: TargetDesc)
    ensures t.width == size && t.height == Faces * size && t.format == Rgba32Float
  {
    TargetDesc(size, size * 6, Rgba32Float)
  }

  /** `cmds` are the six face copies: copy `i` takes the `size` × `size` slice
      at rows `size·i ..` of layer 0, mip 0 of the atlas and writes it at the
      origin of layer `i`, mip 0 of the cube. */
  predicate FaceCopies(cmds: seq<EncoderCmd>, atlas: nat, cube: nat, size: nat)
  {
    && |cmds| == Faces
    && forall i :: 0 <= i < |cmds| ==>
         && cmds[i].CopyTextureToTexture?
         && cmds[i].source == TextureCopyView(atlas, 0, 0, Origin(0, size * i, 0))
         && cmds[i].destination == TextureCopyView(cube, 0, i, Origin(0, 0, 0))
         && cmds[i].extent == Extent(size, size, 1)
  }

  /** The face-copy loop of `Skybox::new`. */
  method CopyFaces(atlas: nat, cube: nat, size: nat) returns (cmds: seq<EncoderCmd>)
    ensures FaceCopies(cmds, atlas, cube, size)
  {
    cmds := [];
    var i := 0;
    while i < 6
      invariant 0 <= i <= 6 && |cmds| == i
      invariant forall k :: 0 <= k < i ==>
                  && cmds[k].CopyTextureToTexture?
                  && cmds[k].source == TextureCopyView(atlas, 0, 0, Origin(0, size * k, 0))
                  && cmds[k].destination == TextureCopyView(cube, 0, k, Origin(0, 0, 0))
                  && cmds[k].extent == Extent(size, size, 1)
    {
      cmds := cmds + [CopyTextureToTexture(
        TextureCopyView(atlas, 0, 0, Origin(0, size * i, 0)),
        TextureCopyView(cube, 0, i, Origin(0, 0, 0)),
        Extent(size, size, 1))];
      i := i + 1;
    }
  }

  /** The destination layers, copy by copy. */
  function DestinationLayers(cmds: seq<EncoderCmd>): seq<nat>
    requires forall i :: 0 <= i < |cmds| ==> cmds[i].CopyTextureToTexture?
  {
    seq(|cmds|, i requires 0 <= i < |cmds| => cmds[i].destination.arrayLayer)
  }

  /** Every cube layer is written exactly once, in increasing order. */
  lemma LayersWrittenOnceInOrder(cmds: seq<EncoderCmd>, atlas: nat, cube: nat, size: nat)
    requires FaceCopies(cmds, atlas, cube, size)
    ensures DestinationLayers(cmds) == [0, 1, 2, 3, 4, 5]
  {
  }

  /** The atlas rows a copy reads, as a half-open range. */
  function Rows(c: EncoderCmd): Range
    requires c.CopyTextureToTexture?
  {
    Range(c.source.origin.y, c.source.origin.y + c.extent.height)
  }

  lemma SlicesDisjointPair(cmds: seq<EncoderCmd>, atlas: nat, cube: nat, size: nat, i: nat, j: nat)
    requires FaceCopies(cmds, atlas, cube, size)
    requires i < j < Faces
    ensures Rows(cmds[i]).end <= Rows(cmds[j]).start
  {
    assert size * i + size <= size * j by {
      assert size * (j - i) >= size * 1;
    }
  }

  /** The six slices read from the atlas do not overlap: of any two, one ends
      before the other starts. */
  lemma SlicesDisjoint(cmds: seq<EncoderCmd>, atlas: nat, cube: nat, size: nat)
    requires FaceCopies(cmds, atlas, cube, size)
    ensures forall i, j :: 0 <= i < |cmds| && 0 <= j < |cmds| && i != j ==>
              Rows(cmds[i]).end <= Rows(cmds[j]).start || Rows(cmds[j]).end <= Rows(cmds[i]).start
  {
    forall i, j | 0 <= i < |cmds| && 0 <= j < |cmds| && i != j
      ensures Rows(cmds[i]).end <= Rows(cmds[j]).start || Rows(cmds[j]).end <= Rows(cmds[i]).start
    {
      if i < j {
        SlicesDisjointPair(cmds, atlas, cube, size, i, j);
      } else {
        SlicesDisjointPair(cmds, atlas, cube, size, j, i);
      }
    }
  }

  /** The six slices tile the atlas target: the first starts at row 0, each
      starts where the previous one ends, the last ends at the target's
      height, and each lies within its width. */
  lemma SlicesCoverAtlas(cmds: seq<EncoderCmd>, atlas: nat, cube: nat, size: nat)
    requires FaceCopies(cmds, atlas, cube, size)
    ensures Rows(cmds[0]).start == 0
    ensures forall i :: 0 <= i < |cmds| - 1 ==> Rows(cmds[i]).end == Rows(cmds[i + 1]).start
    ensures Rows(cmds[Faces - 1]).end == AtlasTarget(size).height
    ensures forall i :: 0 <= i < |cmds| ==> cmds[i].source.origin.x + cmds[i].extent.width <= AtlasTarget(size).width
  {
    assert cmds[5].source.origin.y == 5 * size;
  }

  /** The cube texture `new` creates: `size` × `size`, six layers, one mip, float format. */
  function CubeTexture(id: nat, size: nat): (t: TextureDesc)
    ensures t.width == t.height == size && t.layers == Faces && t.mipLevels == 1
    ensures t.format == Rgba32Float && t.id == id
  {
    TextureDesc(id, size, size, 6, 1, Rgba32Float)
  }

  /** The cube view `new` creates: for the cube texture, it spans every mip
      level and every layer. */
  function CubeView(t: TextureDesc): (v: ViewDesc)
    ensures v.texture == t.id && v.dimension == Cube
    ensures t == CubeTexture(t.id, t.width) ==>
              && v.format == t.format
              && v.baseMipLevel == 0 && v.levelCount == t.mipLevels
              && v.baseArrayLayer == 0 && v.layerCount == t.layers
  {
    ViewDesc(t.id, Rgba32Float, Cube, 0, 1, 0, 6)
  }

  /** What `Skybox::new` leaves behind: the skybox, and the command buffers it
      submits to the queue in one call. */
  datatype Created = Created(skybox: Skybox, submitted: seq<CommandBuffer>)

  /** `Skybox::new`: the projection graph's buffers, then the copy buffer, are
      submitted together; the skybox starts without a bind group. The atlas
      texture, the new cube texture id and the sampler are given. */
  method New(size: nat, graphBuffers: seq<CommandBuffer>, atlas: nat, cube: nat, sampler: nat) returns (c: Created)
    ensures |c.submitted| == |graphBuffers| + 1
    ensures c.submitted[..|graphBuffers|] == graphBuffers
    ensures FaceCopies(c.submitted[|graphBuffers|].commands, atlas, cube, size)
    ensures c.skybox.size == size && c.skybox.sampler == sampler
    ensures c.skybox.texture.id == cube && c.skybox.texture.width == c.skybox.texture.height == size
    ensures c.skybox.texture.layers == Faces && c.skybox.texture.mipLevels == 1
    ensures c.skybox.view.texture == cube && c.skybox.view.dimension == Cube
    ensures c.skybox.view.baseArrayLayer == 0 && c.skybox.view.layerCount == Faces
    ensures c.skybox.bindGroup == None
  {
    var copies := CopyFaces(atlas, cube, size);
    var texture := CubeTexture(cube, size);
    c := Created(Skybox(size, texture, CubeView(texture), sampler, None), graphBuffers + [CommandBuffer(copies)]);
    assert c.submitted[..|graphBuffers|] == graphBuffers;
  }

  /** `create_bind_group`: binds the cube view at 0 and the sampler at 1,
      for the given material layout; nothing else changes. */
  function CreateBindGroup(s: Skybox, materialLayout: nat): (r: Skybox)
    ensures r.bindGroup.Some? && r.bindGroup.value.layout == materialLayout
    ensures r.bindGroup.value.bindings
         == [Binding(0, View(TextureView(s.view.texture, s.view.dimension))), Binding(1, SamplerOf(s.sampler))]
    ensures r.(bindGroup := s.bindGroup) == s
  {
    var group := BindGroup(materialLayout, [Binding(0, View(TextureView(s.view.texture, s.view.dimension))), Binding(1, SamplerOf(s.sampler))]);
    s.(bindGroup := Some(group))
  }
}
