/**
 * The export of a material's textures into a `NiTexturingProperty`: the
 * blend type to apply mode table, the UV set each texture reads, one
 * texture descriptor per filled slot, the search for an equal property
 * already registered, the shader-index extra data of the extra-shader
 * games, the used texture slots and their UV layers, and the one
 * exporter instance.
 */
module TexturingProperty {
  import opened Wrappers
  import opened Strings
  import opened NifBlocks
  import opened ShaderNodes
  import NW = NodesWrapper
  import OP = ObjectProperty

  // ---------------------------------------------------------------- apply modes

  /** `get_n_apply_mode_from_b_blend_type`: lighten, multiply and mix have their modes; all else is modulate. */
  function ApplyModeOfBlendType(blendType: string): (m: int)
    ensures m in {APPLY_HILIGHT, APPLY_HILIGHT2, APPLY_MODULATE}
    ensures m == APPLY_HILIGHT <==> blendType == "LIGHTEN"
    ensures m == APPLY_HILIGHT2 <==> blendType == "MULTIPLY"
    ensures m == APPLY_MODULATE <==> blendType != "LIGHTEN" && blendType != "MULTIPLY"
  {
    if blendType == "LIGHTEN" then APPLY_HILIGHT
    else if blendType == "MULTIPLY" then APPLY_HILIGHT2
    else if blendType == "MIX" then APPLY_MODULATE
    else APPLY_MODULATE
  }

  /** The blend types that are exported with a warning about their mode. */
  predicate WarnsOnBlendType(blendType: string) {
    blendType !in {"LIGHTEN", "MULTIPLY", "MIX"}
  }

  /**
   * Importing an apply mode and exporting the blend type it became gives
   * modulate, hilight and hilight2 back; replace, decal and every unknown
   * mode come back as modulate.
   */
  lemma {:induction false} ApplyModeRoundTrip(m: int)
    ensures ApplyModeOfBlendType(NW.BlendTypeOfApplyMode(m)) ==
            (if m in {APPLY_MODULATE, APPLY_HILIGHT, APPLY_HILIGHT2} then m else APPLY_MODULATE)
  {
    NW.BlendTypeMix(m);
  }

  /** No blend type the importer produces draws the warning. */
  lemma ImportedBlendTypesKnown(m: int)
    ensures WarnsOnBlendType(NW.BlendTypeOfApplyMode(m)) <==> m in {APPLY_REPLACE, APPLY_DECAL}
  {
  }

  // ---------------------------------------------------------------- extra shader textures

  /** `EXTRA_SHADER_TEXTURES`: the shader texture slot names, by default index. */
  const ExtraShaderTextures: seq<string> := [
    "EnvironmentMapIndex", "NormalMapIndex", "SpecularIntensityIndex",
    "EnvironmentIntensityIndex", "LightCubeMapIndex", "ShadowTextureIndex"]

  /** An index into the shader texture slot names. */
  type ShaderIndex = i: nat | i < 6

  /** `USED_EXTRA_SHADER_TEXTURES[game]`: the order of the shader indices; other games have no entry. */
  function UsedExtraShaderTextures(game: string): (r: Result<seq<ShaderIndex>>)
    ensures r.Err? <==> game !in {"SID_MEIER_S_RAILROADS", "CIVILIZATION_IV"}
    ensures r.Err? ==> r.error == KeyError(game)
  {
    if game == "SID_MEIER_S_RAILROADS" then Ok([3, 0, 4, 1, 5, 2])
    else if game == "CIVILIZATION_IV" then Ok([3, 0, 1, 2])
    else Err(KeyError(game))
  }

  /** No shader index is used twice in either ordering. */
  lemma UsedExtraShaderTexturesDistinct(game: string)
    requires UsedExtraShaderTextures(game).Ok?
    ensures var v := UsedExtraShaderTextures(game).value;
            forall i, j :: 0 <= i < j < |v| ==> v[i] != v[j]
  {
  }

  /** An integer extra data block. */
  function IntegerExtraData(name: string, value: int): Block {
    Block("NiIntegerExtraData", map["name" := StrV(name), "integer_data" := IntV(value)])
  }

  /** The registry after an integer extra data block was attached to `node` for each index, in order. */
  function WithShaderIndices(blocks: seq<Block>, node: nat, indices: seq<ShaderIndex>): (r: seq<Block>)
    requires node < |blocks|
    ensures |r| == |blocks| + |indices|
    ensures forall j :: 0 <= j < |blocks| && j != node ==> r[j] == blocks[j]
    decreases |indices|
  {
    if indices == [] then blocks
    else
      var front := indices[..|indices| - 1];
      var i := indices[|indices| - 1];
      var before := WithShaderIndices(blocks, node, front);
      var r := OP.WithExtraData(before, node, IntegerExtraData(ExtraShaderTextures[i], i));
      r
  }

  /** Attaching one more index extends the registry by that index's block. */
  lemma ShaderIndicesStep(blocks: seq<Block>, node: nat, indices: seq<ShaderIndex>, k: nat)
    requires node < |blocks| && k < |indices|
    ensures WithShaderIndices(blocks, node, indices[..k + 1]) ==
            OP.WithExtraData(WithShaderIndices(blocks, node, indices[..k]), node,
                             IntegerExtraData(ExtraShaderTextures[indices[k]], indices[k]))
  {
    assert indices[..k + 1][..k] == indices[..k];
  }

  /** The block indices `lo`, `lo + 1`, ..., `hi - 1`. */
  function Range(lo: nat, hi: nat): (r: seq<nat>)
    ensures |r| == if lo <= hi then hi - lo else 0
    ensures forall k :: 0 <= k < |r| ==> r[k] == lo + k
    decreases hi
  {
    if hi <= lo then [] else Range(lo, hi - 1) + [hi - 1]
  }

  /** Block `|blocks| + k` holds the name and value of `indices[k]`. */
  lemma {:induction false} ShaderIndexBlock(blocks: seq<Block>, node: nat, indices: seq<ShaderIndex>, k: nat)
    requires node < |blocks| && k < |indices|
    ensures WithShaderIndices(blocks, node, indices)[|blocks| + k] ==
            IntegerExtraData(ExtraShaderTextures[indices[k]], indices[k])
    decreases |indices|
  {
    var last := |indices| - 1;
    var front := indices[..last];
    assert indices[..last + 1] == indices;
    ShaderIndicesStep(blocks, node, indices, last);
    var before := WithShaderIndices(blocks, node, front);
    var b := IntegerExtraData(ExtraShaderTextures[indices[last]], indices[last]);
    var r := WithShaderIndices(blocks, node, indices);
    assert r == OP.WithExtraData(before, node, b);
    if k < last {
      ShaderIndexBlock(blocks, node, front, k);
      assert front[k] == indices[k];
      assert r[|blocks| + k] == before[|blocks| + k];
    } else {
      assert |blocks| + k == |before|;
    }
  }

  /** The attached blocks are the extra data of the indices, in their order. */
  lemma ShaderIndicesBlocks(blocks: seq<Block>, node: nat, indices: seq<ShaderIndex>)
    requires node < |blocks|
    ensures var r := WithShaderIndices(blocks, node, indices);
            forall k :: 0 <= k < |indices| ==>
              r[|blocks| + k] == IntegerExtraData(ExtraShaderTextures[indices[k]], indices[k])
  {
    forall k | 0 <= k < |indices|
      ensures WithShaderIndices(blocks, node, indices)[|blocks| + k] ==
              IntegerExtraData(ExtraShaderTextures[indices[k]], indices[k])
    {
      ShaderIndexBlock(blocks, node, indices, k);
    }
  }


  /** The extra data list of `node` grows by exactly the attached blocks, in order, and nothing else about it changes. */
  lemma {:induction false} ShaderIndicesListed(blocks: seq<Block>, node: nat, indices: seq<ShaderIndex>)
    requires node < |blocks|
    ensures var r := WithShaderIndices(blocks, node, indices);
            && RefsOf(r[node], "extra_data_list") ==
                 RefsOf(blocks[node], "extra_data_list") + Range(|blocks|, |blocks| + |indices|)
            && r[node].typeName == blocks[node].typeName
    decreases |indices|
  {
    if indices != [] {
      var front := indices[..|indices| - 1];
      var i := indices[|indices| - 1];
      ShaderIndicesListed(blocks, node, front);
      var before := WithShaderIndices(blocks, node, front);
      var r := WithShaderIndices(blocks, node, indices);
      assert r == OP.WithExtraData(before, node, IntegerExtraData(ExtraShaderTextures[i], i));
      var initial := RefsOf(blocks[node], "extra_data_list");
      var earlier := Range(|blocks|, |before|);
      assert Range(|blocks|, |blocks| + |indices|) == earlier + [|before|];
      assert RefsOf(r[node], "extra_data_list") == (initial + earlier) + [|before|];
      assert (initial + earlier) + [|before|] == initial + (earlier + [|before|]);
    }
  }


  /** `trishape.add_integer_extra_data(name, value)`: a new integer extra data block attached to `node`. */
  method AddIntegerExtraData(store: BlockStore, node: nat, name: string, value: int)
    requires node < |store.blocks|
    modifies store
    ensures store.blocks == OP.WithExtraData(old(store.blocks), node, IntegerExtraData(name, value))
  {
    var id := store.Create("NiIntegerExtraData");
    store.Set(id, "name", StrV(name));
    store.Set(id, "integer_data", IntV(value));
    store.AppendRef(node, "extra_data_list", id);
  }

  /** `add_shader_integer_extra_datas(trishape)`: one integer extra data per used shader index, in table order. */
  method AddShaderIntegerExtraDatas(store: BlockStore, trishape: nat, game: string) returns (r: Result<()>)
    requires trishape < |store.blocks|
    modifies store
    ensures r.Err? <==> UsedExtraShaderTextures(game).Err?
    ensures r.Err? ==> r.error == KeyError(game) && store.blocks == old(store.blocks)
    ensures r.Ok? ==> store.blocks == WithShaderIndices(old(store.blocks), trishape, UsedExtraShaderTextures(game).value)
  {
    var used := UsedExtraShaderTextures(game);
    if used.Err? {
      return Err(used.error);
    }
    var indices := used.value;
    for k := 0 to |indices|
      invariant store.blocks == WithShaderIndices(old(store.blocks), trishape, indices[..k])
    {
      var i := indices[k];
      ShaderIndicesStep(old(store.blocks), trishape, indices, k);
      AddIntegerExtraData(store, trishape, ExtraShaderTextures[i], i);
    }
    assert indices[..|indices|] == indices;
    r := Ok(());
  }

  // ---------------------------------------------------------------- UV sets

  /** The node that the search back from a texture's vector input found, when it is of a wanted type. */
  datatype UvSource = FoundUvMap(uvMap: string) | FoundTexCoord

  /** The message of the error for a vector input fed by any other node. */
  function UnsupportedInputMessage(nodeName: string, materialName: string): string {
    "Unsupported vector input for " + nodeName + " in material '" + materialName + "''.\n" +
    "Expected 'UV Map' or 'Texture Coordinate' nodes"
  }

  /** The layer index of a UV map name `UV<i>`: the integer after its first two characters, or 0. */
  function UvIndexOfMapName(uvMap: string): (i: int)
    ensures |uvMap| >= 2 && ParseInt(uvMap[2..]).Some? ==> i == ParseInt(uvMap[2..]).value
    ensures |uvMap| < 2 || ParseInt(uvMap[2..]).None? ==> i == 0
  {
    var rest := if |uvMap| >= 2 then uvMap[2..] else "";
    match ParseInt(rest)
    case Some(v) => v
    case None => 0
  }

  /**
   * `get_uv_node(b_texture_node)`: layer 0 for an input with nothing
   * plugged in, the layer of a UV-map node, "REFLECT" for a texture
   * coordinate node, and an error for any other node.
   */
  function GetUvNode(found: Option<UvSource>, linked: bool, nodeName: string, materialName: string): (r: Result<UvSet>)
    ensures r.Err? <==> found.None? && linked
    ensures r.Err? ==> r.error == NifError(UnsupportedInputMessage(nodeName, materialName))
    ensures found.None? && !linked ==> r == Ok(UvIndex(0))
    ensures found == Some(FoundTexCoord) ==> r == Ok(Reflect)
    ensures found.Some? && found.value.FoundUvMap? ==> r == Ok(UvIndex(UvIndexOfMapName(found.value.uvMap)))
  {
    if found.None? && !linked then Ok(UvIndex(0))
    else if found.Some? && found.value.FoundUvMap? then Ok(UvIndex(UvIndexOfMapName(found.value.uvMap)))
    else if found.Some? then Ok(Reflect)
    else Err(NifError(UnsupportedInputMessage(nodeName, materialName)))
  }

  /** A UV-map node the importer made for layer `i` exports as layer `i`. */
  lemma {:induction false} UvMapRoundTrip(i: nat, linked: bool, nodeName: string, materialName: string)
    ensures GetUvNode(Some(FoundUvMap(NW.UvMapNodeFor(i).uvMap)), linked, nodeName, materialName) == Ok(UvIndex(i))
  {
    var name := NW.UvMapNodeFor(i).uvMap;
    assert name == "UV" + NatToString(i);
    assert name[2..] == NatToString(i);
    IntOfNatToString(i);
  }

  // ---------------------------------------------------------------- texture descriptors

  /** A texture node of a slot: its name, what feeds its vector input, and the source block exported for it. */
  datatype TexNode = TexNode(name: string, found: Option<UvSource>, linked: bool, source: nat)

  /** A texture slot of the material and the node in it, if any. */
  datatype Slot = Slot(slotName: string, node: Option<TexNode>)

  /** The descriptor field of a slot: its name in lower case, spaces to underscores, then `_texture`. */
  function TextureField(slotName: string): string {
    ReplaceChar(Lower(slotName), ' ', '_') + "_texture"
  }

  /** The flag field that switches a descriptor on. */
  function HasField(slotName: string): string {
    "has_" + TextureField(slotName)
  }

  /** A slot name whose every character lower-cases, or turns from a space into `_`, to the key's. */
  lemma FieldKeyByChars(slotName: string, key: string)
    requires |slotName| == |key|
    requires forall i :: 0 <= i < |slotName| ==>
               key[i] == (if LowerChar(slotName[i]) == ' ' then '_' else LowerChar(slotName[i]))
    ensures TextureField(slotName) == key + "_texture"
  {
    assert ReplaceChar(Lower(slotName), ' ', '_') == key;
  }

  /** The descriptor field of each importer slot is its handler's key followed by `_texture`. */
  lemma TextureFieldOfSlot(h: NW.Handler)
    ensures TextureField(NW.SlotName(h)) == NW.SlotKey(h) + "_texture"
  {
    if h.LinkBase? || h.LinkBumpMap? || h.LinkNormal? || h.LinkGlow? {
      TextureFieldOfFirstSlots(h);
    } else if h.LinkGloss? || h.LinkDecal0? || h.LinkDecal1? || h.LinkDecal2? {
      TextureFieldOfDecalSlots(h);
    } else {
      TextureFieldOfLastSlots(h);
    }
  }

  lemma TextureFieldOfFirstSlots(h: NW.Handler)
    requires h.LinkBase? || h.LinkBumpMap? || h.LinkNormal? || h.LinkGlow?
    ensures TextureField(NW.SlotName(h)) == NW.SlotKey(h) + "_texture"
  {
    match h
    case LinkBase => FieldKeyByChars("Base", "base");
    case LinkBumpMap => FieldKeyByChars("Bump Map", "bump_map");
    case LinkNormal => FieldKeyByChars("Normal", "normal");
    case LinkGlow => FieldKeyByChars("Glow", "glow");
  }

  lemma TextureFieldOfDecalSlots(h: NW.Handler)
    requires h.LinkGloss? || h.LinkDecal0? || h.LinkDecal1? || h.LinkDecal2?
    ensures TextureField(NW.SlotName(h)) == NW.SlotKey(h) + "_texture"
  {
    match h
    case LinkGloss => FieldKeyByChars("Gloss", "gloss");
    case LinkDecal0 => FieldKeyByChars("Decal 0", "decal_0");
    case LinkDecal1 => FieldKeyByChars("Decal 1", "decal_1");
    case LinkDecal2 => FieldKeyByChars("Decal 2", "decal_2");
  }

  lemma TextureFieldOfLastSlots(h: NW.Handler)
    requires h.LinkDetail? || h.LinkDark? || h.LinkReflection? || h.LinkEnvironment?
    ensures TextureField(NW.SlotName(h)) == NW.SlotKey(h) + "_texture"
  {
    match h
    case LinkDetail => FieldKeyByChars("Detail", "detail");
    case LinkDark => FieldKeyByChars("Dark", "dark");
    case LinkReflection => FieldKeyByChars("Reflection", "reflection");
    case LinkEnvironment => FieldKeyByChars("Environment", "environment");
  }


  /** The attributes after the descriptors of the filled slots were set, or the first UV-set error. */
  function TexDescAttrs(attrs: map<string, Value>, slots: seq<Slot>, materialName: string): (r: Result<map<string, Value>>)
    decreases |slots|
  {
    if slots == [] then Ok(attrs)
    else
      var before := TexDescAttrs(attrs, slots[..|slots| - 1], materialName);
      var s := slots[|slots| - 1];
      if before.Err? || s.node.None? then before
      else
        var n := s.node.value;
        match GetUvNode(n.found, n.linked, n.name, materialName)
        case Err(e) => Err(e)
        case Ok(uv) =>
          Ok(before.value[HasField(s.slotName) := BoolV(true)][TextureField(s.slotName) := TexDescV(uv, Some(n.source))])
  }

  /** The UV set of a filled slot fails to export. */
  predicate SlotFails(s: Slot, materialName: string) {
    s.node.Some? && GetUvNode(s.node.value.found, s.node.value.linked, s.node.value.name, materialName).Err?
  }

  /** The descriptors fail exactly when some filled slot's UV set fails, and then with the first such error. */
  lemma {:induction false} TexDescAttrsFails(attrs: map<string, Value>, slots: seq<Slot>, materialName: string)
    ensures TexDescAttrs(attrs, slots, materialName).Err? <==> exists k :: 0 <= k < |slots| && SlotFails(slots[k], materialName)
    decreases |slots|
  {
    if slots != [] {
      var front := slots[..|slots| - 1];
      assert forall k :: 0 <= k < |front| ==> front[k] == slots[k];
      TexDescAttrsFails(attrs, front, materialName);
      if exists k :: 0 <= k < |front| && SlotFails(front[k], materialName) {
        var k :| 0 <= k < |front| && SlotFails(front[k], materialName);
        assert SlotFails(slots[k], materialName);
      }
    }
  }

  /** The slots' field names never repeat. */
  predicate DistinctSlotFields(slots: seq<Slot>) {
    forall i, j :: 0 <= i < j < |slots| ==>
      TextureField(slots[i].slotName) != TextureField(slots[j].slotName) &&
      TextureField(slots[i].slotName) != HasField(slots[j].slotName) &&
      HasField(slots[i].slotName) != TextureField(slots[j].slotName)
  }

  /** A field name that belongs to no filled slot. */
  predicate Untouched(p: string, slots: seq<Slot>) {
    forall k :: 0 <= k < |slots| && slots[k].node.Some? ==>
      p != TextureField(slots[k].slotName) && p != HasField(slots[k].slotName)
  }

  /** The descriptor of a filled slot, as the slot loop sets it. */
  predicate DescriptorSet(a: map<string, Value>, s: Slot, materialName: string)
    requires s.node.Some?
  {
    var n := s.node.value;
    && HasField(s.slotName) in a && a[HasField(s.slotName)] == BoolV(true)
    && GetUvNode(n.found, n.linked, n.name, materialName).Ok?
    && TextureField(s.slotName) in a
    && a[TextureField(s.slotName)] == TexDescV(GetUvNode(n.found, n.linked, n.name, materialName).value, Some(n.source))
  }

  /** One more slot: nothing changes for an empty slot; a filled one sets its two fields. */
  lemma TexDescAttrsStep(attrs: map<string, Value>, slots: seq<Slot>, materialName: string)
    requires slots != [] && TexDescAttrs(attrs, slots, materialName).Ok?
    ensures TexDescAttrs(attrs, slots[..|slots| - 1], materialName).Ok?
    ensures var a := TexDescAttrs(attrs, slots, materialName).value;
            var b := TexDescAttrs(attrs, slots[..|slots| - 1], materialName).value;
            var s := slots[|slots| - 1];
            && (s.node.None? ==> a == b)
            && (s.node.Some? ==>
                  && DescriptorSet(a, s, materialName)
                  && forall p :: p != HasField(s.slotName) && p != TextureField(s.slotName) ==>
                       (p in a <==> p in b) && (p in b ==> a[p] == b[p]))
  {
  }

  /** When the descriptors export, every filled slot is switched on and holds its UV set and source. */
  lemma {:induction false} TexDescAttrsSets(attrs: map<string, Value>, slots: seq<Slot>, materialName: string)
    requires DistinctSlotFields(slots)
    requires TexDescAttrs(attrs, slots, materialName).Ok?
    ensures forall k :: 0 <= k < |slots| && slots[k].node.Some? ==>
              DescriptorSet(TexDescAttrs(attrs, slots, materialName).value, slots[k], materialName)
    decreases |slots|
  {
    if slots != [] {
      var front := slots[..|slots| - 1];
      var last := slots[|slots| - 1];
      TexDescAttrsStep(attrs, slots, materialName);
      assert DistinctSlotFields(front) by {
        assert forall k :: 0 <= k < |front| ==> front[k] == slots[k];
      }
      TexDescAttrsSets(attrs, front, materialName);
      var a := TexDescAttrs(attrs, slots, materialName).value;
      var b := TexDescAttrs(attrs, front, materialName).value;
      forall k | 0 <= k < |slots| && slots[k].node.Some? ensures DescriptorSet(a, slots[k], materialName) {
        if k < |front| {
          assert slots[k] == front[k];
          assert DescriptorSet(b, front[k], materialName);
        }
      }
    }
  }

  /** Every attribute that belongs to no filled slot is as it was. */
  lemma {:induction false} TexDescAttrsKeeps(attrs: map<string, Value>, slots: seq<Slot>, materialName: string, p: string)
    requires TexDescAttrs(attrs, slots, materialName).Ok? && Untouched(p, slots)
    ensures var a := TexDescAttrs(attrs, slots, materialName).value;
            (p in a <==> p in attrs) && (p in attrs ==> a[p] == attrs[p])
    decreases |slots|
  {
    if slots != [] {
      var front := slots[..|slots| - 1];
      TexDescAttrsStep(attrs, slots, materialName);
      assert Untouched(p, front) by {
        assert forall k :: 0 <= k < |front| ==> front[k] == slots[k];
      }
      TexDescAttrsKeeps(attrs, front, materialName, p);
    }
  }

  /** The slot loop of `export_nitextureprop_tex_descs`, on the property being built. */
  method ExportTexDescs(texprop: Block, slots: seq<Slot>, materialName: string) returns (r: Result<Block>)
    ensures r.Err? <==> TexDescAttrs(texprop.attrs, slots, materialName).Err?
    ensures r.Err? ==> r.error == TexDescAttrs(texprop.attrs, slots, materialName).error
    ensures r.Ok? ==> r.value == texprop.(attrs := TexDescAttrs(texprop.attrs, slots, materialName).value)
  {
    var attrs := texprop.attrs;
    for k := 0 to |slots|
      invariant TexDescAttrs(texprop.attrs, slots[..k], materialName) == Ok(attrs)
    {
      var s := slots[k];
      assert slots[..k + 1][..k] == slots[..k];
      if s.node.Some? {
        var n := s.node.value;
        attrs := attrs[HasField(s.slotName) := BoolV(true)];
        var uv := GetUvNode(n.found, n.linked, n.name, materialName);
        if uv.Err? {
          TexDescAttrsStayFailed(texprop.attrs, slots, materialName, k + 1);
          return Err(uv.error);
        }
        attrs := attrs[TextureField(s.slotName) := TexDescV(uv.value, Some(n.source))];
      }
    }
    assert slots[..|slots|] == slots;
    r := Ok(texprop.(attrs := attrs));
  }

  /** Once a prefix of the slots fails, all of them fail with the same error. */
  lemma {:induction false} TexDescAttrsStayFailed(attrs: map<string, Value>, slots: seq<Slot>, materialName: string, m: nat)
    requires m <= |slots| && TexDescAttrs(attrs, slots[..m], materialName).Err?
    ensures TexDescAttrs(attrs, slots, materialName) == TexDescAttrs(attrs, slots[..m], materialName)
    decreases |slots| - m
  {
    if m < |slots| {
      assert slots[..m + 1][..m] == slots[..m];
      TexDescAttrsStayFailed(attrs, slots, materialName, m + 1);
    }
    else {
      assert slots[..m] == slots;
    }
  }

  // ---------------------------------------------------------------- the property

  /** The property before its descriptors: the material's texture flags, the apply mode and seven textures. */
  function NewTexturingProperty(textureFlags: int, applyMode: Option<int>): Block {
    var attrs := map["flags" := IntV(textureFlags), "texture_count" := IntV(7)];
    Block("NiTexturingProperty", if applyMode.Some? then attrs["apply_mode" := IntV(applyMode.value)] else attrs)
  }

  /** The index of the last registered block equal to `b`, if any. */
  function LastEqual(blocks: seq<Block>, b: Block): (r: Option<nat>)
    ensures r.Some? ==> r.value < |blocks| && blocks[r.value] == b
    ensures r.Some? ==> forall j :: r.value < j < |blocks| ==> blocks[j] != b
    ensures r.None? <==> b !in blocks
    decreases |blocks|
  {
    if blocks == [] then None
    else if blocks[|blocks| - 1] == b then Some(|blocks| - 1)
    else
      var front := blocks[..|blocks| - 1];
      assert blocks == front + [blocks[|blocks| - 1]];
      LastEqual(front, b)
  }

  /** The duplicate search: the loop has no `break`, so each later equal property replaces the earlier one. */
  method FindDuplicate(blocks: seq<Block>, b: Block) returns (r: Option<nat>)
    requires b.typeName == "NiTexturingProperty"
    ensures r == LastEqual(blocks, b)
  {
    r := None;
    for j := 0 to |blocks|
      invariant r == LastEqual(blocks[..j], b)
    {
      assert blocks[..j + 1][..j] == blocks[..j];
      if blocks[j].typeName == "NiTexturingProperty" && blocks[j] == b {
        r := Some(j);
      }
    }
    assert blocks[..|blocks|] == blocks;
  }

  /** The property `export_ni_texturing_property` builds, or the first UV-set error. */
  function BuiltProperty(textureFlags: int, applyMode: Option<int>, slots: seq<Slot>, materialName: string): Result<Block> {
    var initial := NewTexturingProperty(textureFlags, applyMode);
    match TexDescAttrs(initial.attrs, slots, materialName)
    case Err(e) => Err(e)
    case Ok(attrs) => Ok(initial.(attrs := attrs))
  }

  /** The source block of the base texture's descriptor; an unset descriptor has none. */
  function BaseSource(prop: Block): Option<nat> {
    if "base_texture" in prop.attrs && prop.attrs["base_texture"].TexDescV? then prop.attrs["base_texture"].source
    else None
  }

  /** `file_name` of a source texture block; an unset name is the empty default. */
  function FileNameOf(b: Block): Value {
    if "file_name" in b.attrs then b.attrs["file_name"] else StrV("")
  }

  /** The block that stands for `prop` after the duplicate search: the last equal one, or `prop` registered last. */
  function PropertyIndex(blocks: seq<Block>, prop: Block): nat {
    var found := LastEqual(blocks, prop);
    if found.Some? then found.value else |blocks|
  }

  /** The registry once the property stands for itself or its duplicate and is added to the geometry's properties. */
  function WithTexturingProperty(blocks: seq<Block>, geometry: nat, prop: Block): (r: seq<Block>)
    requires geometry < |blocks|
    ensures |r| == |blocks| + (if prop in blocks then 0 else 1)
    ensures PropertyIndex(blocks, prop) < |r| && r[..|blocks|][geometry := blocks[geometry]] == blocks
    ensures PropertyIndex(blocks, prop) != geometry ==> r[PropertyIndex(blocks, prop)] == prop
    ensures r[geometry].typeName == blocks[geometry].typeName
    ensures RefsOf(r[geometry], "properties") == RefsOf(blocks[geometry], "properties") + [PropertyIndex(blocks, prop)]
  {
    var grown := if prop in blocks then blocks else blocks + [prop];
    var r := grown[geometry := grown[geometry].(attrs := grown[geometry].attrs[
      "properties" := RefsV(RefsOf(blocks[geometry], "properties") + [PropertyIndex(blocks, prop)])])];
    assert r[..|blocks|][geometry := blocks[geometry]] == blocks;
    r
  }

  /** A shader property of the type that takes the base texture's file name. */
  predicate TakesFileName(blocks: seq<Block>, shader: Option<nat>)
    requires shader.Some? ==> shader.value < |blocks|
  {
    shader.Some? && blocks[shader.value].typeName == "BSShaderNoLightingProperty"
  }

  /** The descriptor values in the built attributes come from the initial attributes or from a filled slot. */
  lemma {:induction false} TexDescSources(attrs: map<string, Value>, slots: seq<Slot>, materialName: string)
    requires TexDescAttrs(attrs, slots, materialName).Ok?
    ensures var a := TexDescAttrs(attrs, slots, materialName).value;
            forall p :: p in a && a[p].TexDescV? && a[p].source.Some? ==>
              (p in attrs && a[p] == attrs[p]) ||
              exists k :: 0 <= k < |slots| && slots[k].node.Some? && a[p].source == Some(slots[k].node.value.source)
    decreases |slots|
  {
    if slots != [] {
      var front := slots[..|slots| - 1];
      assert forall k :: 0 <= k < |front| ==> front[k] == slots[k];
      TexDescSources(attrs, front, materialName);
      var last := |slots| - 1;
      var a := TexDescAttrs(attrs, slots, materialName).value;
      var b := TexDescAttrs(attrs, front, materialName).value;
      forall p | p in a && a[p].TexDescV? && a[p].source.Some?
        ensures (p in attrs && a[p] == attrs[p]) ||
                exists k :: 0 <= k < |slots| && slots[k].node.Some? && a[p].source == Some(slots[k].node.value.source)
      {
        if slots[last].node.Some? && p == TextureField(slots[last].slotName) {
          assert a[p].source == Some(slots[last].node.value.source);
        } else {
          assert p in b && a[p] == b[p];
        }
      }
    }
  }

  /** The sources of the filled slots are registered blocks. */
  predicate SourcesRegistered(slots: seq<Slot>, n: nat) {
    forall k :: 0 <= k < |slots| && slots[k].node.Some? ==> slots[k].node.value.source < n
  }

  /** A built property's base texture source is one of the slots' sources. */
  lemma BuiltBaseSource(textureFlags: int, applyMode: Option<int>, slots: seq<Slot>, materialName: string, n: nat)
    requires SourcesRegistered(slots, n)
    requires BuiltProperty(textureFlags, applyMode, slots, materialName).Ok?
    ensures var src := BaseSource(BuiltProperty(textureFlags, applyMode, slots, materialName).value);
            src.Some? ==> src.value < n
  {
    var initial := NewTexturingProperty(textureFlags, applyMode);
    TexDescSources(initial.attrs, slots, materialName);
  }

  /**
   * `export_ni_texturing_property(b_mat, n_ni_geometry, n_bs_shader_property, applymode)`
   * with the material's filled slots. A UV-set error leaves the registry
   * unchanged. Otherwise the property, or the last equal registered
   * property in its place, is added to the geometry, and a no-lighting
   * shader property then takes the base texture's file name, which fails
   * when the base texture has no source.
   */
  method ExportTexturingProperty(store: BlockStore, geometry: nat, shader: Option<nat>, textureFlags: int,
                                 applyMode: Option<int>, slots: seq<Slot>, materialName: string)
    returns (r: Result<nat>)
    requires geometry < |store.blocks| && SourcesRegistered(slots, |store.blocks|)
    requires shader.Some? ==> shader.value < |store.blocks|
    modifies store
    ensures var built := BuiltProperty(textureFlags, applyMode, slots, materialName);
            built.Err? ==> r == Err(built.error) && store.blocks == old(store.blocks)
    ensures var built := BuiltProperty(textureFlags, applyMode, slots, materialName);
            built.Ok? && !TakesFileName(old(store.blocks), shader) ==>
              r == Ok(PropertyIndex(old(store.blocks), built.value)) &&
              store.blocks == WithTexturingProperty(old(store.blocks), geometry, built.value)
    ensures var built := BuiltProperty(textureFlags, applyMode, slots, materialName);
            built.Ok? && TakesFileName(old(store.blocks), shader) && BaseSource(built.value).None? ==>
              r == Err(AttributeError("file_name")) &&
              store.blocks == WithTexturingProperty(old(store.blocks), geometry, built.value)
    ensures var built := BuiltProperty(textureFlags, applyMode, slots, materialName);
            built.Ok? && TakesFileName(old(store.blocks), shader) && BaseSource(built.value).Some? ==>
              var mid := WithTexturingProperty(old(store.blocks), geometry, built.value);
              var src := BaseSource(built.value).value;
              && src < |mid|
              && r == Ok(PropertyIndex(old(store.blocks), built.value))
              && store.blocks == mid[shader.value := mid[shader.value].(attrs :=
                   mid[shader.value].attrs["file_name" := FileNameOf(mid[src])])]
  {
    var initial := NewTexturingProperty(textureFlags, applyMode);
    var built := ExportTexDescs(initial, slots, materialName);
    if built.Err? {
      return Err(built.error);
    }
    var prop := built.value;
    BuiltBaseSource(textureFlags, applyMode, slots, materialName, |store.blocks|);
    var id := RegisterTexturingProperty(store, geometry, prop);
    if shader.Some? && store.blocks[shader.value].typeName == "BSShaderNoLightingProperty" {
      r := CopyBaseFileName(store, shader.value, prop, id);
      return;
    }
    r := Ok(id);
  }

  /** The duplicate search, the registration and `add_property` on the geometry. */
  method RegisterTexturingProperty(store: BlockStore, geometry: nat, prop: Block) returns (id: nat)
    requires geometry < |store.blocks| && prop.typeName == "NiTexturingProperty"
    modifies store
    ensures id == PropertyIndex(old(store.blocks), prop)
    ensures store.blocks == WithTexturingProperty(old(store.blocks), geometry, prop)
  {
    var found := FindDuplicate(store.blocks, prop);
    if found.Some? {
      id := found.value;
    } else {
      id := store.Register(prop);
    }
    store.AppendRef(geometry, "properties", id);
  }

  /** `n_bs_shader_property.file_name = n_ni_texturing_property.base_texture.source.file_name`. */
  method CopyBaseFileName(store: BlockStore, shader: nat, prop: Block, id: nat) returns (r: Result<nat>)
    requires shader < |store.blocks|
    requires BaseSource(prop).Some? ==> BaseSource(prop).value < |store.blocks|
    modifies store
    ensures BaseSource(prop).None? ==> r == Err(AttributeError("file_name")) && store.blocks == old(store.blocks)
    ensures BaseSource(prop).Some? ==>
              r == Ok(id) &&
              store.blocks == old(store.blocks)[shader := old(store.blocks)[shader].(attrs :=
                old(store.blocks)[shader].attrs["file_name" := FileNameOf(old(store.blocks)[BaseSource(prop).value])])]
  {
    var source := BaseSource(prop);
    if source.None? {
      return Err(AttributeError("file_name"));
    }
    store.Set(shader, "file_name", FileNameOf(store.blocks[source.value]));
    r := Ok(id);
  }

  // ---------------------------------------------------------------- used slots and UV layers

  /** A node of a material's tree as these queries see it: its type and its `uv_layer`, when it has one. */
  datatype MaterialNode = MaterialNode(kind: Kind, uvLayer: Option<string>)

  /** A material: whether it uses nodes, and the nodes of its tree in order. */
  datatype Material = Material(useNodes: bool, nodes: seq<MaterialNode>)

  /** The image-texture nodes of `nodes`, in order. */
  function ImageNodes(nodes: seq<MaterialNode>): (r: seq<MaterialNode>)
    ensures forall n :: n in r <==> n in nodes && n.kind == TexImageNode
    ensures |r| <= |nodes|
    decreases |nodes|
  {
    if nodes == [] then []
    else
      var rest := ImageNodes(nodes[1..]);
      assert forall n :: n in nodes <==> n == nodes[0] || n in nodes[1..];
      if nodes[0].kind == TexImageNode then [nodes[0]] + rest else rest
  }

  /** Selecting the image nodes of two runs of nodes selects from each run in turn, so the order is kept. */
  lemma {:induction false} ImageNodesAppend(a: seq<MaterialNode>, b: seq<MaterialNode>)
    ensures ImageNodes(a + b) == ImageNodes(a) + ImageNodes(b)
    decreases |a|
  {
    if a != [] {
      assert (a + b)[1..] == a[1..] + b;
      ImageNodesAppend(a[1..], b);
    }
    else {
      assert a + b == b;
    }
  }

  /** `get_used_textslots(b_mat)`: no slots without a material or with nodes off; else the image nodes in order. */
  function UsedTextSlots(mat: Option<Material>): (r: seq<MaterialNode>)
    ensures mat.None? || !mat.value.useNodes ==> r == []
    ensures mat.Some? && mat.value.useNodes ==> r == ImageNodes(mat.value.nodes)
  {
    if mat.Some? && mat.value.useNodes then ImageNodes(mat.value.nodes) else []
  }

  /**
   * `get_uv_layers(b_mat)`: the set of the `uv_layer`s of the used slots;
   * a node without that attribute fails the lookup.
   */
  method GetUvLayers(mat: Option<Material>) returns (r: Result<set<string>>)
    ensures r.Err? <==> exists n :: n in UsedTextSlots(mat) && n.uvLayer.None?
    ensures r.Err? ==> r.error == AttributeError("uv_layer")
    ensures r.Ok? ==> forall u :: u in r.value <==> exists n :: n in UsedTextSlots(mat) && n.uvLayer == Some(u)
  {
    var slots := UsedTextSlots(mat);
    var used: set<string> := {};
    for k := 0 to |slots|
      invariant forall j :: 0 <= j < k ==> slots[j].uvLayer.Some?
      invariant forall u :: u in used <==> exists j :: 0 <= j < k && slots[j].uvLayer == Some(u)
    {
      if slots[k].uvLayer.None? {
        return Err(AttributeError("uv_layer"));
      }
      used := used + {slots[k].uvLayer.value};
    }
    forall u ensures u in used <==> exists n :: n in slots && n.uvLayer == Some(u) {
      if exists n :: n in slots && n.uvLayer == Some(u) {
        var n :| n in slots && n.uvLayer == Some(u);
        var j :| 0 <= j < |slots| && slots[j] == n;
      }
    }
    r := Ok(used);
  }

  // ---------------------------------------------------------------- the exporter instance

  /** The texturing property exporter. */
  class TexturingExporter {
    constructor() {
    }
  }

  /** The class attribute that holds the one exporter instance. */
  class ExporterClass {
    var instance: Option<TexturingExporter>

    constructor()
      ensures instance.None?
    {
      instance := None;
    }

    /** `NiTexturingProperty()`: the first construction makes the instance, every later one raises. */
    method Construct() returns (r: Result<TexturingExporter>)
      modifies this
      ensures old(instance).Some? ==> r == Err(RaisedError("This class is a singleton!")) && instance == old(instance)
      ensures old(instance).None? ==> r.Ok? && fresh(r.value) && instance == Some(r.value)
    {
      if instance.Some? {
        return Err(RaisedError("This class is a singleton!"));
      }
      var e := new TexturingExporter();
      instance := Some(e);
      r := Ok(e);
    }

    /** `NiTexturingProperty.get()`: the instance, made on first use. */
    method Get() returns (e: TexturingExporter)
      modifies this
      ensures instance == Some(e)
      ensures old(instance).Some? ==> e == old(instance).value
      ensures old(instance).None? ==> fresh(e)
    {
      if instance.None? {
        var _ := Construct();
      }
      e := instance.value;
    }
  }

  /** Two uses of `get()` give the same instance, and a construction after them raises. */
  method GetIsStable(cls: ExporterClass) returns (first: TexturingExporter, second: TexturingExporter, again: Result<TexturingExporter>)
    modifies cls
    ensures first == second && cls.instance == Some(first)
    ensures again == Err(RaisedError("This class is a singleton!"))
  {
    first := cls.Get();
    second := cls.Get();
    again := cls.Construct();
  }
}
