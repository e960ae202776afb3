/**
 * The export of object and root properties: the registry search that
 * reuses an existing property block with the wanted attributes, the
 * per-game selection rules for the vertex-colour, z-buffer, stencil,
 * wireframe and specular properties, the string extra data, and the BSX
 * flags of Bethesda roots.
 */
module ObjectProperty {
  import opened Wrappers
  import opened Strings
  import opened NifBlocks

  // ---------------------------------------------------------------- matching blocks

  /** One keyword argument of `get_matching_block`; `None` means "no constraint". */
  datatype Criterion = Criterion(param: string, value: Option<Value>)

  /** Keyword arguments never repeat a name. */
  predicate DistinctParams(kwargs: seq<Criterion>) {
    forall i, j :: 0 <= i < j < |kwargs| ==> kwargs[i].param != kwargs[j].param
  }

  /** Every criterion with a value is met: the attribute is set and equal to it. */
  predicate Satisfies(b: Block, kwargs: seq<Criterion>) {
    forall i :: 0 <= i < |kwargs| && kwargs[i].value.Some? ==>
      kwargs[i].param in b.attrs && b.attrs[kwargs[i].param] == kwargs[i].value.value
  }

  /** `block_type in str(type(block))` and all criteria met. */
  predicate Matches(b: Block, blockType: string, kwargs: seq<Criterion>) {
    Contains(b.typeName, blockType) && Satisfies(b, kwargs)
  }

  /** The index of the first registered block that matches, if any. */
  function FirstMatch(blocks: seq<Block>, blockType: string, kwargs: seq<Criterion>): (r: Option<nat>)
    ensures r.Some? ==> r.value < |blocks| && Matches(blocks[r.value], blockType, kwargs)
    ensures r.Some? ==> forall j :: 0 <= j < r.value ==> !Matches(blocks[j], blockType, kwargs)
    ensures r.None? ==> forall j :: 0 <= j < |blocks| ==> !Matches(blocks[j], blockType, kwargs)
  {
    if blocks == [] then None
    else
      var front := blocks[..|blocks| - 1];
      var r0 := FirstMatch(front, blockType, kwargs);
      assert forall j :: 0 <= j < |front| ==> front[j] == blocks[j];
      if r0.Some? then r0
      else if Matches(blocks[|blocks| - 1], blockType, kwargs) then Some(|blocks| - 1)
      else None
  }

  /** A matching block with no match before it is the first match. */
  lemma FirstMatchIs(blocks: seq<Block>, blockType: string, kwargs: seq<Criterion>, i: nat)
    requires i < |blocks| && Matches(blocks[i], blockType, kwargs)
    requires forall j :: 0 <= j < i ==> !Matches(blocks[j], blockType, kwargs)
    ensures FirstMatch(blocks, blockType, kwargs) == Some(i)
  {
  }

  /** The attributes after setting, in order, every criterion that has a value. */
  function WithCriteria(attrs: map<string, Value>, kwargs: seq<Criterion>): map<string, Value> {
    if kwargs == [] then attrs
    else
      var before := WithCriteria(attrs, kwargs[..|kwargs| - 1]);
      var last := kwargs[|kwargs| - 1];
      if last.value.Some? then before[last.param := last.value.value] else before
  }

  /** Setting the criteria sets exactly the named attributes, each to its value. */
  lemma {:induction false} WithCriteriaSets(attrs: map<string, Value>, kwargs: seq<Criterion>)
    requires DistinctParams(kwargs)
    ensures forall i :: 0 <= i < |kwargs| && kwargs[i].value.Some? ==>
              kwargs[i].param in WithCriteria(attrs, kwargs) &&
              WithCriteria(attrs, kwargs)[kwargs[i].param] == kwargs[i].value.value
    ensures forall p :: p in WithCriteria(attrs, kwargs) && p !in attrs ==>
              exists i :: 0 <= i < |kwargs| && kwargs[i].param == p && kwargs[i].value.Some?
    ensures forall p :: p in attrs && (forall i :: 0 <= i < |kwargs| ==> kwargs[i].param != p || kwargs[i].value.None?) ==>
              p in WithCriteria(attrs, kwargs) && WithCriteria(attrs, kwargs)[p] == attrs[p]
  {
    if kwargs != [] {
      var front := kwargs[..|kwargs| - 1];
      assert forall i :: 0 <= i < |front| ==> front[i] == kwargs[i];
      WithCriteriaSets(attrs, front);
    }
  }

  /** A block created for the criteria is the block they describe, so it matches them. */
  lemma CreatedBlockMatches(blockType: string, kwargs: seq<Criterion>)
    requires DistinctParams(kwargs)
    ensures Matches(Block(blockType, WithCriteria(map[], kwargs)), blockType, kwargs)
  {
    WithCriteriaSets(map[], kwargs);
    assert OccursAt(blockType, blockType, 0);
  }

  /** A criterion without a value constrains nothing. */
  lemma NoneIgnored(b: Block, before: seq<Criterion>, param: string, after: seq<Criterion>)
    ensures Satisfies(b, before + [Criterion(param, None)] + after) <==> Satisfies(b, before + after)
  {
    var all, kept := before + [Criterion(param, None)] + after, before + after;
    if Satisfies(b, kept) {
      forall i | 0 <= i < |all| && all[i].value.Some?
        ensures all[i].param in b.attrs && b.attrs[all[i].param] == all[i].value.value
      {
        if i < |before| {
          assert all[i] == kept[i];
        } else {
          assert all[i] == kept[i - 1];
        }
      }
    }
    if Satisfies(b, all) {
      forall i | 0 <= i < |kept| && kept[i].value.Some?
        ensures kept[i].param in b.attrs && b.attrs[kept[i].param] == kept[i].value.value
      {
        if i < |before| {
          assert kept[i] == all[i];
        } else {
          assert kept[i] == all[i + 1];
        }
      }
    }
  }

  /** The inner loop of `get_matching_block`: stop at the first criterion the block fails. */
  method CheckCriteria(b: Block, kwargs: seq<Criterion>) returns (ok: bool)
    ensures ok == Satisfies(b, kwargs)
  {
    for i := 0 to |kwargs|
      invariant forall j :: 0 <= j < i && kwargs[j].value.Some? ==>
                  kwargs[j].param in b.attrs && b.attrs[kwargs[j].param] == kwargs[j].value.value
    {
      var c := kwargs[i];
      if c.value.Some? && (c.param !in b.attrs || b.attrs[c.param] != c.value.value) {
        return false;
      }
    }
    return true;
  }

  /** The `setattr` loop on a new block. */
  method SetCriteria(store: BlockStore, id: nat, kwargs: seq<Criterion>)
    requires id < |store.blocks|
    modifies store
    ensures store.blocks == old(store.blocks)[id := old(store.blocks)[id].(attrs := WithCriteria(old(store.blocks)[id].attrs, kwargs))]
  {
    for i := 0 to |kwargs|
      invariant |store.blocks| == |old(store.blocks)|
      invariant store.blocks == old(store.blocks)[id := old(store.blocks)[id].(attrs := WithCriteria(old(store.blocks)[id].attrs, kwargs[..i]))]
    {
      var c := kwargs[i];
      assert kwargs[..i + 1][..i] == kwargs[..i];
      if c.value.Some? {
        store.Set(id, c.param, c.value.value);
      }
    }
    assert kwargs[..|kwargs|] == kwargs;
  }

  /** The block `get_matching_block` returns: the first match, or the one it appends. */
  function MatchedIndex(blocks: seq<Block>, blockType: string, kwargs: seq<Criterion>): nat {
    match FirstMatch(blocks, blockType, kwargs)
    case Some(i) => i
    case None => |blocks|
  }

  /** The registry after `get_matching_block`: unchanged on a match, one new block otherwise. */
  function AfterMatching(blocks: seq<Block>, blockType: string, kwargs: seq<Criterion>): seq<Block> {
    if FirstMatch(blocks, blockType, kwargs).Some? then blocks
    else blocks + [Block(blockType, WithCriteria(map[], kwargs))]
  }

  /** A match in a registry stays the first match however many blocks are appended after it. */
  lemma FirstMatchKept(blocks: seq<Block>, ext: seq<Block>, blockType: string, kwargs: seq<Criterion>)
    requires FirstMatch(blocks, blockType, kwargs).Some?
    ensures FirstMatch(blocks + ext, blockType, kwargs) == FirstMatch(blocks, blockType, kwargs)
  {
    var i := FirstMatch(blocks, blockType, kwargs).value;
    assert forall j :: 0 <= j <= i ==> (blocks + ext)[j] == blocks[j];
    FirstMatchIs(blocks + ext, blockType, kwargs, i);
  }

  /**
   * Asking again for the same block finds the one the first request
   * returned and registers nothing: `get_matching_block` is idempotent.
   */
  lemma AfterMatchingIdempotent(blocks: seq<Block>, blockType: string, kwargs: seq<Criterion>)
    requires DistinctParams(kwargs)
    ensures AfterMatching(AfterMatching(blocks, blockType, kwargs), blockType, kwargs) == AfterMatching(blocks, blockType, kwargs)
    ensures MatchedIndex(AfterMatching(blocks, blockType, kwargs), blockType, kwargs) == MatchedIndex(blocks, blockType, kwargs)
  {
    if FirstMatch(blocks, blockType, kwargs).None? {
      var b := Block(blockType, WithCriteria(map[], kwargs));
      CreatedBlockMatches(blockType, kwargs);
      assert (blocks + [b])[|blocks|] == b;
      assert forall j :: 0 <= j < |blocks| ==> (blocks + [b])[j] == blocks[j];
      FirstMatchIs(blocks + [b], blockType, kwargs, |blocks|);
    }
  }

  /**
   * `get_matching_block(block_type, **kwargs)`: the first registered block
   * that matches, or else a new block of that type with exactly the
   * criteria that have a value set on it. Either way the result matches.
   */
  method GetMatchingBlock(store: BlockStore, blockType: string, kwargs: seq<Criterion>) returns (id: nat)
    requires DistinctParams(kwargs)
    modifies store
    ensures id < |store.blocks| && Matches(store.blocks[id], blockType, kwargs)
    ensures FirstMatch(old(store.blocks), blockType, kwargs).Some? ==>
              id == FirstMatch(old(store.blocks), blockType, kwargs).value && store.blocks == old(store.blocks)
    ensures FirstMatch(old(store.blocks), blockType, kwargs).None? ==>
              id == |old(store.blocks)| &&
              store.blocks == old(store.blocks) + [Block(blockType, WithCriteria(map[], kwargs))]
    ensures id == MatchedIndex(old(store.blocks), blockType, kwargs) && store.blocks == AfterMatching(old(store.blocks), blockType, kwargs)
  {
    var n := |store.blocks|;
    for i := 0 to n
      invariant store.blocks == old(store.blocks)
      invariant forall j :: 0 <= j < i ==> !Matches(store.blocks[j], blockType, kwargs)
    {
      var b := store.blocks[i];
      if Contains(b.typeName, blockType) {
        var ok := CheckCriteria(b, kwargs);
        if ok {
          FirstMatchIs(store.blocks, blockType, kwargs, i);
          return i;
        }
      }
    }
    assert FirstMatch(store.blocks, blockType, kwargs).None?;
    id := store.Create(blockType);
    SetCriteria(store, id, kwargs);
    assert store.blocks[id] == Block(blockType, WithCriteria(map[], kwargs));
    CreatedBlockMatches(blockType, kwargs);
  }

  // ---------------------------------------------------------------- scene settings

  /** The scene settings the rules read: the game, and the game-family tests of the scene. */
  datatype SceneSettings = SceneSettings(game: string, isBs: bool, isFo3: bool, isSkyrim: bool)

  /** The games whose roots get a vertex-colour and a z-buffer property. */
  const RootPropertyGames: set<string> := {"CIVILIZATION_IV", "SID_MEIER_S_RAILROADS", "EMPIRE_EARTH_II", "ZOO_TYCOON_2"}

  // ---------------------------------------------------------------- material properties

  /** The criteria of `export_vertex_color_property`. */
  function VertexColorCriteria(flags: int, vertexMode: int, lightingMode: int): seq<Criterion> {
    [Criterion("flags", Some(IntV(flags))), Criterion("vertex_mode", Some(IntV(vertexMode))),
     Criterion("lighting_mode", Some(IntV(lightingMode)))]
  }

  /**
   * `export_vertex_color_property(flags, vertex_mode, lighting_mode)`: the
   * first vertex-colour property with those values, or a new one.
   */
  method ExportVertexColorProperty(store: BlockStore, flags: int, vertexMode: int, lightingMode: int) returns (id: nat)
    modifies store
    ensures var k := VertexColorCriteria(flags, vertexMode, lightingMode);
      FirstMatch(old(store.blocks), "NiVertexColorProperty", k).Some? ==>
        id == FirstMatch(old(store.blocks), "NiVertexColorProperty", k).value && store.blocks == old(store.blocks)
    ensures var k := VertexColorCriteria(flags, vertexMode, lightingMode);
      FirstMatch(old(store.blocks), "NiVertexColorProperty", k).None? ==>
        id == |old(store.blocks)| &&
        store.blocks == old(store.blocks) + [Block("NiVertexColorProperty", WithCriteria(map[], k))]
    ensures id < |store.blocks| && Contains(store.blocks[id].typeName, "NiVertexColorProperty")
    ensures var a := store.blocks[id].attrs;
      && "flags" in a && a["flags"] == IntV(flags)
      && "vertex_mode" in a && a["vertex_mode"] == IntV(vertexMode)
      && "lighting_mode" in a && a["lighting_mode"] == IntV(lightingMode)
  {
    var kwargs := VertexColorCriteria(flags, vertexMode, lightingMode);
    id := GetMatchingBlock(store, "NiVertexColorProperty", kwargs);
    assert kwargs[0].value.Some? && kwargs[1].value.Some? && kwargs[2].value.Some?;
  }

  /** The z-buffer comparison function: 1 for Empire Earth II, 3 for every other game. */
  function ZBufferFunction(game: string): (f: int)
    ensures game == "EMPIRE_EARTH_II" <==> f == 1
    ensures game != "EMPIRE_EARTH_II" <==> f == 3
  {
    if game == "EMPIRE_EARTH_II" then 1 else 3
  }

  /** The criteria of `export_z_buffer_property()` with its defaults. */
  function ZBufferCriteria(game: string): seq<Criterion> {
    [Criterion("flags", Some(IntV(15))), Criterion("function", Some(IntV(ZBufferFunction(game))))]
  }

  /** `export_z_buffer_property()` with its defaults: flags 15 and the game's comparison function. */
  method ExportZBufferProperty(store: BlockStore, game: string) returns (id: nat)
    modifies store
    ensures FirstMatch(old(store.blocks), "NiZBufferProperty", ZBufferCriteria(game)).Some? ==>
              id == FirstMatch(old(store.blocks), "NiZBufferProperty", ZBufferCriteria(game)).value &&
              store.blocks == old(store.blocks)
    ensures FirstMatch(old(store.blocks), "NiZBufferProperty", ZBufferCriteria(game)).None? ==>
              id == |old(store.blocks)| &&
              store.blocks == old(store.blocks) + [Block("NiZBufferProperty", WithCriteria(map[], ZBufferCriteria(game)))]
    ensures id < |store.blocks| && Contains(store.blocks[id].typeName, "NiZBufferProperty")
    ensures var a := store.blocks[id].attrs;
      && "flags" in a && a["flags"] == IntV(15)
      && "function" in a && a["function"] == IntV(ZBufferFunction(game))
  {
    var kwargs := ZBufferCriteria(game);
    id := GetMatchingBlock(store, "NiZBufferProperty", kwargs);
    assert kwargs[0].value.Some? && kwargs[1].value.Some?;
  }

  /** The flags a stencil property must have: 19840 for Fallout 3, unconstrained otherwise. */
  function StencilFlags(isFo3: bool): (r: Option<Value>)
    ensures r.Some? <==> isFo3
    ensures r.Some? ==> r.value == IntV(19840)
  {
    if isFo3 then Some(IntV(19840)) else None
  }

  /** The criteria of `export_stencil_property`: only the flags, and for Fallout 3 only. */
  function StencilCriteria(isFo3: bool): seq<Criterion> {
    [Criterion("flags", StencilFlags(isFo3))]
  }

  /** The registry after `export_stencil_property(b_mat)`. */
  function AfterStencil(blocks: seq<Block>, useBackfaceCulling: bool, isFo3: bool): seq<Block> {
    if useBackfaceCulling then blocks else AfterMatching(blocks, "NiStencilProperty", StencilCriteria(isFo3))
  }

  /** `export_stencil_property(b_mat)`: none for a culled material, otherwise a matching stencil property. */
  method ExportStencilProperty(store: BlockStore, useBackfaceCulling: bool, isFo3: bool) returns (r: Option<nat>)
    modifies store
    ensures r.None? <==> useBackfaceCulling
    ensures r.None? ==> store.blocks == old(store.blocks)
    ensures r.Some? && FirstMatch(old(store.blocks), "NiStencilProperty", StencilCriteria(isFo3)).Some? ==>
              r.value == FirstMatch(old(store.blocks), "NiStencilProperty", StencilCriteria(isFo3)).value &&
              store.blocks == old(store.blocks)
    ensures r.Some? && FirstMatch(old(store.blocks), "NiStencilProperty", StencilCriteria(isFo3)).None? ==>
              r.value == |old(store.blocks)| &&
              store.blocks == old(store.blocks) + [Block("NiStencilProperty", WithCriteria(map[], StencilCriteria(isFo3)))]
    ensures store.blocks == AfterStencil(old(store.blocks), useBackfaceCulling, isFo3)
    ensures r.Some? ==> r.value < |store.blocks| && Contains(store.blocks[r.value].typeName, "NiStencilProperty")
    ensures r.Some? && isFo3 ==> "flags" in store.blocks[r.value].attrs && store.blocks[r.value].attrs["flags"] == IntV(19840)
  {
    if useBackfaceCulling {
      return None;
    }
    var kwargs := StencilCriteria(isFo3);
    var id := GetMatchingBlock(store, "NiStencilProperty", kwargs);
    assert kwargs[0].value == StencilFlags(isFo3);
    r := Some(id);
  }

  /** Whether some modifier of the object is a wireframe modifier. */
  function HasWireframeModifier(modifiers: seq<string>): (b: bool)
    ensures b <==> exists i :: 0 <= i < |modifiers| && modifiers[i] == "WIREFRAME"
  {
    "WIREFRAME" in modifiers
  }

  /** The criteria of `export_wireframe_property` with its default flags. */
  const WireframeCriteria: seq<Criterion> := [Criterion("flags", Some(IntV(1)))]

  /** The registry after `export_wireframe_property(b_obj)`. */
  function AfterWireframe(blocks: seq<Block>, modifiers: seq<string>): seq<Block> {
    if HasWireframeModifier(modifiers) then AfterMatching(blocks, "NiWireframeProperty", WireframeCriteria) else blocks
  }

  /** `export_wireframe_property(b_obj)`: a wireframe property (flags 1) exactly when a modifier is a wireframe. */
  method ExportWireframeProperty(store: BlockStore, modifiers: seq<string>) returns (r: Option<nat>)
    modifies store
    ensures r.Some? <==> HasWireframeModifier(modifiers)
    ensures r.None? ==> store.blocks == old(store.blocks)
    ensures r.Some? && FirstMatch(old(store.blocks), "NiWireframeProperty", WireframeCriteria).Some? ==>
              r.value == FirstMatch(old(store.blocks), "NiWireframeProperty", WireframeCriteria).value &&
              store.blocks == old(store.blocks)
    ensures r.Some? && FirstMatch(old(store.blocks), "NiWireframeProperty", WireframeCriteria).None? ==>
              r.value == |old(store.blocks)| &&
              store.blocks == old(store.blocks) + [Block("NiWireframeProperty", WithCriteria(map[], WireframeCriteria))]
    ensures store.blocks == AfterWireframe(old(store.blocks), modifiers)
    ensures r.Some? ==> r.value < |store.blocks| && Contains(store.blocks[r.value].typeName, "NiWireframeProperty") &&
                        "flags" in store.blocks[r.value].attrs && store.blocks[r.value].attrs["flags"] == IntV(1)
  {
    for i := 0 to |modifiers|
      invariant forall j :: 0 <= j < i ==> modifiers[j] != "WIREFRAME"
    {
      if modifiers[i] == "WIREFRAME" {
        var kwargs := WireframeCriteria;
        var id := GetMatchingBlock(store, "NiWireframeProperty", kwargs);
        assert kwargs[0].value.Some?;
        return Some(id);
      }
    }
    return None;
  }

  /**
   * `export_specular_property(b_mat)`: outside Skyrim and the Fallout
   * games the body reads a helper attribute the class never defines, so
   * the call fails with an attribute error before any block is made; for
   * those games, or without a material, it does nothing.
   */
  function ExportSpecularProperty(hasMaterial: bool, isSkyrim: bool, game: string): (r: Result<()>)
    ensures r.Err? <==> hasMaterial && !isSkyrim && !Contains(game, "FALLOUT")
    ensures r.Err? ==> r.error == AttributeError("ni_texturing_property_helper")
  {
    if hasMaterial && !isSkyrim && !Contains(game, "FALLOUT") then Err(AttributeError("ni_texturing_property_helper"))
    else Ok(())
  }

  /**
   * `export_alpha_property(b_mat)`: for a node material it looks up the
   * "Principled BSDF" node, which fails with a key error when the tree has
   * none; the rest of the body builds no block.
   */
  function ExportAlphaProperty(useNodes: bool, hasPrincipled: bool): (r: Result<()>)
    ensures r.Err? <==> useNodes && !hasPrincipled
    ensures r.Err? ==> r.error == KeyError("Principled BSDF")
  {
    if useNodes && !hasPrincipled then Err(KeyError("Principled BSDF")) else Ok(())
  }

  /** The registry after the wireframe and then the stencil property of an object and its material. */
  function ObjectPropertyBlocks(blocks: seq<Block>, modifiers: seq<string>, useBackfaceCulling: bool, isFo3: bool): seq<Block> {
    AfterStencil(AfterWireframe(blocks, modifiers), useBackfaceCulling, isFo3)
  }

  /**
   * `export_object_properties(b_obj, n_node)`. The active material is read
   * before the test, so a missing object is an attribute error. Without a
   * material nothing happens. Otherwise the alpha property runs first and
   * fails for a node material without a "Principled BSDF" node; then the
   * wireframe, the stencil and the specular property follow, in that
   * order. The material and texture properties are exported by helpers
   * that are not part of this model.
   */
  method ExportObjectProperties(store: BlockStore, hasObject: bool, hasMaterial: bool, useNodes: bool, hasPrincipled: bool,
                                modifiers: seq<string>, useBackfaceCulling: bool, settings: SceneSettings)
    returns (r: Result<()>)
    modifies store
    ensures !hasObject ==> r == Err(AttributeError("active_material")) && store.blocks == old(store.blocks)
    ensures hasObject && !hasMaterial ==> r == Ok(()) && store.blocks == old(store.blocks)
    ensures hasObject && hasMaterial && ExportAlphaProperty(useNodes, hasPrincipled).Err? ==>
              r == ExportAlphaProperty(useNodes, hasPrincipled) && store.blocks == old(store.blocks)
    ensures hasObject && hasMaterial && ExportAlphaProperty(useNodes, hasPrincipled).Ok? ==>
              && r == ExportSpecularProperty(true, settings.isSkyrim, settings.game)
              && store.blocks == ObjectPropertyBlocks(old(store.blocks), modifiers, useBackfaceCulling, settings.isFo3)
  {
    if !hasObject {
      return Err(AttributeError("active_material"));
    }
    if !hasMaterial {
      return Ok(());
    }
    var alpha := ExportAlphaProperty(useNodes, hasPrincipled);
    if alpha.Err? {
      return alpha;
    }
    var _ := ExportWireframeProperty(store, modifiers);
    var _ := ExportStencilProperty(store, useBackfaceCulling, settings.isFo3);
    r := ExportSpecularProperty(true, settings.isSkyrim, settings.game);
  }

  /**
   * Exporting the properties of the same object twice registers nothing
   * the second time: the wireframe and stencil blocks of the first export
   * are found again.
   */
  lemma ObjectPropertiesReused(blocks: seq<Block>, modifiers: seq<string>, useBackfaceCulling: bool, isFo3: bool)
    ensures var once := ObjectPropertyBlocks(blocks, modifiers, useBackfaceCulling, isFo3);
            ObjectPropertyBlocks(once, modifiers, useBackfaceCulling, isFo3) == once
  {
    var w := AfterWireframe(blocks, modifiers);
    var once := AfterStencil(w, useBackfaceCulling, isFo3);
    if HasWireframeModifier(modifiers) {
      AfterMatchingIdempotent(blocks, "NiWireframeProperty", WireframeCriteria);
      assert FirstMatch(w, "NiWireframeProperty", WireframeCriteria).Some?;
      assert once == w + (once[|w|..]);
      FirstMatchKept(w, once[|w|..], "NiWireframeProperty", WireframeCriteria);
    }
    assert AfterWireframe(once, modifiers) == once;
    if !useBackfaceCulling {
      AfterMatchingIdempotent(w, "NiStencilProperty", StencilCriteria(isFo3));
    }
  }

  // ---------------------------------------------------------------- string extra data

  /** A string extra data block with the given name and data. */
  function StringExtraData(name: string, data: string): Block {
    Block("NiStringExtraData", map["name" := StrV(name), "string_data" := StrV(data)])
  }

  /** The registry after `b` was created and added to the extra data of block `node`. */
  function WithExtraData(blocks: seq<Block>, node: nat, b: Block): (r: seq<Block>)
    requires node < |blocks|
    ensures |r| == |blocks| + 1 && r[|blocks|] == b
    ensures r[node].typeName == blocks[node].typeName
    ensures RefsOf(r[node], "extra_data_list") == RefsOf(blocks[node], "extra_data_list") + [|blocks|]
    ensures forall j :: 0 <= j < |blocks| && j != node ==> r[j] == blocks[j]
  {
    var grown := blocks + [b];
    grown[node := grown[node].(attrs := grown[node].attrs[
      "extra_data_list" := RefsV(RefsOf(blocks[node], "extra_data_list") + [|blocks|])])]
  }

  /** Replacing the added block afterwards is adding the replacement. */
  lemma WithExtraDataReplaced(blocks: seq<Block>, node: nat, b: Block, c: Block)
    requires node < |blocks|
    ensures WithExtraData(blocks, node, b)[|blocks| := c] == WithExtraData(blocks, node, c)
  {
  }

  /** A new string extra data block attached to `node`. */
  method AddStringExtraData(store: BlockStore, node: nat, name: string, data: string) returns (id: nat)
    requires node < |store.blocks|
    modifies store
    ensures id == |old(store.blocks)|
    ensures store.blocks == WithExtraData(old(store.blocks), node, StringExtraData(name, data))
  {
    id := store.Create("NiStringExtraData");
    store.Set(id, "name", StrV(name));
    store.Set(id, "string_data", StrV(data));
    store.AppendRef(node, "extra_data_list", id);
  }

  /** The UPB string is exported only when it mentions "BSBoneLOD" or "Bip" (otherwise it is optimizer junk). */
  predicate UpbWanted(upb: string) {
    upb != [] && (Contains(upb, "BSBoneLOD") || Contains(upb, "Bip"))
  }

  /** `export_ni_string_extra_data_upb(n_node, b_obj)`. */
  method ExportUpb(store: BlockStore, node: nat, upb: string)
    requires node < |store.blocks|
    modifies store
    ensures UpbWanted(upb) ==> store.blocks == WithExtraData(old(store.blocks), node, StringExtraData("UPB", upb))
    ensures !UpbWanted(upb) ==> store.blocks == old(store.blocks)
  {
    if upb != [] && (Contains(upb, "BSBoneLOD") || Contains(upb, "Bip")) {
      var _ := AddStringExtraData(store, node, "UPB", upb);
    }
  }

  /** `export_ni_string_extra_data_prn(n_root, b_root_obj)`: the weapon location, for Bethesda games only. */
  method ExportPrn(store: BlockStore, root: nat, isBs: bool, location: string)
    requires root < |store.blocks|
    modifies store
    ensures isBs && location != [] ==> store.blocks == WithExtraData(old(store.blocks), root, StringExtraData("Prn", location))
    ensures !(isBs && location != []) ==> store.blocks == old(store.blocks)
  {
    if isBs && location != [] {
      var _ := AddStringExtraData(store, root, "Prn", location);
    }
  }

  // ---------------------------------------------------------------- BSX flags

  /** The scene objects the collision and animation tests look at. */
  datatype SceneObject = SceneObject(hasRigidBody: bool, parent: Option<nat>, motionSystem: string, hasAnimationData: bool)

  /** Every parent is an object of the scene. */
  predicate ParentsInScene(objects: seq<SceneObject>) {
    forall i :: 0 <= i < |objects| && objects[i].parent.Some? ==> objects[i].parent.value < |objects|
  }

  /** A rigid body whose parent is not one: a collider. Reading the parent of a parentless rigid body fails. */
  function ColliderTest(objects: seq<SceneObject>, i: nat): (r: Result<bool>)
    requires ParentsInScene(objects) && i < |objects|
  {
    var o := objects[i];
    if !o.hasRigidBody then Ok(false)
    else if o.parent.None? then Err(AttributeError("rigid_body"))
    else Ok(!objects[o.parent.value].hasRigidBody)
  }

  /** `has_collision()`: the colliders in scene order, or the failure at the first parentless rigid body. */
  function Colliders(objects: seq<SceneObject>, n: nat): (r: Result<seq<nat>>)
    requires ParentsInScene(objects) && n <= |objects|
    ensures r.Err? <==> exists i :: 0 <= i < n && ColliderTest(objects, i).Err?
    ensures r.Ok? ==> forall i :: i in r.value <==> 0 <= i < n && ColliderTest(objects, i) == Ok(true)
    ensures r.Ok? ==> forall a, b :: 0 <= a < b < |r.value| ==> r.value[a] < r.value[b]
  {
    if n == 0 then Ok([])
    else
      var before := Colliders(objects, n - 1);
      if before.Err? then before
      else
        assert forall k :: 0 <= k < |before.value| ==> before.value[k] in before.value;
        match ColliderTest(objects, n - 1)
        case Err(e) => Err(e)
        case Ok(c) => if c then Ok(before.value + [n - 1]) else before
  }

  /** A rigid body whose motion system is neither invalid nor fixed. */
  predicate IsDynamic(o: SceneObject) {
    o.hasRigidBody && !Contains(o.motionSystem, "INVALID") && !Contains(o.motionSystem, "FIXED")
  }

  /** `has_dynamic_collision()`: the dynamic rigid bodies in scene order. */
  function DynamicColliders(objects: seq<SceneObject>): (r: seq<nat>)
    ensures forall i :: i in r <==> 0 <= i < |objects| && IsDynamic(objects[i])
    ensures forall a, b :: 0 <= a < b < |r| ==> r[a] < r[b]
  {
    if objects == [] then []
    else
      var front := objects[..|objects| - 1];
      assert forall i :: 0 <= i < |front| ==> front[i] == objects[i];
      var r0 := DynamicColliders(front);
      assert forall k :: 0 <= k < |r0| ==> r0[k] in r0;
      r0 + (if IsDynamic(objects[|objects| - 1]) then [|objects| - 1] else [])
  }

  /** `has_collision()` as the loop that appends each collider. */
  method HasCollision(objects: seq<SceneObject>) returns (r: Result<seq<nat>>)
    requires ParentsInScene(objects)
    ensures r == Colliders(objects, |objects|)
  {
    var found: seq<nat> := [];
    for i := 0 to |objects|
      invariant Colliders(objects, i) == Ok(found)
    {
      var o := objects[i];
      if o.hasRigidBody {
        if o.parent.None? {
          r := Err(AttributeError("rigid_body"));
          assert Colliders(objects, i + 1) == r;
          CollidersStayFailed(objects, i + 1, |objects|);
          return;
        }
        if !objects[o.parent.value].hasRigidBody {
          found := found + [i];
        }
      }
    }
    r := Ok(found);
  }

  /** Once the scan has failed, it stays failed with the same error. */
  lemma {:induction false} CollidersStayFailed(objects: seq<SceneObject>, m: nat, n: nat)
    requires ParentsInScene(objects) && m <= n <= |objects| && Colliders(objects, m).Err?
    ensures Colliders(objects, n) == Colliders(objects, m)
    decreases n - m
  {
    if m < n {
      CollidersStayFailed(objects, m, n - 1);
    }
  }

  /** `has_dynamic_collision()` as the loop that appends each dynamic rigid body. */
  method HasDynamicCollision(objects: seq<SceneObject>) returns (r: seq<nat>)
    ensures r == DynamicColliders(objects)
  {
    r := [];
    for i := 0 to |objects|
      invariant r == DynamicColliders(objects[..i])
    {
      assert objects[..i + 1][..i] == objects[..i];
      if IsDynamic(objects[i]) {
        r := r + [i];
      }
    }
    assert objects[..|objects|] == objects;
  }

  /** Some object of the scene has animation data. */
  predicate Animated(objects: seq<SceneObject>) {
    exists i :: 0 <= i < |objects| && objects[i].hasAnimationData
  }

  /** `has_animation()`: whether some object has animation data. */
  method HasAnimation(objects: seq<SceneObject>) returns (b: bool)
    ensures b == Animated(objects)
  {
    for i := 0 to |objects|
      invariant forall j :: 0 <= j < i ==> !objects[j].hasAnimationData
    {
      if objects[i].hasAnimationData {
        return true;
      }
    }
    return false;
  }

  /** `bit` was set in `r` when `on` and cleared otherwise, and every other bit of `x` was kept. */
  ghost predicate Updated(x: bv32, r: bv32, bit: bv32, on: bool) {
    r & bit == (if on then bit else 0) && r & !bit == x & !bit
  }

  /** `x |= bit` when `on`, `x &= ~bit` otherwise. */
  method SetOrClear(x: bv32, bit: bv32, on: bool) returns (r: bv32)
    ensures r & bit == (if on then bit else 0)
    ensures r & !bit == x & !bit
  {
    if on {
      r := x | bit;
    } else {
      r := x & !bit;
    }
  }

  /** The four updates of the BSX flags in their order: animated, Havok, complex, dynamic. */
  ghost predicate BsxUpdates(stored: bv32, f1: bv32, f2: bv32, f3: bv32, f4: bv32,
                             animated: bool, havok: bool, complex: bool, dynamic: bool) {
    && Updated(stored, f1, 0x1, animated) && Updated(f1, f2, 0x2, havok)
    && Updated(f2, f3, 0x4, complex) && Updated(f3, f4, 0x20, dynamic)
  }

  /** The flags hold the four decided bits and the stored value of every other bit. */
  ghost predicate BsxDecided(f: bv32, stored: bv32, animated: bool, havok: bool, complex: bool, dynamic: bool) {
    && f & 0x1 == (if animated then 0x1 else 0)
    && f & 0x2 == (if havok then 0x2 else 0)
    && f & 0x4 == (if complex then 0x4 else 0)
    && f & 0x20 == (if dynamic then 0x20 else 0)
    && f & !0x27 == stored & !0x27
  }

  /** The later updates keep the animated bit. */
  lemma AnimatedBitKept(stored: bv32, f1: bv32, f2: bv32, f3: bv32, f4: bv32,
                        animated: bool, havok: bool, complex: bool, dynamic: bool)
    requires BsxUpdates(stored, f1, f2, f3, f4, animated, havok, complex, dynamic)
    ensures f4 & 0x1 == (if animated then 0x1 else 0)
  {
  }

  /** The later updates keep the Havok bit. */
  lemma HavokBitKept(stored: bv32, f1: bv32, f2: bv32, f3: bv32, f4: bv32,
                     animated: bool, havok: bool, complex: bool, dynamic: bool)
    requires BsxUpdates(stored, f1, f2, f3, f4, animated, havok, complex, dynamic)
    ensures f4 & 0x2 == (if havok then 0x2 else 0)
  {
  }

  /** The dynamic update keeps the complex bit. */
  lemma ComplexBitKept(stored: bv32, f1: bv32, f2: bv32, f3: bv32, f4: bv32,
                       animated: bool, havok: bool, complex: bool, dynamic: bool)
    requires BsxUpdates(stored, f1, f2, f3, f4, animated, havok, complex, dynamic)
    ensures f4 & 0x4 == (if complex then 0x4 else 0)
  {
  }

  /** No update touches a bit outside the four. */
  lemma OtherBitsKept(stored: bv32, f1: bv32, f2: bv32, f3: bv32, f4: bv32,
                      animated: bool, havok: bool, complex: bool, dynamic: bool)
    requires BsxUpdates(stored, f1, f2, f3, f4, animated, havok, complex, dynamic)
    ensures f4 & !0x27 == stored & !0x27
  {
  }

  /** The four updates decide the flags. */
  lemma BsxUpdatesDecide(stored: bv32, f1: bv32, f2: bv32, f3: bv32, f4: bv32,
                         animated: bool, havok: bool, complex: bool, dynamic: bool)
    requires BsxUpdates(stored, f1, f2, f3, f4, animated, havok, complex, dynamic)
    ensures BsxDecided(f4, stored, animated, havok, complex, dynamic)
  {
    AnimatedBitKept(stored, f1, f2, f3, f4, animated, havok, complex, dynamic);
    HavokBitKept(stored, f1, f2, f3, f4, animated, havok, complex, dynamic);
    ComplexBitKept(stored, f1, f2, f3, f4, animated, havok, complex, dynamic);
    OtherBitsKept(stored, f1, f2, f3, f4, animated, havok, complex, dynamic);
  }

  /** The decided bits and the kept bits leave exactly one value for the flags. */
  lemma BsxDecidedUnique(f: bv32, g: bv32, stored: bv32, animated: bool, havok: bool, complex: bool, dynamic: bool)
    requires BsxDecided(f, stored, animated, havok, complex, dynamic)
    requires BsxDecided(g, stored, animated, havok, complex, dynamic)
    ensures f == g
  {
  }

  /** The animated update, which comes first. */
  method SetAnimatedBit(stored: bv32, animated: bool) returns (f1: bv32)
    ensures Updated(stored, f1, 0x1, animated)
  {
    f1 := SetOrClear(stored, 0x1, animated);
  }

  /** The Havok, complex and dynamic updates that follow the animated one. */
  method FinishBsxFlags(stored: bv32, f1: bv32, animated: bool, havok: bool, complex: bool, dynamic: bool)
    returns (f4: bv32)
    requires Updated(stored, f1, 0x1, animated)
    ensures BsxDecided(f4, stored, animated, havok, complex, dynamic)
  {
    var f2 := SetOrClear(f1, 0x2, havok);
    var f3 := SetOrClear(f2, 0x4, complex);
    f4 := SetOrClear(f3, 0x20, dynamic);
    BsxUpdatesDecide(stored, f1, f2, f3, f4, animated, havok, complex, dynamic);
  }

  /** The BSX block with its name and its flags. */
  function BsxBlock(flags: bv32): Block {
    Block("BSXFlags", map["name" := StrV("BSX"), "integer_data" := U32V(flags)])
  }

  /** A BSX block holding `f`, created and attached to the extra data of `root`. */
  method AddBsxBlock(store: BlockStore, root: nat, f: bv32) returns (id: nat)
    requires root < |store.blocks|
    modifies store
    ensures id == |old(store.blocks)| && id < |store.blocks| && store.blocks[id] == BsxBlock(f)
    ensures store.blocks == WithExtraData(old(store.blocks), root, BsxBlock(f))
  {
    id := store.Create("BSXFlags");
    store.Set(id, "name", StrV("BSX"));
    store.AppendRef(root, "extra_data_list", id);
    store.Set(id, "integer_data", U32V(f));
  }

  /** The Havok bit: the scan finds a collider. */
  predicate Havok(objects: seq<SceneObject>)
    requires ParentsInScene(objects)
  {
    var c := Colliders(objects, |objects|);
    c.Ok? && c.value != []
  }

  /** The dynamic bit: some rigid body is dynamic. */
  predicate Dynamic(objects: seq<SceneObject>) {
    DynamicColliders(objects) != []
  }

  /** The complex bit: some rigid body is dynamic and the scan finds more than one collider. */
  predicate Complex(objects: seq<SceneObject>)
    requires ParentsInScene(objects)
  {
    var c := Colliders(objects, |objects|);
    Dynamic(objects) && c.Ok? && |c.value| > 1
  }

  /**
   * What the BSX export ends with: the collider scan's error and the flags
   * with only the animated bit updated, or success and the flags with all
   * four bits decided.
   */
  ghost predicate BsxOutcome(stored: bv32, objects: seq<SceneObject>, r: Result<()>, flags: bv32)
    requires ParentsInScene(objects)
  {
    var c := Colliders(objects, |objects|);
    if c.Err? then r == Err(c.error) && Updated(stored, flags, 0x1, Animated(objects))
    else r == Ok(()) && BsxDecided(flags, stored, Animated(objects), Havok(objects), Complex(objects), Dynamic(objects))
  }

  /**
   * The flags `export_bs_x_flags` leaves in the BSX block: the stored
   * flags with the animated bit updated and then, unless the collider
   * scan fails, the Havok, complex and dynamic bits. The scans read the
   * scene only, so they are done here before the block is made.
   */
  method BsxFlagsFor(stored: bv32, objects: seq<SceneObject>) returns (r: Result<()>, flags: bv32)
    requires ParentsInScene(objects)
    ensures BsxOutcome(stored, objects, r, flags)
  {
    var animated := HasAnimation(objects);
    flags := SetAnimatedBit(stored, animated);
    var colliders := HasCollision(objects);
    if colliders.Err? {
      return Err(colliders.error), flags;
    }
    var dynamic := HasDynamicCollision(objects);
    var havok, complex := colliders.value != [], dynamic != [] && |colliders.value| > 1;
    assert havok == Havok(objects) && complex == Complex(objects) && (dynamic != []) == Dynamic(objects);
    flags := FinishBsxFlags(stored, flags, animated, havok, complex, dynamic != []);
    r := Ok(());
  }

  /**
   * `export_bs_x_flags(n_root, b_root_obj)`: for a Bethesda game, a BSX
   * block named "BSX" attached to the root, holding the flags of
   * `BsxFlagsFor`; the error of the collider scan, if any, is passed on.
   */
  method ExportBsxFlags(store: BlockStore, root: nat, isBs: bool, stored: bv32, objects: seq<SceneObject>)
    returns (r: Result<()>, flags: bv32)
    requires root < |store.blocks| && ParentsInScene(objects)
    modifies store
    ensures !isBs ==> r == Ok(()) && store.blocks == old(store.blocks)
    ensures isBs ==> BsxOutcome(stored, objects, r, flags)
    ensures isBs ==> store.blocks == WithExtraData(old(store.blocks), root, BsxBlock(flags))
  {
    flags := stored;
    if !isBs {
      return Ok(()), flags;
    }
    r, flags := BsxFlagsFor(stored, objects);
    var _ := AddBsxBlock(store, root, flags);
  }

  // ---------------------------------------------------------------- root properties

  /** The settings of the root object that its properties come from. */
  datatype RootObject = RootObject(upb: string, prnLocation: string, bsxFlags: bv32)

  /**
   * `export_root_node_properties(n_root, b_root_obj)`: for the four games
   * that want them, a vertex-colour property with its defaults and a
   * z-buffer property (registered, not attached); then the UPB and Prn
   * string extra data and the BSX flags. The inventory marker is not part
   * of this model.
   */
  method ExportRootNodeProperties(store: BlockStore, root: nat, settings: SceneSettings, rootObj: RootObject,
                                  objects: seq<SceneObject>) returns (r: Result<()>)
    requires root < |store.blocks| && ParentsInScene(objects)
    modifies store
    ensures settings.isBs ==> (r.Err? <==> Colliders(objects, |objects|).Err?)
    ensures !settings.isBs ==> r == Ok(())
    ensures |old(store.blocks)| <= |store.blocks|
    ensures settings.game !in RootPropertyGames && !UpbWanted(rootObj.upb) && !settings.isBs ==> store.blocks == old(store.blocks)
  {
    if settings.game in RootPropertyGames {
      var _ := ExportVertexColorProperty(store, 1, 0, 1);
      var _ := ExportZBufferProperty(store, settings.game);
    }
    ExportUpb(store, root, rootObj.upb);
    ExportPrn(store, root, settings.isBs, rootObj.prnLocation);
    var flags;
    r, flags := ExportBsxFlags(store, root, settings.isBs, rootObj.bsxFlags, objects);
  }
}
