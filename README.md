# Texture import and property export of the Blender NIF add-on, in Dafny

This project models the texture and property core of the Blender add-on that
imports and exports NetImmerse/Gamebryo NIF files, and proves properties of
that model.

- **Texture loader** (`TextureLoader`, on top of `Strings` and `Paths`): it
  turns a NIF texture source into a host image.
  - An embedded texture is written to disk once per session, under its own
    name or a generated `imageNNNN.dds`. The set of written textures is a
    class attribute shared by every loader, and the image cache and the
    disk belong to the host, so one `TextureLoader` object holds that state
    for the whole session and every node wrapper is given the same one.
  - An external file name is searched across an ordered list of
    directories: the import directory, the user texture directory,
    `cwd/nif`, and directories guessed from "meshes" and "art" in the
    import path. The names tried are first the file name itself and its
    lower-case form. Then come the name with its last four characters
    replaced by each of the extensions `.DDS`, `.dds`, `.PNG`, `.png`,
    `.TGA`, `.tga`, `.BMP`, `.bmp`, `.JPG` and `.jpg`, with the stem both
    as written and in lower case.
  - A loaded image is cached by its basename.
- **Shader node wrapper** (`NodesWrapper`, on top of `ShaderNodes`): it
  builds a material's node tree on import. There is one image-texture node
  per slot, and one named UV-map node per UV layer, shared by all textures
  on that layer.
  - A chain of mix nodes (the diffuse "pass") combines base, decal, detail
    and vertex-colour textures before the diffuse shader.
  - The transparency wiring runs to the material output.
  - An optional offset-and-scale stage goes between every UV-map node and
    its textures.
  - A normal map is routed through the InvertY group into the shader's
    normal input.
- **Texturing property export** (`TexturingProperty`): the exporter builds a
  `NiTexturingProperty` from the used texture slots.
  - It copies each slot's UV set and source into its texture descriptor.
  - It reuses an equal property already in the registry.
  - It maps Blender blend types back to NIF apply modes.
  - It finds the UV layer of an image node from what feeds its vector
    input.
  - It adds the per-game shader-texture extra data.
- **Object property export** (`ObjectProperty`):
  - vertex-colour, z-buffer, wireframe, stencil and specular properties;
  - the UPB and Prn string extra data;
  - the Bethesda BSX flags (animated, Havok, complex, dynamic), decided from
    the scene;
  - all built through the exporter's first-match-or-create block lookup.
- **Texture animation export** (`TextureAnimation`):
  - A `NiTextureTransformController` per animated mapping operation, each
    with its interpolator and float keys. A controller-sequence entry is
    made for each when a sequence is given.
  - The F-curve selection and key groups of a `NiUVController`.
  - The sources of a flip-book `NiFlipController`.

Conventions:

- Blocks live in one registry (`NifBlocks.BlockStore`, a sequence in
  creation order). A block is its class name and its attributes, and a
  reference to a block is its index in the registry.
- The host's node tree (`ShaderNodes.NodeTree`) maps unique node names to
  nodes and keeps a set of links between sockets.
- Errors the add-on raises, or runs into, are modelled as `Err` results
  (`Wrappers.Error`). Examples are the `KeyError` of an unexported object,
  the `AttributeError` of a missing curve, the flip-buffer error and the
  singleton error.
- Warnings are returned as lists of messages.
- Everything the code reads from the file system or the host is a
  parameter (`TextureLoader.Environment` and the `files` and `images` state
  of the loader). So are the scene's game setting, frames per second and
  frame range.

## Model

| member | source | states |
|---|---|---|
| Strings.Lower | io_scene_niftools/modules/nif_import/property/texture/loader.py:142 | `str.lower()` keeps the length and lower-cases each ASCII letter in place |
| Strings.ReplaceChar | io_scene_niftools/modules/nif_import/property/texture/loader.py:129 | `s.replace(a, b)` keeps the length and swaps exactly the occurrences of `a` |
| Strings.FindFrom | io_scene_niftools/modules/nif_import/property/texture/loader.py:142 | the result is -1 or the first occurrence at or after `start` |
| Strings.Find | io_scene_niftools/modules/nif_import/property/texture/loader.py:142 | `str.find` is -1 exactly when the pattern never occurs, otherwise its first occurrence |
| Strings.Contains | io_scene_niftools/modules/nif_export/property/object.py:202 | `pat in s` holds exactly when `pat` occurs somewhere in `s` |
| Strings.NatToString | io_scene_niftools/modules/nif_import/property/nodes_wrapper/__init__.py:74 | `str(n)` is a non-empty string of decimal digits |
| Strings.ParseNatToString | io_scene_niftools/modules/nif_export/property/texture/texture.py:251 | the digits of `str(n)` have value `n` |
| Strings.IntOfNatToString | io_scene_niftools/modules/nif_export/property/texture/texture.py:251 | `int(str(n)) == n` for every non-negative `n` |
| Strings.ParseUnsigned | io_scene_niftools/modules/nif_export/property/texture/texture.py:251 | digits parse exactly when they are non-empty, start and end with a digit and have no doubled underscore |
| Strings.ParseIntPadded | io_scene_niftools/modules/nif_export/property/texture/texture.py:251 | white space around `str(n)` is stripped: `int(" 2 ") == 2` |
| Strings.ParseIntNegative | io_scene_niftools/modules/nif_export/property/texture/texture.py:251 | a minus sign before `str(n)`, with white space around, gives `-n` |
| Strings.GroupedExample | io_scene_niftools/modules/nif_export/property/texture/texture.py:251 | an underscore between digits is ignored: `int("1_0") == 10` |
| Strings.BadGroupingRefused | io_scene_niftools/modules/nif_export/property/texture/texture.py:251 | `"1__0"`, `"_1"` and `"1_"` do not parse |
| Strings.NatToStringInjective | io_scene_niftools/modules/nif_import/property/nodes_wrapper/__init__.py:74 | distinct numbers print differently |
| Strings.ZeroPad | io_scene_niftools/modules/nif_import/property/texture/loader.py:113 | zero-padding a digit string keeps it a digit string |
| Strings.ParseZeroPad | io_scene_niftools/modules/nif_import/property/texture/loader.py:113 | zero-padding to a width keeps the value: `int(f"{n:0>w}") == n` |
| Paths.NormalizeSeps | io_scene_niftools/modules/nif_import/property/texture/loader.py:129-130 | every `\` and `/` becomes the OS separator, every other character stays, and the length is preserved |
| Paths.NormalizeSepsIdempotent | io_scene_niftools/modules/nif_import/property/texture/loader.py:159-160 | normalising a second time changes nothing |
| Paths.Prefix | io_scene_niftools/modules/nif_import/property/texture/loader.py:171 | `s[:n]` is a prefix of `s` of length `min(n, len(s))` |
| Paths.Suffix | io_scene_niftools/modules/nif_import/property/texture/loader.py:171 | `s[-n:]` is the suffix of `s` of length `min(n, len(s))` |
| Paths.RFind | io_scene_niftools/modules/nif_import/property/texture/loader.py:59 | the last index holding the separator, or -1 when there is none |
| Paths.Basename | io_scene_niftools/modules/nif_import/property/texture/loader.py:59 | `os.path.basename` is the longest suffix of the path without a separator: the whole path, or what follows a separator |
| Paths.Join | io_scene_niftools/modules/nif_import/property/texture/loader.py:175 | `os.path.join(a, b)` is `b` when `b` is absolute; otherwise it starts with `a` and ends with `b`, with one separator added exactly when `a` is non-empty and does not end with one |
| Paths.JoinInjective | io_scene_niftools/modules/nif_import/property/texture/loader.py:113-114 | two names that start with the same character and are joined to the same directory give the same path only when they are equal |
| TextureLoader.GuessedDir | io_scene_niftools/modules/nif_import/property/texture/loader.py:142-149 | no guessed directory exactly when the marker never occurs in the lower-cased import path; otherwise the path cut at its first occurrence plus the replacement |
| TextureLoader.SearchPathList | io_scene_niftools/modules/nif_import/property/texture/loader.py:132-149 | the directories in order: import directory, user texture directory if set, `cwd/nif`, then the "meshes" and "art" guesses |
| TextureLoader.BuildSearchPathList | io_scene_niftools/modules/nif_import/property/texture/loader.py:132-149 | the appending code builds exactly that list |
| TextureLoader.VariantsFor | io_scene_niftools/modules/nif_import/property/texture/loader.py:162-166 | two names per extension, and a name is listed exactly when it is the stem or the lower-cased stem plus one of the extensions |
| TextureLoader.Dedup | io_scene_niftools/modules/nif_import/property/texture/loader.py:168 | the result lists each element of the input exactly once (one enumeration of `set(texfns)`) |
| TextureLoader.DefaultOrder | io_scene_niftools/modules/nif_import/property/texture/loader.py:168 | the order in which the loader tries the variants lists each variant exactly once |
| TextureLoader.TexturePath | io_scene_niftools/modules/nif_import/property/texture/loader.py:171-175 | the probed path is the candidate joined to the directory, or to the directory without its last nine characters when both carry the `textures` component; a relative candidate ends the path |
| TextureLoader.TexturesNotDoubled | io_scene_niftools/modules/nif_import/property/texture/loader.py:171-173 | for a directory ending in `<sep>textures` and a candidate starting with `textures<sep>`, the candidate is joined to the directory's parent |
| TextureLoader.PrepareDir | io_scene_niftools/modules/nif_import/property/texture/loader.py:153-160 | a directory is relative exactly when it starts with `//`; that prefix is dropped and the separators are normalised |
| TextureLoader.FirstInDirMeaning | io_scene_niftools/modules/nif_import/property/texture/loader.py:169-186 | nothing is found in a directory exactly when no probed candidate exists; otherwise the hit is the first existing candidate |
| TextureLoader.FirstExistingNone | io_scene_niftools/modules/nif_import/property/texture/loader.py:152-189 | the search finds nothing exactly when no directory yields a hit |
| TextureLoader.FirstExistingSome | io_scene_niftools/modules/nif_import/property/texture/loader.py:152-186 | a hit comes from the first directory that yields one (directories outside, candidates inside) |
| TextureLoader.FindTexture | io_scene_niftools/modules/nif_import/property/texture/loader.py:129-191 | the nested loops with early return pick the first existing path, or fall back to the file name |
| TextureLoader.ImageNamesDistinct | io_scene_niftools/modules/nif_import/property/texture/loader.py:113 | distinct counters give distinct `imageNNNN.dds` names |
| TextureLoader.FirstFreeFrom | io_scene_niftools/modules/nif_import/property/texture/loader.py:111-117 | the counter is the lowest one at or after `k` whose name does not exist, and stops at 9999 when all exist |
| TextureLoader.GenerateImageName | io_scene_niftools/modules/nif_import/property/texture/loader.py:109-118 | the while loop returns the path of the lowest free name, and `image9999.dds` when every name exists |
| TextureLoader.LoadedImage | io_scene_niftools/modules/nif_import/property/texture/loader.py:57-69 | a cached basename gives the cached image; an image not yet cached is named by the basename, has the requested path and is a 1x1 placeholder exactly when the load fails |
| TextureLoader.CacheAfterLoad | io_scene_niftools/modules/nif_import/property/texture/loader.py:59-68 | a cache hit leaves the cache alone; a miss adds exactly the new image under its basename |
| TextureLoader.ExternalImage | io_scene_niftools/modules/nif_import/property/texture/loader.py:120-191 | an external lookup gives the cached image when the resolved path's basename is known, and otherwise a new image at the resolved path, a placeholder exactly when it cannot be loaded |
| TextureLoader.FilesAfterStore | io_scene_niftools/modules/nif_import/property/texture/loader.py:95-104 | the files on disk gain at most the embedded path, and gain it when it was not written before |
| TextureLoader.StateAfterImport | io_scene_niftools/modules/nif_import/property/texture/loader.py:71-106 | no source changes nothing; the embedded case remembers the path, writes the file if new and caches its image; every other source only caches the image of the resolved path |
| TextureLoader.ImportedImage | io_scene_niftools/modules/nif_import/property/texture/loader.py:71-106 | no image exactly when there is no source; the embedded case loads the written path; every other source gives the external lookup's image |
| TextureLoader.WrittenByImport | io_scene_niftools/modules/nif_import/property/texture/loader.py:95-104 | an import writes at most one file, and writes one exactly in the embedded case with a path not written before |
| TextureLoader.ImportTwice | io_scene_niftools/modules/nif_import/property/texture/loader.py:71-106 | importing the same source again returns the same image, changes no state and writes nothing, except for an embedded texture without a name |
| TextureLoader.UnnamedEmbeddedFresh | io_scene_niftools/modules/nif_import/property/texture/loader.py:88-92 | a second embedded texture without a name goes to another file than the first, while a generated name is free |
| TextureLoader.NextFreeDiffers | io_scene_niftools/modules/nif_import/property/texture/loader.py:109-118 | once the first free generated name is taken, the next search returns a different path |
| TextureLoader.TextureLoader.constructor | io_scene_niftools/modules/nif_import/property/texture/loader.py:53-54 | the session's loader state starts with no texture written, and with the host's images and files |
| TextureLoader.TextureLoader.LoadImage | io_scene_niftools/modules/nif_import/property/texture/loader.py:57-69 | returns the cached or newly loaded image and updates the cache as above |
| TextureLoader.TextureLoader.EmbeddedTexturePath | io_scene_niftools/modules/nif_import/property/texture/loader.py:88-92 | the texture's own name next to the NIF file, or a generated name when it has none |
| TextureLoader.TextureLoader.WriteTexture | io_scene_niftools/modules/nif_import/property/texture/loader.py:95-104 | writing adds the path to the files on disk, to the write log and to `external_textures` |
| TextureLoader.TextureLoader.StoreAndLoad | io_scene_niftools/modules/nif_import/property/texture/loader.py:94-106 | a path is written only when it is not in `external_textures`, and is in it afterwards |
| TextureLoader.TextureLoader.WriteAndLoad | io_scene_niftools/modules/nif_import/property/texture/loader.py:95-106 | a path not written before is written once and then loaded |
| TextureLoader.TextureLoader.ImportEmbeddedTextureSource | io_scene_niftools/modules/nif_import/property/texture/loader.py:86-106 | each embedded path is written at most once per run and is loaded through the cache |
| TextureLoader.TextureLoader.ImportExternalSource | io_scene_niftools/modules/nif_import/property/texture/loader.py:120-191 | the image of the first existing candidate, or of the bare name, and the cache after loading that path |
| TextureLoader.TextureLoader.ImportNonEmbedded | io_scene_niftools/modules/nif_import/property/texture/loader.py:76-84 | no source gives no image and leaves the cache alone; any other source goes to the external search and caches its result |
| TextureLoader.TextureLoader.ImportTextureSource | io_scene_niftools/modules/nif_import/property/texture/loader.py:71-84 | no source gives no image; an internal NiSourceTexture with embedding enabled is written if new and loaded; otherwise the external search runs and nothing is written; the image, the new state and the written files are those of the import specification |
| ShaderNodes.UniqueName | io_scene_niftools/modules/nif_import/property/nodes_wrapper/__init__.py:86-87 | the name a node receives is free, extends the asked-for name, is that name itself when it was free, and otherwise is `name.NNN` with the least free suffix NNN >= 1 |
| ShaderNodes.SuffixedInjective | io_scene_niftools/modules/nif_import/property/nodes_wrapper/__init__.py:86-87 | different suffix numbers give different disambiguated names |
| ShaderNodes.NodeTree.constructor | io_scene_niftools/modules/nif_import/property/nodes_wrapper/__init__.py:159 | a tree whose every link joins two of its nodes |
| ShaderNodes.NodeTree.NewNode | io_scene_niftools/modules/nif_import/property/nodes_wrapper/__init__.py:86-87 | `nodes.new` then naming: exactly one node added, under a name not used before, every other node kept |
| ShaderNodes.NodeTree.SetNode | io_scene_niftools/modules/nif_import/property/nodes_wrapper/__init__.py:88 | setting a node's attributes changes that node only |
| ShaderNodes.NodeTree.NewLink | io_scene_niftools/modules/nif_import/property/nodes_wrapper/__init__.py:91 | `links.new` adds exactly that link, between two nodes of the tree |
| ShaderNodes.NodeTree.RemoveLink | io_scene_niftools/modules/nif_import/property/nodes_wrapper/__init__.py:147 | `links.remove` takes away exactly that link |
| ShaderNodes.NodeTree.Clear | io_scene_niftools/modules/nif_import/property/nodes_wrapper/__init__.py:161-162 | removing every node leaves no node and no link |
| NodesWrapper.UvNodeName | io_scene_niftools/modules/nif_import/property/nodes_wrapper/__init__.py:72-74 | the UV-map node name of a layer starts with `TexCoordIndex_` and has the layer number after it |
| NodesWrapper.UvNodeNameInjective | io_scene_niftools/modules/nif_import/property/nodes_wrapper/__init__.py:72-74 | different UV layers get different node names, so a layer's node is found by name |
| NodesWrapper.BlendTypesOfKnownModesDistinct | io_scene_niftools/modules/nif_import/property/nodes_wrapper/__init__.py:431-446 | the five known apply modes map to five different blend types |
| NodesWrapper.BlendTypeMix | io_scene_niftools/modules/nif_import/property/nodes_wrapper/__init__.py:431-446 | the blend type is "MIX" exactly for modulate and for every unknown apply mode |
| NodesWrapper.HandlerOfKey | io_scene_niftools/modules/nif_import/property/nodes_wrapper/__init__.py:268-429 | a slot key selects the handler with that key, and no handler exactly when no handler has it |
| NodesWrapper.FindHandler | io_scene_niftools/modules/nif_import/property/nodes_wrapper/__init__.py:239 | `getattr(self, name, None)` finds the handler called `name`, and nothing exactly when no handler is called so |
| NodesWrapper.FindHandlerName | io_scene_niftools/modules/nif_import/property/nodes_wrapper/__init__.py:238-239 | every handler is found under its own `link_<slot>_node` name |
| NodesWrapper.DispatchBySlotKey | io_scene_niftools/modules/nif_import/property/nodes_wrapper/__init__.py:237-239 | a slot name whose lower-cased, underscored spelling is a handler's key dispatches to that handler |
| NodesWrapper.HandlerNameForIgnoresCase | io_scene_niftools/modules/nif_import/property/nodes_wrapper/__init__.py:237 | dispatch does not depend on the case of the slot name |
| NodesWrapper.MixerFor | io_scene_niftools/modules/nif_import/property/nodes_wrapper/__init__.py:181-191 | the pass mixer overlays detail and reflection textures at full factor, multiplies vertex colours at full factor, and is a default mixer for every other type |
| NodesWrapper.HandlerKeepsPass | io_scene_niftools/modules/nif_import/property/nodes_wrapper/__init__.py:268-429 | no handler removes a node or a link or drops an established pass; a pass handler on an existing pass adds a new mixer fed by the old pass and the texture, and on no pass makes the texture the pass |
| NodesWrapper.CountUvNodes | io_scene_niftools/modules/nif_import/property/nodes_wrapper/__init__.py:96-105 | layers 0 .. count-1 have UV-map nodes under their names and layer `count` has none |
| NodesWrapper.UvChainExtend | io_scene_niftools/modules/nif_import/property/nodes_wrapper/__init__.py:109 | a run of layer steps followed by the next layer's step is a run one layer longer |
| NodesWrapper.UvChainNodes | io_scene_niftools/modules/nif_import/property/nodes_wrapper/__init__.py:109-153 | across the whole pass every existing node keeps its name and settings, except that an image texture may be set to clip, and only when both axes clamp |
| NodesWrapper.UvChainKeysGrow | io_scene_niftools/modules/nif_import/property/nodes_wrapper/__init__.py:109-153 | the pass never removes a node |
| NodesWrapper.UvChainKeepsLink | io_scene_niftools/modules/nif_import/property/nodes_wrapper/__init__.py:141-153 | a link that no layer reroutes survives the pass |
| NodesWrapper.UvChainNeverReadds | io_scene_niftools/modules/nif_import/property/nodes_wrapper/__init__.py:141-153 | a link between old nodes that was removed is never added back by a later layer |
| NodesWrapper.UvChainKeepsClip | io_scene_niftools/modules/nif_import/property/nodes_wrapper/__init__.py:151-152 | a texture set to clip stays clipped for the rest of the pass |
| NodesWrapper.UvChainKeepsOtherLinks | io_scene_niftools/modules/nif_import/property/nodes_wrapper/__init__.py:141-153 | every link except those from a UV-map node's first output into an image texture survives the pass |
| NodesWrapper.UvChainReroutes | io_scene_niftools/modules/nif_import/property/nodes_wrapper/__init__.py:141-152 | every link from a layer's UV-map node into an image texture is gone at the end, a link from that layer's combine node into the same socket is there, and the texture clips when both axes clamp |
| NodesWrapper.UvChainReachesStep | io_scene_niftools/modules/nif_import/property/nodes_wrapper/__init__.py:109-153 | a link out of a layer's UV-map node is untouched by the layers before it |
| NodesWrapper.UvChainKeepsRetargeted | io_scene_niftools/modules/nif_import/property/nodes_wrapper/__init__.py:149 | the link a layer's combine node receives survives all later layers |
| NodesWrapper.OffsetAndScaleLayers | io_scene_niftools/modules/nif_import/property/nodes_wrapper/__init__.py:109-153 | the layer loop takes the tree through one layer step per UV layer, in layer order, keeping every node name |
| NodesWrapper.ProcessUvNode | io_scene_niftools/modules/nif_import/property/nodes_wrapper/__init__.py:110-153 | one layer step: four fresh nodes, the relinked textures, and the UV-map node feeding the split node |
| NodesWrapper.AddUvTransform | io_scene_niftools/modules/nif_import/property/nodes_wrapper/__init__.py:111-138 | a layer's split, combine and x/y multiply-add nodes under fresh names (the preferred ones when free), scale and offset on inputs 1 and 2, clamping per axis only when not both axes clamp, and the links split -> math -> combine |
| NodesWrapper.AddSplitCombine | io_scene_niftools/modules/nif_import/property/nodes_wrapper/__init__.py:111-116 | a separate and a combine node, each labelled with its own fresh name, no link changed |
| NodesWrapper.AddAxes | io_scene_niftools/modules/nif_import/property/nodes_wrapper/__init__.py:118-138 | the x and y math nodes, with the x-axis and y-axis scale, offset and clamp, linked from split outputs 0 and 1 into combine inputs 0 and 1 |
| NodesWrapper.AddAxis | io_scene_niftools/modules/nif_import/property/nodes_wrapper/__init__.py:118-128 | one multiply-add node under a fresh name, fed by one split output and feeding one combine input |
| NodesWrapper.AddLabelled | io_scene_niftools/modules/nif_import/property/nodes_wrapper/__init__.py:111-113 | a new node under a fresh name derived from the asked-for one, labelled with that name |
| NodesWrapper.AddMath | io_scene_niftools/modules/nif_import/property/nodes_wrapper/__init__.py:118-126 | a new multiply-add math node with the given scale, offset and clamp |
| NodesWrapper.RerouteUvLinks | io_scene_niftools/modules/nif_import/property/nodes_wrapper/__init__.py:141-152 | the links from the UV-map node's first output into image textures are replaced by links from the combine node into the same sockets, and exactly those textures clip when asked |
| NodesWrapper.RerouteIfTexture | io_scene_niftools/modules/nif_import/property/nodes_wrapper/__init__.py:143-152 | one iteration moves the link exactly when it feeds an image texture and keeps the loop's invariant |
| NodesWrapper.RerouteLink | io_scene_niftools/modules/nif_import/property/nodes_wrapper/__init__.py:145-152 | the link is removed, its replacement from the combine node added, and its texture clipped when asked |
| NodesWrapper.ResetTree | io_scene_niftools/modules/nif_import/property/nodes_wrapper/__init__.py:161-169 | the tree holds exactly a material output and a diffuse shader under their default names, and no link |
| NodesWrapper.AddPassMixer | io_scene_niftools/modules/nif_import/property/nodes_wrapper/__init__.py:181-195 | one new mixer for the texture type, fed by the pass on input 1, the texture colour on input 2 and, for a decal, the texture alpha on the factor |
| NodesWrapper.LabelTexture | io_scene_niftools/modules/nif_import/property/nodes_wrapper/__init__.py:268-429 | the texture node gets its slot's label, or for the environment slot the blend type "ADD", and nothing else changes |
| NodesWrapper.LinkNormalMap | io_scene_niftools/modules/nif_import/property/nodes_wrapper/__init__.py:347-360 | an InvertY group node fed by the texture colour drives the diffuse shader's normal input, directly for model-space normals and through a new normal-map node otherwise |
| NodesWrapper.AddAlphaShaders | io_scene_niftools/modules/nif_import/property/nodes_wrapper/__init__.py:214-215 | a transparent shader and a mix shader under two different fresh names, no link changed |
| NodesWrapper.LinkAlphaMixer | io_scene_niftools/modules/nif_import/property/nodes_wrapper/__init__.py:229-231 | the transparent shader into mix input 1, the diffuse shader into mix input 2, the mix into the output |
| NodesWrapper.Material.constructor | io_scene_niftools/modules/nif_import/property/nodes_wrapper/__init__.py:157-159 | a material with its blend method, model-space-normals setting and node tree, culling and nodes off |
| NodesWrapper.NodesWrapper.constructor | io_scene_niftools/modules/nif_import/property/nodes_wrapper/__init__.py:61-70 | a wrapper with its texture loader and no material, tree, output, shader, pass, base texture or vertex colours |
| NodesWrapper.NodesWrapper.SetMaterial | io_scene_niftools/modules/nif_import/property/nodes_wrapper/__init__.py:64 | the wrapper's material is the one given |
| NodesWrapper.NodesWrapper.ClearDefaultNodes | io_scene_niftools/modules/nif_import/property/nodes_wrapper/__init__.py:156-175 | culling and nodes on, the material's tree emptied and given a fresh output and diffuse shader which the wrapper remembers, no pass and no base texture |
| NodesWrapper.NodesWrapper.SetUvMap | io_scene_niftools/modules/nif_import/property/nodes_wrapper/__init__.py:76-91 | reflective: a new texture-coordinate node whose reflection output feeds the texture; otherwise the layer's UV-map node is reused when present, created reading `UV<i>` when not, and feeds the texture |
| NodesWrapper.NodesWrapper.GlobalUvOffsetScale | io_scene_niftools/modules/nif_import/property/nodes_wrapper/__init__.py:93-154 | the consecutive UV-map nodes from layer 0 are found and each gets its offset-and-scale step in layer order, the run's properties being the `UvChain*` lemmas |
| NodesWrapper.NodesWrapper.ConnectToPass | io_scene_niftools/modules/nif_import/property/nodes_wrapper/__init__.py:177-196 | without a pass the texture itself and no change; with one, the result is a single new mixer fed by the pass and the texture |
| NodesWrapper.NodesWrapper.ConnectVertexColorsToPass | io_scene_niftools/modules/nif_import/property/nodes_wrapper/__init__.py:198-202 | a new vertex-colour node reading "RGBA", multiplied into the pass (or become the pass) |
| NodesWrapper.NodesWrapper.ConnectToOutput | io_scene_niftools/modules/nif_import/property/nodes_wrapper/__init__.py:204-231 | the optional vertex-colour step, then pass into shader, and for an opaque material shader into output, otherwise the transparency mix into output |
| NodesWrapper.NodesWrapper.WireOutput | io_scene_niftools/modules/nif_import/property/nodes_wrapper/__init__.py:208-231 | the pass into the shader when there is one; opaque: the shader into the output; otherwise the transparency part |
| NodesWrapper.NodesWrapper.WireAlpha | io_scene_niftools/modules/nif_import/property/nodes_wrapper/__init__.py:214-231 | a transparent and a mix shader, the mix factor wired from the alpha sources, the mix into the output |
| NodesWrapper.NodesWrapper.WireAlphaFactor | io_scene_niftools/modules/nif_import/property/nodes_wrapper/__init__.py:217-227 | the factor is the product of base texture and vertex alpha through a new multiply mixer when both exist, else whichever exists, else left unlinked |
| NodesWrapper.NodesWrapper.CreateTextureSlot | io_scene_niftools/modules/nif_import/property/nodes_wrapper/__init__.py:246-266 | the texture source is imported through the shared loader, whose image, new state and written files are those of the import specification; a new image node shows that image with "Smart" interpolation, and the UV-map node of the descriptor's UV set (0 for a bare name) feeds it |
| NodesWrapper.NodesWrapper.ApplyHandler | io_scene_niftools/modules/nif_import/property/nodes_wrapper/__init__.py:268-429 | each `link_<slot>_node` handler: label, then base/decal/detail into the pass (base also becomes the diffuse texture), normal through the InvertY group into the shader's normal input, the rest only labelled; the normal handler raises AttributeError at the colour-space line exactly when the texture node has no image, with only the label set |
| NodesWrapper.NodesWrapper.CreateAndLink | io_scene_niftools/modules/nif_import/property/nodes_wrapper/__init__.py:235-244 | an unknown slot changes nothing and imports nothing; a known one imports the source as the import specification says, creates the texture slot showing that image and applies its handler to it; it fails with AttributeError exactly for the normal slot when the descriptor has no source |
| TexturingProperty.ApplyModeOfBlendType | io_scene_niftools/modules/nif_export/property/texture/texture.py:228-237 | LIGHTEN gives HILIGHT, MULTIPLY gives HILIGHT2, and every other blend type (MIX included) gives MODULATE |
| TexturingProperty.ApplyModeRoundTrip | io_scene_niftools/modules/nif_export/property/texture/texture.py:228-237 | import then export is the identity on MODULATE, HILIGHT and HILIGHT2, and sends every other apply mode to MODULATE |
| TexturingProperty.ImportedBlendTypesKnown | io_scene_niftools/modules/nif_export/property/texture/texture.py:236 | re-exporting an imported blend type warns exactly for REPLACE and DECAL |
| TexturingProperty.UsedExtraShaderTextures | io_scene_niftools/modules/nif_export/property/texture/texture.py:63-66 | the per-game index order, (3,0,4,1,5,2) for Railroads and (3,0,1,2) for Civilization IV; a `KeyError` exactly for every other game |
| TexturingProperty.UsedExtraShaderTexturesDistinct | io_scene_niftools/modules/nif_export/property/texture/texture.py:63-66 | no shader index is listed twice for a game |
| TexturingProperty.WithShaderIndices | io_scene_niftools/modules/nif_export/property/texture/texture.py:221-225 | one extra data block per index is appended, and no block other than the trishape changes |
| TexturingProperty.ShaderIndexBlock | io_scene_niftools/modules/nif_export/property/texture/texture.py:223-225 | the k-th new block is the integer extra data named `EXTRA_SHADER_TEXTURES[i]` with value `i`, for the k-th index `i` |
| TexturingProperty.ShaderIndicesBlocks | io_scene_niftools/modules/nif_export/property/texture/texture.py:223-225 | every new block holds its index's name and value, in table order |
| TexturingProperty.ShaderIndicesListed | io_scene_niftools/modules/nif_export/property/texture/texture.py:225 | the trishape's extra-data list gains exactly the new blocks, in creation order |
| TexturingProperty.Range | io_scene_niftools/modules/nif_export/property/texture/texture.py:225 | the consecutive registry indices from `lo` up to `hi` |
| TexturingProperty.AddIntegerExtraData | io_scene_niftools/modules/nif_export/property/texture/texture.py:225 | one integer extra data with the name and value is appended and attached to the trishape |
| TexturingProperty.AddShaderIntegerExtraDatas | io_scene_niftools/modules/nif_export/property/texture/texture.py:221-225 | fails with the game's `KeyError`, changing nothing, exactly when the game has no order; otherwise adds the extra data of its order |
| TexturingProperty.UvIndexOfMapName | io_scene_niftools/modules/nif_export/property/texture/texture.py:248-253 | `int(uv_name[2:])` with Python's white-space, sign and underscore rules, or 0 when that does not parse |
| TexturingProperty.GetUvNode | io_scene_niftools/modules/nif_export/property/texture/texture.py:239-258 | 0 with nothing plugged in, the parsed layer of a UV-map node, REFLECT for a texture coordinate node, and a `NifError` exactly for any other linked node |
| TexturingProperty.UvMapRoundTrip | io_scene_niftools/modules/nif_export/property/texture/texture.py:248-251 | the UV-map node the importer names `UV<i>` exports as layer `i` |
| TexturingProperty.FieldKeyByChars | io_scene_niftools/modules/nif_export/property/texture/texture.py:114 | the descriptor field is the slot name lower-cased with spaces turned to `_`, then `_texture` |
| TexturingProperty.TextureFieldOfSlot | io_scene_niftools/modules/nif_export/property/texture/texture.py:114 | for every importer slot the exporter's field name is the importer's key plus `_texture` |
| TexturingProperty.TextureFieldOfFirstSlots | io_scene_niftools/modules/nif_export/property/texture/texture.py:114 | the same for the base, bump map, normal and glow slots |
| TexturingProperty.TextureFieldOfDecalSlots | io_scene_niftools/modules/nif_export/property/texture/texture.py:114 | the same for the gloss and three decal slots |
| TexturingProperty.TextureFieldOfLastSlots | io_scene_niftools/modules/nif_export/property/texture/texture.py:114 | the same for the detail, dark, reflection and environment slots |
| TexturingProperty.TexDescAttrsFails | io_scene_niftools/modules/nif_export/property/texture/texture.py:111-122 | the descriptors fail exactly when the UV set of some filled slot fails |
| TexturingProperty.TexDescAttrsStep | io_scene_niftools/modules/nif_export/property/texture/texture.py:111-122 | an empty slot changes nothing; a filled one sets its `has_` flag and descriptor and no other field |
| TexturingProperty.TexDescAttrsSets | io_scene_niftools/modules/nif_export/property/texture/texture.py:112-122 | every filled slot ends with its flag true and its descriptor holding its UV set and source |
| TexturingProperty.TexDescAttrsKeeps | io_scene_niftools/modules/nif_export/property/texture/texture.py:111-112 | a field of no filled slot keeps its value |
| TexturingProperty.TexDescAttrsStayFailed | io_scene_niftools/modules/nif_export/property/texture/texture.py:119 | after a UV-set failure the later slots do not change the result |
| TexturingProperty.TexDescSources | io_scene_niftools/modules/nif_export/property/texture/texture.py:122 | every descriptor source is one it had before or the source exported for a filled slot |
| TexturingProperty.ExportTexDescs | io_scene_niftools/modules/nif_export/property/texture/texture.py:109-122 | the slot loop computes the descriptors or their first failure |
| TexturingProperty.LastEqual | io_scene_niftools/modules/nif_export/property/texture/texture.py:100-102 | the last registered block equal to the new property, and `None` exactly when there is none |
| TexturingProperty.FindDuplicate | io_scene_niftools/modules/nif_export/property/texture/texture.py:99-102 | the loop without `break` ends on that last equal block |
| TexturingProperty.WithTexturingProperty | io_scene_niftools/modules/nif_export/property/texture/texture.py:100-105 | the property is registered only when no equal one exists, the geometry's property list gains the kept one, and no other block changes |
| TexturingProperty.RegisterTexturingProperty | io_scene_niftools/modules/nif_export/property/texture/texture.py:99-105 | the duplicate search, registration and `add_property` produce that registry |
| TexturingProperty.CopyBaseFileName | io_scene_niftools/modules/nif_export/property/texture/texture.py:106-107 | the shader gets the base texture's file name, or the export fails when the base descriptor has no source |
| TexturingProperty.BuiltBaseSource | io_scene_niftools/modules/nif_export/property/texture/texture.py:107 | the base texture's source is a registered block |
| TexturingProperty.ExportTexturingProperty | io_scene_niftools/modules/nif_export/property/texture/texture.py:85-107 | the UV-set failure leaves the registry alone; otherwise the property or its duplicate is attached and a no-lighting shader gets the base file name |
| TexturingProperty.ImageNodes | io_scene_niftools/modules/nif_export/property/texture/texture.py:309 | exactly the image-texture nodes, in tree order |
| TexturingProperty.ImageNodesAppend | io_scene_niftools/modules/nif_export/property/texture/texture.py:309 | selecting image nodes commutes with concatenating trees |
| TexturingProperty.UsedTextSlots | io_scene_niftools/modules/nif_export/property/texture/texture.py:306-310 | empty without a material or with nodes off; otherwise the image-texture nodes |
| TexturingProperty.GetUvLayers | io_scene_niftools/modules/nif_export/property/texture/texture.py:299-304 | the set of the used slots' `uv_layer` values, or an `AttributeError` exactly when a used slot has none |
| TexturingProperty.ExporterClass.constructor | io_scene_niftools/modules/nif_export/property/texture/texture.py:68 | no instance before the first construction |
| TexturingProperty.ExporterClass.Construct | io_scene_niftools/modules/nif_export/property/texture/texture.py:70-76 | a second construction raises "This class is a singleton!" and keeps the instance; the first one records the new instance |
| TexturingProperty.ExporterClass.Get | io_scene_niftools/modules/nif_export/property/texture/texture.py:78-83 | `get()` returns the recorded instance, creating it on first use |
| TexturingProperty.GetIsStable | io_scene_niftools/modules/nif_export/property/texture/texture.py:68-83 | two calls of `get()` return the same instance, and a construction after them raises |
| ObjectProperty.FirstMatch | io_scene_niftools/modules/nif_export/property/object.py:94-108 | the first registry block whose type contains `block_type` and which meets every non-`None` criterion; `None` exactly when no block does |
| ObjectProperty.FirstMatchIs | io_scene_niftools/modules/nif_export/property/object.py:94-108 | a matching block with no match before it is the one the scan returns |
| ObjectProperty.NoneIgnored | io_scene_niftools/modules/nif_export/property/object.py:100 | a `None`-valued keyword argument does not change whether a block matches |
| ObjectProperty.CheckCriteria | io_scene_niftools/modules/nif_export/property/object.py:98-104 | the inner for/else loop succeeds exactly when the block meets every non-`None` criterion |
| ObjectProperty.WithCriteriaSets | io_scene_niftools/modules/nif_export/property/object.py:112-114 | after the `setattr` loop every non-`None` argument is set, nothing else is added and other attributes keep their values |
| ObjectProperty.CreatedBlockMatches | io_scene_niftools/modules/nif_export/property/object.py:111-115 | a newly created block meets every criterion it was created with |
| ObjectProperty.SetCriteria | io_scene_niftools/modules/nif_export/property/object.py:112-114 | only the created block changes, and it gets exactly the non-`None` arguments |
| ObjectProperty.FirstMatchKept | io_scene_niftools/modules/nif_export/property/object.py:94-108 | blocks appended after a match do not change the first match |
| ObjectProperty.AfterMatchingIdempotent | io_scene_niftools/modules/nif_export/property/object.py:89-115 | asking a second time for the same block returns the block of the first request and registers nothing |
| ObjectProperty.GetMatchingBlock | io_scene_niftools/modules/nif_export/property/object.py:89-115 | the result meets every criterion; it is the first match with the registry unchanged, or, when nothing matches, a new block appended with only the non-`None` arguments set |
| ObjectProperty.ExportVertexColorProperty | io_scene_niftools/modules/nif_export/property/object.py:117-121 | the first vertex-colour property with the requested flags, vertex mode and lighting mode, the registry unchanged; or, when none matches, a new one appended with exactly those values |
| ObjectProperty.ZBufferFunction | io_scene_niftools/modules/nif_export/property/object.py:123-127 | the z-buffer function is 1 exactly for EMPIRE_EARTH_II and 3 for every other game |
| ObjectProperty.ExportZBufferProperty | io_scene_niftools/modules/nif_export/property/object.py:123-128 | the first z-buffer property with flags 15 and the game's function, the registry unchanged; or, when none matches, a new one appended with exactly those values |
| ObjectProperty.StencilFlags | io_scene_niftools/modules/nif_export/property/object.py:192-193 | flags are constrained to 19840 exactly for Fallout 3 |
| ObjectProperty.ExportStencilProperty | io_scene_niftools/modules/nif_export/property/object.py:186-195 | no block and no change exactly when backface culling is on; otherwise the first stencil property matching flags 19840 for Fallout 3 (any flags elsewhere), the registry unchanged, or a new one appended |
| ObjectProperty.HasWireframeModifier | io_scene_niftools/modules/nif_export/property/object.py:182-183 | true exactly when some modifier has type WIREFRAME |
| ObjectProperty.ExportWireframeProperty | io_scene_niftools/modules/nif_export/property/object.py:179-184 | a wireframe property with flags 1 exactly when some modifier is WIREFRAME: the first match with the registry unchanged, or a new one appended; otherwise the registry is unchanged |
| ObjectProperty.ExportSpecularProperty | io_scene_niftools/modules/nif_export/property/object.py:164-177 | fails on the undefined `ni_texturing_property_helper` exactly when a material is given outside Skyrim and the Fallout games |
| ObjectProperty.ExportAlphaProperty | io_scene_niftools/modules/nif_export/property/object.py:130-160 | fails with a key error exactly for a node material without a "Principled BSDF" node |
| ObjectProperty.ExportObjectProperties | io_scene_niftools/modules/nif_export/property/object.py:58-73 | a missing object is an attribute error on `active_material`; no material changes nothing; the alpha export's key error comes before any block; otherwise the wireframe and then the stencil block are registered and the outcome is the specular export's |
| ObjectProperty.ObjectPropertiesReused | io_scene_niftools/modules/nif_export/property/object.py:58-73 | exporting the properties of the same object a second time registers no more blocks |
| ObjectProperty.WithExtraData | io_scene_niftools/modules/nif_export/property/object.py:202-205 | the new block is appended, the node's extra-data list gains its reference at the end, and every other block stays |
| ObjectProperty.WithExtraDataReplaced | io_scene_niftools/modules/nif_export/property/object.py:236-241 | filling in the new block after attaching it is the same as attaching the filled-in block |
| ObjectProperty.AddStringExtraData | io_scene_niftools/modules/nif_export/property/object.py:202-205 | the string extra data is created with the given name and data and attached to the node |
| ObjectProperty.ExportUpb | io_scene_niftools/modules/nif_export/property/object.py:197-205 | a "UPB" string extra data holding `upb` is attached exactly when `upb` is non-empty and mentions BSBoneLOD or Bip |
| ObjectProperty.ExportPrn | io_scene_niftools/modules/nif_export/property/object.py:207-216 | a "Prn" string extra data holding the location is attached exactly for Bethesda games with a location set |
| ObjectProperty.Colliders | io_scene_niftools/modules/nif_export/property/object.py:267-274 | fails exactly when some rigid body has no parent; otherwise the colliders are exactly the rigid bodies whose parent is not one, in scene order |
| ObjectProperty.HasCollision | io_scene_niftools/modules/nif_export/property/object.py:267-274 | the loop computes that collider list |
| ObjectProperty.CollidersStayFailed | io_scene_niftools/modules/nif_export/property/object.py:270-271 | once the scan has failed, scanning further objects keeps the failure |
| ObjectProperty.DynamicColliders | io_scene_niftools/modules/nif_export/property/object.py:276-284 | exactly the rigid bodies whose motion system mentions neither INVALID nor FIXED, in scene order |
| ObjectProperty.HasDynamicCollision | io_scene_niftools/modules/nif_export/property/object.py:276-284 | the loop computes that list |
| ObjectProperty.HasAnimation | io_scene_niftools/modules/nif_export/property/object.py:286-290 | true exactly when some object has animation data |
| ObjectProperty.SetOrClear | io_scene_niftools/modules/nif_export/property/object.py:244-247 | `|=` or `&= ~` sets or clears exactly the one bit and keeps every other bit |
| ObjectProperty.AnimatedBitKept | io_scene_niftools/modules/nif_export/property/object.py:243-247 | after all four updates bit 0x1 is set exactly when there is animation |
| ObjectProperty.HavokBitKept | io_scene_niftools/modules/nif_export/property/object.py:249-253 | after all four updates bit 0x2 is set exactly when there is a collider |
| ObjectProperty.ComplexBitKept | io_scene_niftools/modules/nif_export/property/object.py:255-259 | after all four updates bit 0x4 is set exactly when there is dynamic collision and more than one collider |
| ObjectProperty.OtherBitsKept | io_scene_niftools/modules/nif_export/property/object.py:241-265 | the four updates keep every bit outside 0x27 at its stored value |
| ObjectProperty.BsxUpdatesDecide | io_scene_niftools/modules/nif_export/property/object.py:243-265 | the four updates in order decide the animated, Havok, complex and dynamic bits and keep the rest |
| ObjectProperty.BsxDecidedUnique | io_scene_niftools/modules/nif_export/property/object.py:241-265 | those conditions determine the flags uniquely |
| ObjectProperty.SetAnimatedBit | io_scene_niftools/modules/nif_export/property/object.py:243-247 | the animated bit follows the animation test and every other bit is kept |
| ObjectProperty.FinishBsxFlags | io_scene_niftools/modules/nif_export/property/object.py:249-265 | the remaining three updates decide the Havok, complex and dynamic bits |
| ObjectProperty.BsxFlagsFor | io_scene_niftools/modules/nif_export/property/object.py:241-265 | the collider scan's failure after the animated bit, or success with all four bits decided from the scene |
| ObjectProperty.AddBsxBlock | io_scene_niftools/modules/nif_export/property/object.py:236-238 | a "BSX" BSXFlags block with the flags is appended and attached to the root |
| ObjectProperty.ExportBsxFlags | io_scene_niftools/modules/nif_export/property/object.py:232-265 | nothing outside Bethesda games; otherwise the BSX block is attached, its flags decided as above, and the collider scan's failure is the result |
| ObjectProperty.ExportRootNodeProperties | io_scene_niftools/modules/nif_export/property/object.py:75-87 | fails exactly when a Bethesda game's collider scan fails; without a root-property game, a wanted UPB or a Bethesda game the registry is unchanged |
| NifBlocks.BlockStore.constructor | io_scene_niftools/modules/nif_export/animation/texture.py:120 | a registry holding the given blocks |
| NifBlocks.BlockStore.Create | io_scene_niftools/modules/nif_export/animation/texture.py:120 | `create_block` registers one new block of the class, with nothing set, after all others, and returns its index |
| NifBlocks.BlockStore.Register | io_scene_niftools/modules/nif_export/property/texture/texture.py:104 | `register_block` appends the block and returns its index, every earlier block kept |
| NifBlocks.BlockStore.Set | io_scene_niftools/modules/nif_export/animation/texture.py:125-129 | setting one field of one registered block changes that field only |
| NifBlocks.BlockStore.AppendRef | io_scene_niftools/modules/nif_export/animation/texture.py:237 | `add_controller`/`add_property` append one reference to the block's list, after the others, nothing else changing |
| TextureAnimation.GetNifInterpolation | io_scene_niftools/modules/nif_export/animation/texture.py:167-174 | "CONSTANT" gives a constant key, "BEZIER" a quadratic key, every other mode a linear key |
| TextureAnimation.KeyTimes | io_scene_niftools/modules/nif_export/animation/texture.py:154 | a key's time times fps is its frame, so key times keep the order of the keyframes |
| TextureAnimation.FcurveKeys | io_scene_niftools/modules/nif_export/animation/texture.py:150-165 | one NIF key per keyframe, in order, with time frame/fps, the keyframe's value and its mapped interpolation |
| TextureAnimation.OperationIndex | io_scene_niftools/modules/nif_export/animation/texture.py:64-70 | every mapping operation has its own entry in the operation table |
| TextureAnimation.OperationTableInjective | io_scene_niftools/modules/nif_export/animation/texture.py:64-70 | different operations have different names, different F-curve paths and different controller ids |
| TextureAnimation.FindFcurve | io_scene_niftools/modules/nif_export/animation/texture.py:98 | `next(...)` finds the first F-curve with the data path, and nothing exactly when none has it |
| TextureAnimation.AnimatedIn | io_scene_niftools/modules/nif_export/animation/texture.py:96-100 | an operation is exported exactly when the action has an F-curve on its path, with that first curve |
| TextureAnimation.AnimatedKeepsTableOrder | io_scene_niftools/modules/nif_export/animation/texture.py:96-113 | the exported operations come out in table order |
| TextureAnimation.OperationsInTableOrder | io_scene_niftools/modules/nif_export/animation/texture.py:64-70 | the table lists each operation once, in its declared order |
| TextureAnimation.AddInterpolator | io_scene_niftools/modules/nif_export/animation/texture.py:131-138 | a blend interpolator with flags 0x1 inside a controller sequence, a plain one otherwise, registered after the controller, which now points to it |
| TextureAnimation.AddFloatData | io_scene_niftools/modules/nif_export/animation/texture.py:140-146 | a float data block, holding the operation's keys when it has an F-curve, registered after the interpolator, which now reads from it |
| TextureAnimation.CreateController | io_scene_niftools/modules/nif_export/animation/texture.py:120-129 | a new transform controller targeting the property, base-map slot, the operation's name, start and stop time frame/fps, and the property's controller set to it |
| TextureAnimation.ExportTransformController | io_scene_niftools/modules/nif_export/animation/texture.py:117-148 | three new blocks (controller, interpolator, float data) in that order, chained by references, and the property's controller field pointing to the new controller |
| TextureAnimation.WithControllers | io_scene_niftools/modules/nif_export/animation/texture.py:96-105 | each exported operation adds exactly three blocks |
| TextureAnimation.ControllersStep | io_scene_niftools/modules/nif_export/animation/texture.py:96-105 | one more exported operation is one more transform controller on top of the earlier ones |
| TextureAnimation.ControllersKeep | io_scene_niftools/modules/nif_export/animation/texture.py:96-105 | exporting the operations changes no block other than the texturing property |
| TextureAnimation.LastControllerLinked | io_scene_niftools/modules/nif_export/animation/texture.py:122 | after the loop the property's controller field is the last controller made, all its other fields kept |
| TextureAnimation.ControllerAt | io_scene_niftools/modules/nif_export/animation/texture.py:120-129 | the k-th exported operation's controller sits at base + 3k and targets the property with that operation |
| TextureAnimation.InterpolatorAt | io_scene_niftools/modules/nif_export/animation/texture.py:131-138 | the k-th controller's interpolator sits right after it and reads the data after it |
| TextureAnimation.FloatDataAt | io_scene_niftools/modules/nif_export/animation/texture.py:140-146 | the k-th float data holds the keys of that operation's F-curve |
| TextureAnimation.EntriesFor | io_scene_niftools/modules/nif_export/animation/texture.py:107-113 | one controlled-block entry per exported operation |
| TextureAnimation.EntryAt | io_scene_niftools/modules/nif_export/animation/texture.py:107-113 | the k-th entry names the k-th controller, the geometry's name, "NiTexturingProperty", "NiTextureTransformController" and the id `0-0-<operation>` |
| TextureAnimation.ControllerSequence.constructor | io_scene_niftools/modules/nif_export/animation/texture.py:107-108 | a controller sequence with no controlled blocks |
| TextureAnimation.ControllerSequence.AddBlock | io_scene_niftools/modules/nif_export/animation/texture.py:108-113 | `add_block` appends exactly one entry |
| TextureAnimation.ExportOperation | io_scene_niftools/modules/nif_export/animation/texture.py:96-113 | one pass of the operation loop extends the registry and the sequence by that operation's controller and entry, or leaves both when it is not animated |
| TextureAnimation.ExportOperations | io_scene_niftools/modules/nif_export/animation/texture.py:96-113 | the operation loop leaves the registry and the sequence as the specification functions of all animated operations, in table order, say |
| TextureAnimation.LastTexturingProperty | io_scene_niftools/modules/nif_export/animation/texture.py:83-86 | the last of the geometry's properties that is a `NiTexturingProperty`, and none exactly when none is |
| TextureAnimation.FindTexturingProperty | io_scene_niftools/modules/nif_export/animation/texture.py:83-86 | the property loop finds the last texturing property |
| TextureAnimation.AnimationStep | io_scene_niftools/modules/nif_export/animation/texture.py:73-113 | one controlled block fails exactly when its object has no material or (for a node-tree action) was not exported; a non-node-tree action changes nothing, and nothing is ever removed |
| TextureAnimation.ExportedAnimations | io_scene_niftools/modules/nif_export/animation/texture.py:72-115 | the passes in order never remove a block |
| TextureAnimation.FailureSticks | io_scene_niftools/modules/nif_export/animation/texture.py:72-115 | once a pass fails, the later controlled blocks change nothing: the export ends with that error |
| TextureAnimation.ExportFailsIffSomeError | io_scene_niftools/modules/nif_export/animation/texture.py:72-115 | the export fails exactly when some controlled block raises |
| TextureAnimation.ExportFailsAtFirstError | io_scene_niftools/modules/nif_export/animation/texture.py:72-115 | the error reported is that of the first controlled block that raises |
| TextureAnimation.ExportAction | io_scene_niftools/modules/nif_export/animation/texture.py:73-113 | one pass of the outer loop does what `AnimationStep` says: the same error and no block on failure, the same registry, entries and warnings otherwise |
| TextureAnimation.ExportTextureAnimations | io_scene_niftools/modules/nif_export/animation/texture.py:72-115 | the whole export has the result, registry, entries and warnings `ExportedAnimations` specifies |
| TextureAnimation.FirstUvCurve | io_scene_niftools/modules/nif_export/animation/texture.py:184-187 | the first F-curve whose path contains the channel and whose index matches, and none exactly when no curve does |
| TextureAnimation.FirstUvCurveFrom | io_scene_niftools/modules/nif_export/animation/texture.py:184-187 | the same search from a given position on |
| TextureAnimation.SelectUvCurves | io_scene_niftools/modules/nif_export/animation/texture.py:182-189 | one slot per channel (offset u, offset v, scale u, scale v), each the first matching curve or none |
| TextureAnimation.ExportUvGroup | io_scene_niftools/modules/nif_export/animation/texture.py:199-211 | as many linear keys as keyframes, time frame/fps, value negated for offset curves |
| TextureAnimation.ExportUvGroups | io_scene_niftools/modules/nif_export/animation/texture.py:197-211 | one key group per channel: empty for a missing curve, the curve's keys otherwise |
| TextureAnimation.UvControllerAttached | io_scene_niftools/modules/nif_export/animation/texture.py:191-219 | nothing happens when no curve exists; a missing U-offset curve with some other curve present fails; a controller reading the four key groups is attached exactly when the U-offset curve has keyframes |
| TextureAnimation.AttachUvController | io_scene_niftools/modules/nif_export/animation/texture.py:191-219 | the registry afterwards, or the error, is the one `UvExported` specifies |
| TextureAnimation.ExportUvController | io_scene_niftools/modules/nif_export/animation/texture.py:176-219 | `export_ni_uv_controller` on an action: curve selection followed by `AttachUvController` |
| TextureAnimation.NonEmptyLines | io_scene_niftools/modules/nif_export/animation/texture.py:249-251 | the lines kept are exactly the non-empty ones, never more than there were |
| TextureAnimation.NonEmptyLinesAll | io_scene_niftools/modules/nif_export/animation/texture.py:249-251 | every line is kept exactly when none is empty |
| TextureAnimation.FlipSources | io_scene_niftools/modules/nif_export/animation/texture.py:253-255 | one source per non-empty line, in order, each the texture exported for that line |
| TextureAnimation.FlipFields | io_scene_niftools/modules/nif_export/animation/texture.py:240-259 | `num_sources` and `sources` count and list the flip textures, `texture_slot` is the target slot, and `delta` is set exactly when there are at least two textures |
| TextureAnimation.FlipTextures | io_scene_niftools/modules/nif_export/animation/texture.py:248-256 | the loop counts and exports exactly the non-empty lines |
| TextureAnimation.ExportFlipController | io_scene_niftools/modules/nif_export/animation/texture.py:221-259 | the flip controller is registered and attached to the target first; the call fails with the flip-buffer message exactly when fewer than two textures are listed, and otherwise returns the new controller |
| TextureAnimation.FlipDelta | io_scene_niftools/modules/nif_export/animation/texture.py:259 | with at least two textures, `delta` times the number of textures spans start to stop time |

## Left out

- Disk and host I/O are parameters: reading and writing image files (`open`, `save_as_dds`), `bpy.data.images.load`, `os.path.exists`, `bpy.path.abspath`/`relpath` and `resolve_ncase`. The loader holds the existing files as a set and the host images as a map.
- The add-on's UI property classes (`properties/*.py`) are not part of this model.
- The internals of the NIF class library are not modelled. Field defaults of new blocks are not modelled: a new block starts with no attributes set.
- Equality of the exporter's block hashes (`get_hash`) is modelled as equality of the block records.
- `add_controller` and `add_property` are modelled as appending a reference to the list field `controllers` or `properties`. The library call `add_integer_extra_data` (`NiIntegerExtraData`) is modelled the same way: its block is appended to the registry and referenced from the trishape's extra-data list.
- `NiUVData` and `NiUVController` are built directly by the exporter, not through the block registry. The model appends them to the registry so that references to them have an identity.
- Floating point is modelled as exact reals; frames per second is a positive real. Nothing is claimed about rounding.
- Python's `str.lower()` is modelled for ASCII letters only.
- The iteration order of Python sets (`set(texfns)` in the loader) depends on string hashing. `FindTexture` takes any enumeration of the variants as a parameter, but the import entry points fix one: `DefaultOrder`, the variants in first-occurrence order. So when two variants of a name exist in the same directory, `ExternalPath`, `ExternalImage`, `ImportedImage`, `StateAfterImport`, `ImportExternalSource`, `ImportTextureSource`, `CreateTextureSlot` and `CreateAndLink` pick the variant listed first, where the add-on's pick may differ from run to run.
- `links.new` is modelled as adding a link. The host's replacement of an existing link into an input socket is not modelled.
- The node locations set for layout and `nodes_iterate` (layout only) are not modelled.
- The insides of the InvertY node group are global host data, outside the material's tree, and are not modelled. The group node refers to it by name.
- Setting the normal map image's colour space to "Non-Color" is modelled only through its failure. A texture node without an image (its slot had no source block or an empty file name, so the import gave none) raises AttributeError there, and `NodesWrapper.NodesWrapper.ApplyHandler` and `CreateAndLink` return that error with the label set and nothing else changed. `load_image` itself never fails, since it falls back to a placeholder image.
- NodesWrapper.LabelTexture: the legacy `use_map_*` assignments of the reflection and environment handlers are treated as no-ops. In Blender an image-texture node has no such attributes and assigning one raises AttributeError, so the add-on's `link_environment_node` stops before `blend_type = 'ADD'`, and `link_reflection_node` fails as well. The model takes the reading under which these handlers run to the end: the reflection handler does nothing, and the environment handler sets the blend type to "ADD".
- TextureAnimation.ControllerSequence.AddBlock and TextureAnimation.ExportOperation: animation/texture.py:108 reads `add_block` without calling it, and the next lines set fields on the result. That works only if the NIF library defines `add_block` as a property that appends and returns a new controlled block; if it is a method, setting `.controller` on the bound method raises AttributeError, and if it does not exist the read raises. The NIF library is not part of this model, so the model takes the first reading: the sequence gains one entry whose fields are those the following lines set.
- `NiFlipController` sources: the export of a source texture for each flip line is a function `sourceOf` that the caller supplies. The flip controller's `start_time`/`stop_time` are modelled exactly as written, multiplied by fps.
- Each `raise NifLog.warn(...)` is modelled as an error carrying the message. Debug logging is not modelled.
- After an error the model returns the error. It does not reproduce the partly changed state the add-on leaves behind, except where a contract says otherwise.
- `set_flags_and_timing` of the UV controller is common animation code and is not part of this model.
- A controller sequence is modelled as a separate object holding its controlled-block entries.
- `BSInvMarker` export (rotation rounding of floats through pi) is not modelled.
- `export_texture_shader_effect` is not modelled: it is an empty stub. Of `export_alpha_property` only the lookup of the "Principled BSDF" node is modelled: the rest of its body reads the alpha socket and builds no block.
- Texture type detection (`determine_texture_types`) and the export of a source texture are not part of this model. The used slots and their sources are inputs.
- Paths.Basename and Paths.Join follow `posixpath` with the separator as a parameter. Under `ntpath` a drive letter (`C:`) also ends the directory part, `/` is a separator as well as `\`, and `join` restarts at a drive; none of that is modelled.
- TexturingProperty.UvIndexOfMapName: `int()` is modelled for ASCII text: white space, a sign and single underscores between digits. Python's `int()` also accepts Unicode decimal digits and Unicode white space, where the model gives 0.
- TextureLoader.TextureLoader.constructor: the session state that all loaders share is one object. The model does not create a new loader per node wrapper; every wrapper is given the session's object, which behaves like the shared class attribute.
- ObjectProperty.ExportRootNodeProperties: its contract states the failure condition and the cases that leave the registry unchanged. Each successful export is described by the contracts of `ExportUpb`, `ExportPrn` and `ExportBsxFlags`, and not composed into one statement.
