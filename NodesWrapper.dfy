/**
 * Texture import into a material's shader node tree: one image-texture
 * node per texture slot, a UV-map node per UV layer (shared by name), and
 * a chain of mixers (the diffuse "pass") that premixes the colour
 * textures before the diffuse shader.
 */
module NodesWrapper {
  import opened Wrappers
  import opened Strings
  import opened ShaderNodes
  import opened NifBlocks
  import TL = TextureLoader

  // ---------------------------------------------------------------- names

  /** The name of the UV-map node for UV layer `i`. */
  function UvNodeName(i: nat): (r: string)
    ensures |r| > |"TexCoordIndex_"| && r[..|"TexCoordIndex_"|] == "TexCoordIndex_"
  {
    "TexCoordIndex_" + NatToString(i)
  }

  lemma UvNodeNameInjective(i: nat, j: nat)
    requires UvNodeName(i) == UvNodeName(j)
    ensures i == j
  {
    assert UvNodeName(i)[14..] == NatToString(i);
    assert UvNodeName(j)[14..] == NatToString(j);
    NatToStringInjective(i, j);
  }

  /** The UV layer a new UV-map node for layer `i` reads. */
  function UvMapName(i: nat): string {
    "UV" + NatToString(i)
  }

  // ---------------------------------------------------------------- apply modes

  /** The blend type an imported NIF apply mode becomes; unknown modes become "MIX". */
  function BlendTypeOfApplyMode(m: int): string {
    if m == APPLY_MODULATE then "MIX"
    else if m == APPLY_REPLACE then "COLOR"
    else if m == APPLY_DECAL then "OVERLAY"
    else if m == APPLY_HILIGHT then "LIGHTEN"
    else if m == APPLY_HILIGHT2 then "MULTIPLY"
    else "MIX"
  }

  /** The five known apply modes get five different blend types; "MIX" is modulate or unknown. */
  lemma BlendTypesOfKnownModesDistinct(m: int, n: int)
    requires m in {APPLY_REPLACE, APPLY_DECAL, APPLY_MODULATE, APPLY_HILIGHT, APPLY_HILIGHT2}
    requires n in {APPLY_REPLACE, APPLY_DECAL, APPLY_MODULATE, APPLY_HILIGHT, APPLY_HILIGHT2}
    ensures BlendTypeOfApplyMode(m) == BlendTypeOfApplyMode(n) <==> m == n
  {
  }

  lemma BlendTypeMix(m: int)
    ensures BlendTypeOfApplyMode(m) == "MIX" <==>
            m !in {APPLY_REPLACE, APPLY_DECAL, APPLY_HILIGHT, APPLY_HILIGHT2}
  {
  }

  // ---------------------------------------------------------------- slot handlers

  /** The `link_<slot>_node` handlers of the wrapper. */
  datatype Handler =
    | LinkBase | LinkBumpMap | LinkNormal | LinkGlow | LinkGloss | LinkDecal0 | LinkDecal1
    | LinkDecal2 | LinkDetail | LinkDark | LinkReflection | LinkEnvironment

  /** The slot part of each handler's name. */
  function SlotKey(h: Handler): string {
    match h
    case LinkBase => "base"
    case LinkBumpMap => "bump_map"
    case LinkNormal => "normal"
    case LinkGlow => "glow"
    case LinkGloss => "gloss"
    case LinkDecal0 => "decal_0"
    case LinkDecal1 => "decal_1"
    case LinkDecal2 => "decal_2"
    case LinkDetail => "detail"
    case LinkDark => "dark"
    case LinkReflection => "reflection"
    case LinkEnvironment => "environment"
  }

  function HandlerName(h: Handler): string {
    "link_" + SlotKey(h) + "_node"
  }

  /** The handler whose key is `key`, if any. */
  function HandlerOfKey(key: string): (r: Option<Handler>)
    ensures r.Some? ==> SlotKey(r.value) == key
    ensures r.None? <==> forall h :: SlotKey(h) != key
  {
    if key == "base" then Some(LinkBase)
    else if key == "bump_map" then Some(LinkBumpMap)
    else if key == "normal" then Some(LinkNormal)
    else if key == "glow" then Some(LinkGlow)
    else if key == "gloss" then Some(LinkGloss)
    else if key == "decal_0" then Some(LinkDecal0)
    else if key == "decal_1" then Some(LinkDecal1)
    else if key == "decal_2" then Some(LinkDecal2)
    else if key == "detail" then Some(LinkDetail)
    else if key == "dark" then Some(LinkDark)
    else if key == "reflection" then Some(LinkReflection)
    else if key == "environment" then Some(LinkEnvironment)
    else None
  }

  /** `getattr(self, name, None)` restricted to the handlers. */
  function FindHandler(name: string): (r: Option<Handler>)
    ensures r.Some? ==> HandlerName(r.value) == name
    ensures r.None? <==> forall h :: HandlerName(h) != name
  {
    if |name| >= 10 && name[..5] == "link_" && name[|name| - 5..] == "_node" then
      var key := name[5..|name| - 5];
      assert name == "link_" + key + "_node";
      forall h | HandlerName(h) == name ensures SlotKey(h) == key {
        assert name[5..|name| - 5] == SlotKey(h);
      }
      HandlerOfKey(key)
    else
      None
  }

  /** The handler name a slot name selects: lower case, spaces to underscores. */
  function HandlerNameFor(slotName: string): string {
    "link_" + ReplaceChar(Lower(slotName), ' ', '_') + "_node"
  }

  /** The slot names (the values of `TEX_SLOTS`) each handler is meant for, also used as node labels. */
  function SlotName(h: Handler): string {
    match h
    case LinkBase => "Base"
    case LinkBumpMap => "Bump Map"
    case LinkNormal => "Normal"
    case LinkGlow => "Glow"
    case LinkGloss => "Gloss"
    case LinkDecal0 => "Decal 0"
    case LinkDecal1 => "Decal 1"
    case LinkDecal2 => "Decal 2"
    case LinkDetail => "Detail"
    case LinkDark => "Dark"
    case LinkReflection => "Reflection"
    case LinkEnvironment => "Environment"
  }

  lemma FindHandlerName(h: Handler)
    ensures FindHandler(HandlerName(h)) == Some(h)
  {
  }

  /** A slot name whose lower-cased, underscored spelling is a handler's key dispatches to that handler. */
  lemma DispatchBySlotKey(slotName: string, h: Handler)
    requires ReplaceChar(Lower(slotName), ' ', '_') == SlotKey(h)
    ensures FindHandler(HandlerNameFor(slotName)) == Some(h)
  {
    FindHandlerName(h);
  }

  lemma LowerIdempotent(s: string)
    ensures Lower(Lower(s)) == Lower(s)
  {
  }

  /** Dispatch ignores the case of the slot name. */
  lemma HandlerNameForIgnoresCase(s: string)
    ensures HandlerNameFor(Lower(s)) == HandlerNameFor(s)
  {
    LowerIdempotent(s);
  }

  /** The handlers that set the texture node's label. */
  predicate SetsLabel(h: Handler) {
    !(h.LinkReflection? || h.LinkEnvironment?)
  }

  /** What `create_texture_slot` is given: a TexDesc (source and UV set) or a bare file name. */
  datatype TexInfo = TexDesc(source: TL.TextureSource, uvSet: nat) | BareString(path: string)

  function UvIndexOf(info: TexInfo): nat {
    if info.TexDesc? then info.uvSet else 0
  }

  function SourceOf(info: TexInfo): TL.TextureSource {
    if info.TexDesc? then info.source else TL.PathString(info.path)
  }

  // ---------------------------------------------------------------- steps on a node tree

  /** The mixer `connect_to_pass` creates for each texture type. */
  function MixerFor(textureType: string): (n: Node)
    ensures n.kind == MixRgbNode
    ensures textureType in {"Detail", "Reflect"} ==> n.blendType == "OVERLAY" && n.inputs == map[0 := 1.0]
    ensures textureType == "Vertex_Color" ==> n.blendType == "MULTIPLY" && n.inputs == map[0 := 1.0]
    ensures textureType !in {"Detail", "Reflect", "Vertex_Color"} ==> n == NewNodeOf(MixRgbNode)
  {
    if textureType == "Detail" || textureType == "Reflect" then
      NewNodeOf(MixRgbNode).(inputs := map[0 := 1.0], blendType := "OVERLAY")
    else if textureType == "Vertex_Color" then
      NewNodeOf(MixRgbNode).(inputs := map[0 := 1.0], blendType := "MULTIPLY")
    else
      NewNodeOf(MixRgbNode)
  }

  /** The links into a new mixer: old pass into input 1, texture colour into input 2, and for a decal its alpha into the factor. */
  function PassLinks(pass: string, tex: string, mixer: string, textureType: string): set<Link> {
    (if textureType == "Decal" then {Link(tex, 1, mixer, 0)} else {})
    + {Link(pass, 0, mixer, 1), Link(tex, 0, mixer, 2)}
  }

  /**
   * `connect_to_pass(pass, tex, type)` took the tree from (n0, l0) to
   * (n1, l1) and returned `r`: without a pass the texture itself and no
   * change; with one, a single new mixer fed by the pass and the texture.
   */
  ghost predicate PassStep(n0: map<string, Node>, l0: set<Link>, pass: Option<string>, tex: string,
                           textureType: string, n1: map<string, Node>, l1: set<Link>, r: string)
  {
    if pass.None? then r == tex && n1 == n0 && l1 == l0
    else r !in n0 && n1 == n0[r := MixerFor(textureType)] && l1 == l0 + PassLinks(pass.value, tex, r, textureType)
  }

  /** The UV-map node `set_uv_map` creates for layer `i`. */
  function UvMapNodeFor(i: nat): Node {
    NewNodeOf(UvMapNode).(uvMap := UvMapName(i))
  }

  /**
   * Non-reflective `set_uv_map(tex, i)` took (n0, l0) to (n1, l1): the node
   * named `TexCoordIndex_<i>` is reused when present and created otherwise,
   * and its output feeds the texture's vector input.
   */
  ghost predicate UvMapStep(n0: map<string, Node>, l0: set<Link>, tex: string, i: nat,
                            n1: map<string, Node>, l1: set<Link>)
  {
    var name := UvNodeName(i);
    && (name in n0 ==> n1 == n0)
    && (name !in n0 ==> n1 == n0[name := UvMapNodeFor(i)])
    && l1 == l0 + {Link(name, 0, tex, 0)}
  }

  /** The image-texture node `create_texture_slot` creates for `img`. */
  function TextureNodeFor(img: Option<TL.Image>): Node {
    NewNodeOf(TexImageNode).(image := img, interpolation := "Smart")
  }

  /** The texture node after a handler set its label (or, for the environment slot, its blend type). */
  function Labelled(n: map<string, Node>, tex: string, h: Handler): map<string, Node>
    requires tex in n
  {
    if SetsLabel(h) then n[tex := n[tex].(nodeLabel := SlotName(h))]
    else if h.LinkEnvironment? then n[tex := n[tex].(blendType := "ADD")]
    else n
  }

  /** The name of the node group that flips the green channel of a NIF normal map. */
  const INVERT_Y_GROUP := "InvertY"

  /**
   * The nodes `link_normal_node` adds after labelling texture `tex`, taking
   * (n0, l0) to (n1, l1): a group node `g` showing the InvertY group, fed by
   * the texture's colour; its output drives the normal input of `shader`,
   * directly for model-space normals and otherwise through a new
   * tangent-space normal-map node `c`.
   */
  ghost predicate NormalWiring(n0: map<string, Node>, l0: set<Link>, tex: string, shader: string, modelSpace: bool,
                               g: string, c: string, n1: map<string, Node>, l1: set<Link>)
  {
    && g !in n0
    && var ng := n0[g := NewNodeOf(GroupNode).(nodeGroup := INVERT_Y_GROUP)];
       if modelSpace then
         n1 == ng && l1 == l0 + {Link(tex, 0, g, 0), Link(g, 0, shader, 2)}
       else
         c !in ng && n1 == ng[c := NewNodeOf(NormalMapNode)] &&
         l1 == l0 + {Link(tex, 0, g, 0), Link(g, 0, c, 1), Link(c, 0, shader, 2)}
  }

  /**
   * Handler `h` applied to texture node `tex` took the tree from (n0, l0)
   * to (n1, l1), the diffuse pass from pass0 to pass1 and the diffuse
   * texture from dtex0 to dtex1; `shader` is the diffuse shader and
   * `modelSpace` the material's model-space-normals setting.
   */
  ghost predicate HandlerStep(h: Handler, tex: string, shader: string, modelSpace: bool,
                              n0: map<string, Node>, l0: set<Link>,
                              pass0: Option<string>, dtex0: Option<string>,
                              n1: map<string, Node>, l1: set<Link>,
                              pass1: Option<string>, dtex1: Option<string>)
    requires tex in n0
  {
    var m := Labelled(n0, tex, h);
    match h
    case LinkBase =>
      dtex1 == Some(tex) && pass1.Some? && PassStep(m, l0, pass0, tex, "Detail", n1, l1, pass1.value)
    case LinkDecal0 =>
      dtex1 == dtex0 && pass1.Some? && PassStep(m, l0, pass0, tex, "Decal", n1, l1, pass1.value)
    case LinkDecal1 =>
      dtex1 == dtex0 && pass1.Some? && PassStep(m, l0, pass0, tex, "Decal", n1, l1, pass1.value)
    case LinkDecal2 =>
      dtex1 == dtex0 && pass1.Some? && PassStep(m, l0, pass0, tex, "Decal", n1, l1, pass1.value)
    case LinkDetail =>
      dtex1 == dtex0 && pass1.Some? && PassStep(m, l0, pass0, tex, "Detail", n1, l1, pass1.value)
    case LinkNormal =>
      pass1 == pass0 && dtex1 == dtex0 &&
      if n0[tex].image.None? then n1 == m && l1 == l0
      else exists g, c :: NormalWiring(m, l0, tex, shader, modelSpace, g, c, n1, l1)
    case _ =>
      n1 == m && l1 == l0 && pass1 == pass0 && dtex1 == dtex0
  }

  /** A diffuse pass, once established, never goes away: the pass only grows by mixers. */
  lemma HandlerKeepsPass(h: Handler, tex: string, shader: string, modelSpace: bool,
                         n0: map<string, Node>, l0: set<Link>,
                         pass0: Option<string>, dtex0: Option<string>,
                         n1: map<string, Node>, l1: set<Link>, pass1: Option<string>, dtex1: Option<string>)
    requires tex in n0
    requires HandlerStep(h, tex, shader, modelSpace, n0, l0, pass0, dtex0, n1, l1, pass1, dtex1)
    ensures pass0.Some? ==> pass1.Some?
    ensures n0.Keys <= n1.Keys && l0 <= l1
    ensures pass0.Some? && (h.LinkBase? || h.LinkDecal0? || h.LinkDecal1? || h.LinkDecal2? || h.LinkDetail?) ==>
              pass1.value !in n0 && n1[pass1.value].kind == MixRgbNode &&
              Link(pass0.value, 0, pass1.value, 1) in l1 && Link(tex, 0, pass1.value, 2) in l1
    ensures pass0.None? && (h.LinkBase? || h.LinkDecal0? || h.LinkDecal1? || h.LinkDecal2? || h.LinkDetail?) ==>
              pass1 == Some(tex)
  {
    var m := Labelled(n0, tex, h);
    assert m.Keys == n0.Keys;
    if h.LinkNormal? && n0[tex].image.Some? {
      var g, c :| NormalWiring(m, l0, tex, shader, modelSpace, g, c, n1, l1);
    }
  }

  /**
   * `link_normal_node` sets the image's colour space right after the label:
   * a texture node showing no image (the slot had no source) raises there.
   */
  predicate RaisesAtColorSpace(h: Handler, n: map<string, Node>, tex: string)
    requires tex in n
  {
    h.LinkNormal? && n[tex].image.None?
  }

  /** The links that decide the transparency mixer's factor. */
  function AlphaLinks(dtex: Option<string>, vcol: Option<string>, hasVcol: bool, alphaMixer: string, alphaProduct: string): set<Link>
    requires hasVcol ==> vcol.Some?
  {
    if dtex.Some? && hasVcol then
      {Link(dtex.value, 1, alphaProduct, 1), Link(vcol.value, 1, alphaProduct, 2), Link(alphaProduct, 0, alphaMixer, 0)}
    else if dtex.Some? then {Link(dtex.value, 1, alphaMixer, 0)}
    else if hasVcol then {Link(vcol.value, 1, alphaMixer, 0)}
    else {}
  }

  /**
   * The transparency part of `connect_to_output` took (n1, l1) to (n2, l2):
   * a transparent shader and a mix shader, whose factor is the base
   * texture's alpha, the vertex colours' alpha, or their product through a
   * new multiply mixer, and the mix into the output.
   */
  ghost predicate AlphaStep(n1: map<string, Node>, l1: set<Link>, shader: string, output: string,
                            dtex: Option<string>, vcol: Option<string>, hasVcol: bool,
                            n2: map<string, Node>, l2: set<Link>, transp: string, alphaMixer: string, alphaProduct: string)
    requires hasVcol ==> vcol.Some?
  {
    && transp !in n1 && alphaMixer !in n1 && transp != alphaMixer
    && var n3 := n1[transp := NewNodeOf(BsdfTransparentNode)][alphaMixer := NewNodeOf(MixShaderNode)];
       && (if dtex.Some? && hasVcol then alphaProduct !in n3 && n2 == n3[alphaProduct := MixerFor("Vertex_Color")]
           else n2 == n3)
       && l2 == l1 + AlphaLinks(dtex, vcol, hasVcol, alphaMixer, alphaProduct)
               + {Link(transp, 0, alphaMixer, 1), Link(shader, 0, alphaMixer, 2), Link(alphaMixer, 0, output, 0)}
  }

  /**
   * The wiring of `connect_to_output` after the vertex-colour step took
   * (n1, l1) to (n2, l2): the pass (if any) into the diffuse shader, then
   * for an opaque material the shader into the output, otherwise the
   * transparency part.
   */
  ghost predicate OutputStep(n1: map<string, Node>, l1: set<Link>, pass: Option<string>, shader: string, output: string,
                             dtex: Option<string>, vcol: Option<string>, hasVcol: bool, isOpaque: bool,
                             n2: map<string, Node>, l2: set<Link>, transp: string, alphaMixer: string, alphaProduct: string)
    requires hasVcol ==> vcol.Some?
  {
    var lp := l1 + if pass.Some? then {Link(pass.value, 0, shader, 0)} else {};
    if isOpaque then
      n2 == n1 && l2 == lp + {Link(shader, 0, output, 0)}
    else
      AlphaStep(n1, lp, shader, output, dtex, vcol, hasVcol, n2, l2, transp, alphaMixer, alphaProduct)
  }

  // ---------------------------------------------------------------- global UV offset and scale

  /** The UV-map node of layer `i` exists (the importer's naming is how they are found). */
  predicate IsUvNodeAt(n: map<string, Node>, i: nat) {
    UvNodeName(i) in n && n[UvNodeName(i)].kind == UvMapNode
  }

  /** Layers 0 .. count-1 have UV-map nodes and layer `count` has none. */
  ghost predicate UvRun(n: map<string, Node>, count: nat) {
    (forall j :: 0 <= j < count ==> IsUvNodeAt(n, j)) && !IsUvNodeAt(n, count)
  }

  /** The number of consecutive UV-map nodes from layer 0 on. */
  method CountUvNodes(n: map<string, Node>) returns (count: nat)
    ensures UvRun(n, count)
  {
    count := 0;
    ghost var seen: set<string> := {};
    while IsUvNodeAt(n, count)
      invariant forall j :: 0 <= j < count ==> IsUvNodeAt(n, j)
      invariant seen == set j | 0 <= j < count :: UvNodeName(j)
      invariant seen <= n.Keys && |seen| == count
      decreases |n.Keys| - |seen|
    {
      var next := UvNodeName(count);
      if next in seen {
        var j :| 0 <= j < count && UvNodeName(j) == next;
        UvNodeNameInjective(j, count);
        assert false;
      }
      SubsetCard(seen + {next}, n.Keys);
      seen := seen + {next};
      count := count + 1;
    }
  }

  /** The names the offset-and-scale nodes of one UV layer received. */
  datatype UvTransformNames = UvTransformNames(split: string, combine: string, x: string, y: string)

  function SplitName(i: nat): string { "Separate UV" + NatToString(i) }
  function CombineName(i: nat): string { "Combine UV" + NatToString(i) }
  function XName(i: nat): string { "X offset and scale UV" + NatToString(i) }
  function YName(i: nat): string { "Y offset and scale UV" + NatToString(i) }

  /** Names that extend prefixes with different first letters differ. */
  lemma DistinctByFirst(a: string, b: string, s: string)
    requires |a| > 0 && |b| > 0 && a[0] != b[0] && a <= s
    ensures s != b
  {
    assert s[0] == a[0];
  }

  lemma ClippedNone(n: map<string, Node>, clip: bool)
    ensures Clipped(n, TargetNodes({}), clip) == n
  {
  }

  lemma ClippedKind(n: map<string, Node>, targets: set<string>, clip: bool, k: string)
    requires k in n
    ensures Clipped(n, targets, clip).Keys == n.Keys
    ensures k in Clipped(n, targets, clip) && Clipped(n, targets, clip)[k].kind == n[k].kind
  {
  }

  /** Clipping one more target is one more node update. */
  lemma ClipOne(n: map<string, Node>, targets: set<string>, clip: bool, t: string)
    requires t in n
    ensures var c := Clipped(n, targets, clip);
            t in c &&
            Clipped(n, targets + {t}, clip) == (if clip then c[t := c[t].(extension := "CLIP")] else c)
  {
    var c := Clipped(n, targets, clip);
    var c1 := Clipped(n, targets + {t}, clip);
    if clip {
      assert c1.Keys == c[t := c[t].(extension := "CLIP")].Keys;
    } else {
      assert c1.Keys == c.Keys;
    }
  }

  lemma TargetNodesAdd(r: set<Link>, l: Link)
    ensures TargetNodes(r + {l}) == TargetNodes(r) + {l.toNode}
  {
  }

  /** Rerouting one more link is one removal and one insertion. */
  lemma RetargetOne(l0: set<Link>, done: set<Link>, l: Link, combine: string)
    requires l.fromNode != combine
    ensures (l0 - done) + Retargeted(done, combine) - {l} + {Link(combine, 0, l.toNode, l.toSocket)} ==
            (l0 - (done + {l})) + Retargeted(done + {l}, combine)
  {
  }

  /** A node of kind `k` labelled with its own name. */
  function NamedNode(k: Kind, name: string): Node {
    NewNodeOf(k).(nodeLabel := name)
  }

  /** A multiply-add math node computing `coordinate * scale + offset`. */
  function MathNodeFor(name: string, scale: real, offset: real, clamp: bool): Node {
    NewNodeOf(MathNode).(nodeLabel := name, operation := "MULTIPLY_ADD", useClamp := clamp,
                         inputs := map[1 := scale, 2 := offset])
  }

  /** The links out of the first output of `uv` into image-texture nodes. */
  function UvTargets(n: map<string, Node>, l: set<Link>, uv: string): set<Link> {
    set k | k in l && k.fromNode == uv && k.fromSocket == 0 && k.toNode in n && n[k.toNode].kind == TexImageNode
  }

  /** The same target sockets, now fed by the first output of `combine`. */
  function Retargeted(r: set<Link>, combine: string): set<Link> {
    set k | k in r :: Link(combine, 0, k.toNode, k.toSocket)
  }

  function TargetNodes(r: set<Link>): set<string> {
    set k | k in r :: k.toNode
  }

  /** The nodes after the texture nodes in `targets` were set to clip, when `clip` holds. */
  function Clipped(n: map<string, Node>, targets: set<string>, clip: bool): map<string, Node> {
    map k | k in n :: if clip && k in targets then n[k].(extension := "CLIP") else n[k]
  }

  /** The nodes a UV layer's offset and scale adds, under the names they received. */
  function UvTransformNodes(n: map<string, Node>, names: UvTransformNames, xScale: real, yScale: real,
                            xOffset: real, yOffset: real, clampX: bool, clampY: bool): map<string, Node>
  {
    var clip := clampX && clampY;
    n[names.split := NamedNode(SeparateXyzNode, names.split)]
     [names.combine := NamedNode(CombineXyzNode, names.combine)]
     [names.x := MathNodeFor(names.x, xScale, xOffset, clampX && !clip)]
     [names.y := MathNodeFor(names.y, yScale, yOffset, clampY && !clip)]
  }

  /** The links among a UV layer's new nodes: split x and y through the math nodes into the combine. */
  function UvTransformLinks(names: UvTransformNames): set<Link> {
    {Link(names.split, 0, names.x, 0), Link(names.x, 0, names.combine, 0),
     Link(names.split, 1, names.y, 0), Link(names.y, 0, names.combine, 1)}
  }

  /** Four fresh, pairwise different names, each the preferred name for layer `i` when that was free. */
  ghost predicate FreshUvTransformNames(n: map<string, Node>, i: nat, names: UvTransformNames) {
    && names.split !in n && names.combine !in n && names.x !in n && names.y !in n
    && names.split != names.combine && names.split != names.x && names.split != names.y
    && names.combine != names.x && names.combine != names.y && names.x != names.y
    && (SplitName(i) !in n ==> names.split == SplitName(i))
    && (CombineName(i) !in n ==> names.combine == CombineName(i))
    && (XName(i) !in n ==> names.x == XName(i))
    && (YName(i) !in n ==> names.y == YName(i))
  }

  /**
   * The offset and scale of UV layer `i`, whose UV-map node is `uv`, took
   * the tree from (n0, l0) to (n1, l1): the four new nodes; every link from
   * the UV-map node into an image-texture node now comes from the combine
   * node instead, and those textures clip when both axes clamp; the UV-map
   * node feeds the split node.
   */
  ghost predicate UvIndexStep(n0: map<string, Node>, l0: set<Link>, i: nat, uv: string,
                              xScale: real, yScale: real, xOffset: real, yOffset: real, clampX: bool, clampY: bool,
                              names: UvTransformNames, n1: map<string, Node>, l1: set<Link>)
  {
    var r := UvTargets(n0, l0, uv);
    && FreshUvTransformNames(n0, i, names)
    && n1 == Clipped(UvTransformNodes(n0, names, xScale, yScale, xOffset, yOffset, clampX, clampY),
                     TargetNodes(r), clampX && clampY)
    && l1 == (l0 - r) + Retargeted(r, names.combine) + UvTransformLinks(names) + {Link(uv, 0, names.split, 0)}
  }

  /** The UV-map nodes of layers 0 .. count-1. */
  function UvNodesBelow(count: nat): set<string> {
    set j | 0 <= j < count :: UvNodeName(j)
  }

  /** Step `i` of a run: layer `i`'s offset and scale took state `i` to state `i + 1`. */
  ghost predicate UvChainStep(ns: seq<map<string, Node>>, ls: seq<set<Link>>, names: seq<UvTransformNames>, i: nat,
                              xScale: real, yScale: real, xOffset: real, yOffset: real, clampX: bool, clampY: bool)
  {
    && i + 1 < |ns| && i + 1 < |ls| && i < |names|
    && UvIndexStep(ns[i], ls[i], i, UvNodeName(i), xScale, yScale, xOffset, yOffset, clampX, clampY,
                   names[i], ns[i + 1], ls[i + 1])
  }

  /** A whole run of `global_uv_offset_scale`: one step per UV layer, in layer order. */
  ghost predicate UvChain(ns: seq<map<string, Node>>, ls: seq<set<Link>>, names: seq<UvTransformNames>, count: nat,
                          xScale: real, yScale: real, xOffset: real, yOffset: real, clampX: bool, clampY: bool)
  {
    && |ns| == count + 1 && |ls| == count + 1 && |names| == count
    && forall i :: 0 <= i < count ==> UvChainStep(ns, ls, names, i, xScale, yScale, xOffset, yOffset, clampX, clampY)
  }

  /** A run followed by the step of the next layer is a longer run. */
  lemma UvChainExtend(ns: seq<map<string, Node>>, ls: seq<set<Link>>, names: seq<UvTransformNames>, count: nat,
                      xScale: real, yScale: real, xOffset: real, yOffset: real, clampX: bool, clampY: bool,
                      nm: UvTransformNames, n: map<string, Node>, l: set<Link>)
    requires UvChain(ns, ls, names, count, xScale, yScale, xOffset, yOffset, clampX, clampY)
    requires UvIndexStep(ns[count], ls[count], count, UvNodeName(count), xScale, yScale, xOffset, yOffset,
                         clampX, clampY, nm, n, l)
    ensures UvChain(ns + [n], ls + [l], names + [nm], count + 1, xScale, yScale, xOffset, yOffset, clampX, clampY)
  {
    var ns1, ls1, names1 := ns + [n], ls + [l], names + [nm];
    forall j | 0 <= j < count + 1
      ensures UvChainStep(ns1, ls1, names1, j, xScale, yScale, xOffset, yOffset, clampX, clampY)
    {
      assert ns1[j] == ns[j] && ls1[j] == ls[j];
      if j < count {
        assert UvChainStep(ns, ls, names, j, xScale, yScale, xOffset, yOffset, clampX, clampY);
        assert ns1[j + 1] == ns[j + 1] && ls1[j + 1] == ls[j + 1] && names1[j] == names[j];
      } else {
        assert ns1[j + 1] == n && ls1[j + 1] == l && names1[j] == nm;
      }
    }
  }

  /** One step keeps every node, changing at most the extension of a rerouted texture. */
  lemma UvIndexStepNodes(n0: map<string, Node>, l0: set<Link>, i: nat, uv: string,
                         xScale: real, yScale: real, xOffset: real, yOffset: real, clampX: bool, clampY: bool,
                         names: UvTransformNames, n1: map<string, Node>, l1: set<Link>)
    requires UvIndexStep(n0, l0, i, uv, xScale, yScale, xOffset, yOffset, clampX, clampY, names, n1, l1)
    ensures n0.Keys <= n1.Keys
    ensures forall k :: k in n0 && !(clampX && clampY && k in TargetNodes(UvTargets(n0, l0, uv))) ==> n1[k] == n0[k]
    ensures forall k :: k in n0 && clampX && clampY && k in TargetNodes(UvTargets(n0, l0, uv)) ==>
              n0[k].kind == TexImageNode && n1[k] == n0[k].(extension := "CLIP")
  {
    var r := UvTargets(n0, l0, uv);
    var nA := UvTransformNodes(n0, names, xScale, yScale, xOffset, yOffset, clampX, clampY);
    assert forall k :: k in n0 ==> k in nA && nA[k] == n0[k];
    forall k | k in TargetNodes(r)
      ensures k in n0 && n0[k].kind == TexImageNode
    {
      var t :| t in r && t.toNode == k;
    }
  }

  /** Every link a step adds touches one of the step's new nodes. */
  lemma UvIndexStepAdds(n0: map<string, Node>, l0: set<Link>, i: nat, uv: string,
                        xScale: real, yScale: real, xOffset: real, yOffset: real, clampX: bool, clampY: bool,
                        names: UvTransformNames, n1: map<string, Node>, l1: set<Link>)
    requires UvIndexStep(n0, l0, i, uv, xScale, yScale, xOffset, yOffset, clampX, clampY, names, n1, l1)
    ensures forall k :: k in l1 && k !in l0 ==> k.fromNode !in n0 || k.toNode !in n0
  {
    var r := UvTargets(n0, l0, uv);
    forall k | k in l1 && k !in l0
      ensures k.fromNode !in n0 || k.toNode !in n0
    {
      if k in Retargeted(r, names.combine) {
        var t :| t in r && k == Link(names.combine, 0, t.toNode, t.toSocket);
      }
    }
  }

  /** Step `i` of a run, as `UvIndexStepNodes` describes it. */
  lemma UvChainStepNodes(ns: seq<map<string, Node>>, ls: seq<set<Link>>, names: seq<UvTransformNames>,
                         count: nat, xScale: real, yScale: real, xOffset: real, yOffset: real,
                         clampX: bool, clampY: bool, i: nat)
    requires UvChain(ns, ls, names, count, xScale, yScale, xOffset, yOffset, clampX, clampY)
    requires i < count
    ensures ns[i].Keys <= ns[i + 1].Keys
    ensures forall k :: k in ns[i] && !(clampX && clampY && k in TargetNodes(UvTargets(ns[i], ls[i], UvNodeName(i)))) ==>
              ns[i + 1][k] == ns[i][k]
    ensures forall k :: k in ns[i] && clampX && clampY && k in TargetNodes(UvTargets(ns[i], ls[i], UvNodeName(i))) ==>
              ns[i][k].kind == TexImageNode && ns[i + 1][k] == ns[i][k].(extension := "CLIP")
  {
    assert UvChainStep(ns, ls, names, i, xScale, yScale, xOffset, yOffset, clampX, clampY);
    UvIndexStepNodes(ns[i], ls[i], i, UvNodeName(i), xScale, yScale, xOffset, yOffset, clampX, clampY,
                     names[i], ns[i + 1], ls[i + 1]);
  }

  /** Step `i` of a run keeps every link it does not reroute. */
  lemma UvChainStepLinks(ns: seq<map<string, Node>>, ls: seq<set<Link>>, names: seq<UvTransformNames>,
                         count: nat, xScale: real, yScale: real, xOffset: real, yOffset: real,
                         clampX: bool, clampY: bool, i: nat)
    requires UvChain(ns, ls, names, count, xScale, yScale, xOffset, yOffset, clampX, clampY)
    requires i < count
    ensures forall k :: k in ls[i] && k !in UvTargets(ns[i], ls[i], UvNodeName(i)) ==> k in ls[i + 1]
  {
    assert UvChainStep(ns, ls, names, i, xScale, yScale, xOffset, yOffset, clampX, clampY);
  }

  /** Step `i` of a run, as `UvIndexStepAdds` describes it. */
  lemma UvChainStepAdds(ns: seq<map<string, Node>>, ls: seq<set<Link>>, names: seq<UvTransformNames>,
                         count: nat, xScale: real, yScale: real, xOffset: real, yOffset: real,
                         clampX: bool, clampY: bool, i: nat)
    requires UvChain(ns, ls, names, count, xScale, yScale, xOffset, yOffset, clampX, clampY)
    requires i < count
    ensures forall k :: k in ls[i + 1] && k !in ls[i] ==> k.fromNode !in ns[i] || k.toNode !in ns[i]
  {
    assert UvChainStep(ns, ls, names, i, xScale, yScale, xOffset, yOffset, clampX, clampY);
    UvIndexStepAdds(ns[i], ls[i], i, UvNodeName(i), xScale, yScale, xOffset, yOffset, clampX, clampY,
                     names[i], ns[i + 1], ls[i + 1]);
  }

  /**
   * Across a run, every node present at the start keeps its name and all
   * its settings, except that an image-texture node may have been set to
   * clip, and only when both axes clamp.
   */
  lemma {:induction false} UvChainNodes(ns: seq<map<string, Node>>, ls: seq<set<Link>>, names: seq<UvTransformNames>,
                                        count: nat, xScale: real, yScale: real, xOffset: real, yOffset: real,
                                        clampX: bool, clampY: bool, m: nat)
    requires UvChain(ns, ls, names, count, xScale, yScale, xOffset, yOffset, clampX, clampY)
    requires m <= count
    ensures forall k :: k in ns[0] ==> (k in ns[m] &&
              (ns[m][k] == ns[0][k] ||
               (clampX && clampY && ns[0][k].kind == TexImageNode && ns[m][k] == ns[0][k].(extension := "CLIP"))))
  {
    if m > 0 {
      UvChainNodes(ns, ls, names, count, xScale, yScale, xOffset, yOffset, clampX, clampY, m - 1);
      var i := m - 1;
      UvChainStepNodes(ns, ls, names, count, xScale, yScale, xOffset, yOffset, clampX, clampY, i);
      forall k | k in ns[0]
        ensures k in ns[m] &&
                (ns[m][k] == ns[0][k] ||
                 (clampX && clampY && ns[0][k].kind == TexImageNode && ns[m][k] == ns[0][k].(extension := "CLIP")))
      {
        assert k in ns[i];
        if clampX && clampY && k in TargetNodes(UvTargets(ns[i], ls[i], UvNodeName(i))) {
          assert ns[m][k] == ns[i][k].(extension := "CLIP") && ns[i][k].kind == TexImageNode;
        } else {
          assert ns[m][k] == ns[i][k];
        }
      }
    }
  }

  /** The node names of a run only grow. */
  lemma {:induction false} UvChainKeysGrow(ns: seq<map<string, Node>>, ls: seq<set<Link>>, names: seq<UvTransformNames>,
                                           count: nat, xScale: real, yScale: real, xOffset: real, yOffset: real,
                                           clampX: bool, clampY: bool, a: nat, e: nat)
    requires UvChain(ns, ls, names, count, xScale, yScale, xOffset, yOffset, clampX, clampY)
    requires a <= e <= count
    ensures ns[a].Keys <= ns[e].Keys
  {
    if a < e {
      UvChainKeysGrow(ns, ls, names, count, xScale, yScale, xOffset, yOffset, clampX, clampY, a, e - 1);
      var i := e - 1;
      UvChainStepNodes(ns, ls, names, count, xScale, yScale, xOffset, yOffset, clampX, clampY, i);
    }
  }

  /** A link that no step between `a` and `e` reroutes is still there at `e`. */
  lemma {:induction false} UvChainKeepsLink(ns: seq<map<string, Node>>, ls: seq<set<Link>>, names: seq<UvTransformNames>,
                                            count: nat, xScale: real, yScale: real, xOffset: real, yOffset: real,
                                            clampX: bool, clampY: bool, a: nat, e: nat, l: Link)
    requires UvChain(ns, ls, names, count, xScale, yScale, xOffset, yOffset, clampX, clampY)
    requires a <= e <= count && l in ls[a]
    requires forall m :: a <= m < e ==> l !in UvTargets(ns[m], ls[m], UvNodeName(m))
    ensures l in ls[e]
  {
    if a < e {
      UvChainKeepsLink(ns, ls, names, count, xScale, yScale, xOffset, yOffset, clampX, clampY, a, e - 1, l);
      var i := e - 1;
      UvChainStepLinks(ns, ls, names, count, xScale, yScale, xOffset, yOffset, clampX, clampY, i);
    }
  }

  /** A link between nodes present at `a` that is gone at `a` never comes back. */
  lemma {:induction false} UvChainNeverReadds(ns: seq<map<string, Node>>, ls: seq<set<Link>>, names: seq<UvTransformNames>,
                                              count: nat, xScale: real, yScale: real, xOffset: real, yOffset: real,
                                              clampX: bool, clampY: bool, a: nat, e: nat, l: Link)
    requires UvChain(ns, ls, names, count, xScale, yScale, xOffset, yOffset, clampX, clampY)
    requires a <= e <= count && l !in ls[a] && l.fromNode in ns[a] && l.toNode in ns[a]
    ensures l !in ls[e]
  {
    if a < e {
      UvChainNeverReadds(ns, ls, names, count, xScale, yScale, xOffset, yOffset, clampX, clampY, a, e - 1, l);
      UvChainKeysGrow(ns, ls, names, count, xScale, yScale, xOffset, yOffset, clampX, clampY, a, e - 1);
      var i := e - 1;
      UvChainStepNodes(ns, ls, names, count, xScale, yScale, xOffset, yOffset, clampX, clampY, i);
      UvChainStepAdds(ns, ls, names, count, xScale, yScale, xOffset, yOffset, clampX, clampY, i);
    }
  }

  /** A texture that is set to clip stays so. */
  lemma {:induction false} UvChainKeepsClip(ns: seq<map<string, Node>>, ls: seq<set<Link>>, names: seq<UvTransformNames>,
                                            count: nat, xScale: real, yScale: real, xOffset: real, yOffset: real,
                                            clampX: bool, clampY: bool, a: nat, e: nat, k: string)
    requires UvChain(ns, ls, names, count, xScale, yScale, xOffset, yOffset, clampX, clampY)
    requires a <= e <= count && k in ns[a] && ns[a][k].extension == "CLIP"
    ensures k in ns[e] && ns[e][k].extension == "CLIP"
  {
    if a < e {
      UvChainKeepsClip(ns, ls, names, count, xScale, yScale, xOffset, yOffset, clampX, clampY, a, e - 1, k);
      var i := e - 1;
      UvChainStepNodes(ns, ls, names, count, xScale, yScale, xOffset, yOffset, clampX, clampY, i);
    }
  }

  /** Links from a UV-map node's first output into image-texture nodes, at the start of a run. */
  ghost predicate RerouteCandidate(n0: map<string, Node>, l: Link, count: nat) {
    l.fromNode in UvNodesBelow(count) && l.fromSocket == 0 && l.toNode in n0 && n0[l.toNode].kind == TexImageNode
  }

  /**
   * Every link other than those from a UV-map node's first output into an
   * image-texture node survives `global_uv_offset_scale`.
   */
  lemma UvChainKeepsOtherLinks(ns: seq<map<string, Node>>, ls: seq<set<Link>>, names: seq<UvTransformNames>,
                               count: nat, xScale: real, yScale: real, xOffset: real, yOffset: real,
                               clampX: bool, clampY: bool, l: Link)
    requires UvChain(ns, ls, names, count, xScale, yScale, xOffset, yOffset, clampX, clampY)
    requires forall k :: k in ls[0] ==> k.fromNode in ns[0] && k.toNode in ns[0]
    requires l in ls[0] && !RerouteCandidate(ns[0], l, count)
    ensures l in ls[count]
  {
    UvChainNodes(ns, ls, names, count, xScale, yScale, xOffset, yOffset, clampX, clampY, 0);
    forall m | 0 <= m < count
      ensures l !in UvTargets(ns[m], ls[m], UvNodeName(m))
    {
      UvChainNodes(ns, ls, names, count, xScale, yScale, xOffset, yOffset, clampX, clampY, m);
      if l.fromNode == UvNodeName(m) {
        assert l.fromNode in UvNodesBelow(count);
      }
    }
    UvChainKeepsLink(ns, ls, names, count, xScale, yScale, xOffset, yOffset, clampX, clampY, 0, count, l);
  }

  /**
   * Every link from the first output of layer `j`'s UV-map node into an
   * image-texture node is replaced by a link from that layer's combine node
   * into the same socket, and the texture clips when both axes clamp.
   */
  lemma UvChainReroutes(ns: seq<map<string, Node>>, ls: seq<set<Link>>, names: seq<UvTransformNames>,
                        count: nat, xScale: real, yScale: real, xOffset: real, yOffset: real,
                        clampX: bool, clampY: bool, j: nat, l: Link)
    requires UvChain(ns, ls, names, count, xScale, yScale, xOffset, yOffset, clampX, clampY)
    requires forall k :: k in ls[0] ==> k.fromNode in ns[0] && k.toNode in ns[0]
    requires UvRun(ns[0], count)
    requires j < count && l in ls[0] && l.fromNode == UvNodeName(j) && l.fromSocket == 0
    requires ns[0][l.toNode].kind == TexImageNode
    ensures l !in ls[count]
    ensures Link(names[j].combine, 0, l.toNode, l.toSocket) in ls[count]
    ensures l.toNode in ns[count] && (clampX && clampY ==> ns[count][l.toNode].extension == "CLIP")
  {
    UvChainReachesStep(ns, ls, names, count, xScale, yScale, xOffset, yOffset, clampX, clampY, j, l);
    UvChainNodes(ns, ls, names, count, xScale, yScale, xOffset, yOffset, clampX, clampY, j);
    assert UvChainStep(ns, ls, names, j, xScale, yScale, xOffset, yOffset, clampX, clampY);
    UvIndexStepReroutes(ns[j], ls[j], j, UvNodeName(j), xScale, yScale, xOffset, yOffset, clampX, clampY,
                        names[j], ns[j + 1], ls[j + 1], l);
    UvChainKeysGrow(ns, ls, names, count, xScale, yScale, xOffset, yOffset, clampX, clampY, 0, j + 1);
    UvChainNeverReadds(ns, ls, names, count, xScale, yScale, xOffset, yOffset, clampX, clampY, j + 1, count, l);
    UvChainKeepsRetargeted(ns, ls, names, count, xScale, yScale, xOffset, yOffset, clampX, clampY, j,
                           Link(names[j].combine, 0, l.toNode, l.toSocket));
    UvChainNodes(ns, ls, names, count, xScale, yScale, xOffset, yOffset, clampX, clampY, count);
    if clampX && clampY {
      UvChainKeepsClip(ns, ls, names, count, xScale, yScale, xOffset, yOffset, clampX, clampY, j + 1, count, l.toNode);
    }
  }

  /** A link out of layer `j`'s UV-map node is untouched by the steps of the layers before it. */
  lemma UvChainReachesStep(ns: seq<map<string, Node>>, ls: seq<set<Link>>, names: seq<UvTransformNames>,
                           count: nat, xScale: real, yScale: real, xOffset: real, yOffset: real,
                           clampX: bool, clampY: bool, j: nat, l: Link)
    requires UvChain(ns, ls, names, count, xScale, yScale, xOffset, yOffset, clampX, clampY)
    requires j < count && l in ls[0] && l.fromNode == UvNodeName(j)
    ensures l in ls[j]
  {
    forall m | 0 <= m < j
      ensures l !in UvTargets(ns[m], ls[m], UvNodeName(m))
    {
      if l.fromNode == UvNodeName(m) {
        UvNodeNameInjective(j, m);
      }
    }
    UvChainKeepsLink(ns, ls, names, count, xScale, yScale, xOffset, yOffset, clampX, clampY, 0, j, l);
  }

  /** The step of a link's own layer removes it, adds its replacement and clips its texture. */
  lemma UvIndexStepReroutes(n0: map<string, Node>, l0: set<Link>, i: nat, uv: string,
                            xScale: real, yScale: real, xOffset: real, yOffset: real, clampX: bool, clampY: bool,
                            names: UvTransformNames, n1: map<string, Node>, l1: set<Link>, l: Link)
    requires UvIndexStep(n0, l0, i, uv, xScale, yScale, xOffset, yOffset, clampX, clampY, names, n1, l1)
    requires l in l0 && l.fromNode == uv && l.fromSocket == 0 && l.toNode in n0 && n0[l.toNode].kind == TexImageNode
    requires uv in n0
    ensures l !in l1
    ensures Link(names.combine, 0, l.toNode, l.toSocket) in l1
    ensures l.toNode in n1 && (clampX && clampY ==> n1[l.toNode].extension == "CLIP")
  {
    var r := UvTargets(n0, l0, uv);
    assert l in r;
    UvStepRetargets(r, names.combine, l);
    assert l !in Retargeted(r, names.combine) by {
      assert names.combine !in n0;
    }
    assert l !in UvTransformLinks(names) + {Link(uv, 0, names.split, 0)} by {
      assert names.split !in n0 && names.x !in n0 && names.y !in n0;
    }
    UvIndexStepNodes(n0, l0, i, uv, xScale, yScale, xOffset, yOffset, clampX, clampY, names, n1, l1);
  }

  lemma UvStepRetargets(r: set<Link>, combine: string, l: Link)
    requires l in r
    ensures Link(combine, 0, l.toNode, l.toSocket) in Retargeted(r, combine)
    ensures l.toNode in TargetNodes(r)
    ensures forall k :: k in Retargeted(r, combine) ==> k.fromNode == combine
  {
  }

  /** The replacement link of layer `j` survives the later layers: it leaves a combine node, not a UV-map node. */
  lemma UvChainKeepsRetargeted(ns: seq<map<string, Node>>, ls: seq<set<Link>>, names: seq<UvTransformNames>,
                               count: nat, xScale: real, yScale: real, xOffset: real, yOffset: real,
                               clampX: bool, clampY: bool, j: nat, nl: Link)
    requires UvChain(ns, ls, names, count, xScale, yScale, xOffset, yOffset, clampX, clampY)
    requires UvRun(ns[0], count)
    requires j < count && nl.fromNode == names[j].combine && nl in ls[j + 1]
    ensures nl in ls[count]
  {
    assert UvChainStep(ns, ls, names, j, xScale, yScale, xOffset, yOffset, clampX, clampY);
    assert FreshUvTransformNames(ns[j], j, names[j]);
    UvChainKeysGrow(ns, ls, names, count, xScale, yScale, xOffset, yOffset, clampX, clampY, 0, j);
    forall m | j + 1 <= m < count
      ensures nl !in UvTargets(ns[m], ls[m], UvNodeName(m))
    {
      assert IsUvNodeAt(ns[0], m);
    }
    UvChainKeepsLink(ns, ls, names, count, xScale, yScale, xOffset, yOffset, clampX, clampY, j + 1, count, nl);
  }

  /** The layer loop of `global_uv_offset_scale`, over layers 0 .. count-1 in order. */
  method OffsetAndScaleLayers(tree: NodeTree, count: nat, xScale: real, yScale: real, xOffset: real, yOffset: real,
                              clampX: bool, clampY: bool)
    returns (ghost ns: seq<map<string, Node>>, ghost ls: seq<set<Link>>, ghost names: seq<UvTransformNames>)
    requires tree.Valid() && forall j :: 0 <= j < count ==> IsUvNodeAt(tree.nodes, j)
    modifies tree
    ensures tree.Valid() && old(tree.nodes).Keys <= tree.nodes.Keys
    ensures UvChain(ns, ls, names, count, xScale, yScale, xOffset, yOffset, clampX, clampY)
    ensures ns[0] == old(tree.nodes) && ls[0] == old(tree.links)
    ensures ns[count] == tree.nodes && ls[count] == tree.links
  {
    ns, ls, names := [tree.nodes], [tree.links], [];
    for i := 0 to count
      invariant tree.Valid() && old(tree.nodes).Keys <= tree.nodes.Keys
      invariant UvChain(ns, ls, names, i, xScale, yScale, xOffset, yOffset, clampX, clampY)
      invariant ns[0] == old(tree.nodes) && ls[0] == old(tree.links)
      invariant ns[i] == tree.nodes && ls[i] == tree.links
    {
      assert IsUvNodeAt(old(tree.nodes), i);
      var nm := ProcessUvNode(tree, i, UvNodeName(i), xScale, yScale, xOffset, yOffset, clampX, clampY);
      UvChainExtend(ns, ls, names, i, xScale, yScale, xOffset, yOffset, clampX, clampY, nm, tree.nodes, tree.links);
      ns, ls, names := ns + [tree.nodes], ls + [tree.links], names + [nm];
    }
  }

  /** One layer's step of `global_uv_offset_scale`. */
  method ProcessUvNode(tree: NodeTree, i: nat, uv: string, xScale: real, yScale: real, xOffset: real, yOffset: real,
                       clampX: bool, clampY: bool) returns (names: UvTransformNames)
    requires tree.Valid() && uv in tree.nodes
    modifies tree
    ensures tree.Valid() && old(tree.nodes).Keys <= tree.nodes.Keys
    ensures UvIndexStep(old(tree.nodes), old(tree.links), i, uv, xScale, yScale, xOffset, yOffset, clampX, clampY,
                        names, tree.nodes, tree.links)
  {
    names := AddUvTransform(tree, i, xScale, yScale, xOffset, yOffset, clampX, clampY);
    ghost var nA, lA := tree.nodes, tree.links;
    assert UvTargets(nA, lA, uv) == UvTargets(old(tree.nodes), old(tree.links), uv);
    ghost var r := RerouteUvLinks(tree, uv, names.combine, clampX && clampY);
    tree.NewLink(Link(uv, 0, names.split, 0));
    assert r * UvTransformLinks(names) == {};
  }

  /** The split, combine and two math nodes of one layer, and the links among them. */
  method AddUvTransform(tree: NodeTree, i: nat, xScale: real, yScale: real, xOffset: real, yOffset: real, clampX: bool, clampY: bool)
    returns (names: UvTransformNames)
    requires tree.Valid()
    modifies tree
    ensures tree.Valid()
    ensures FreshUvTransformNames(old(tree.nodes), i, names)
    ensures tree.nodes == UvTransformNodes(old(tree.nodes), names, xScale, yScale, xOffset, yOffset, clampX, clampY)
    ensures tree.links == old(tree.links) + UvTransformLinks(names)
  {
    var split, combine := AddSplitCombine(tree, i);
    DistinctByFirst(SplitName(i), XName(i), split);
    DistinctByFirst(CombineName(i), XName(i), combine);
    DistinctByFirst(SplitName(i), YName(i), split);
    DistinctByFirst(CombineName(i), YName(i), combine);
    var x, y := AddAxes(tree, i, split, combine, xScale, yScale, xOffset, yOffset, clampX, clampY);
    names := UvTransformNames(split, combine, x, y);
  }

  /** The split and combine nodes of layer `i`. */
  method AddSplitCombine(tree: NodeTree, i: nat) returns (split: string, combine: string)
    requires tree.Valid()
    modifies tree
    ensures tree.Valid()
    ensures split !in old(tree.nodes) && combine !in old(tree.nodes) && split != combine
    ensures SplitName(i) <= split && CombineName(i) <= combine
    ensures SplitName(i) !in old(tree.nodes) ==> split == SplitName(i)
    ensures CombineName(i) !in old(tree.nodes) ==> combine == CombineName(i)
    ensures tree.nodes == old(tree.nodes)[split := NamedNode(SeparateXyzNode, split)]
                                         [combine := NamedNode(CombineXyzNode, combine)]
    ensures tree.links == old(tree.links)
  {
    split := AddLabelled(tree, SeparateXyzNode, SplitName(i));
    DistinctByFirst(SplitName(i), CombineName(i), split);
    combine := AddLabelled(tree, CombineXyzNode, CombineName(i));
  }

  /** The two math nodes of layer `i` and the links through them from `split` to `combine`. */
  method AddAxes(tree: NodeTree, i: nat, split: string, combine: string, xScale: real, yScale: real, xOffset: real, yOffset: real,
                 clampX: bool, clampY: bool) returns (x: string, y: string)
    requires tree.Valid() && split in tree.nodes && combine in tree.nodes
    modifies tree
    ensures tree.Valid()
    ensures x !in old(tree.nodes) && y !in old(tree.nodes) && x != y
    ensures XName(i) !in old(tree.nodes) ==> x == XName(i)
    ensures YName(i) !in old(tree.nodes) ==> y == YName(i)
    ensures tree.nodes == old(tree.nodes)[x := MathNodeFor(x, xScale, xOffset, clampX && !(clampX && clampY))]
                                         [y := MathNodeFor(y, yScale, yOffset, clampY && !(clampX && clampY))]
    ensures tree.links == old(tree.links) + UvTransformLinks(UvTransformNames(split, combine, x, y))
  {
    var clip := clampX && clampY;
    x := AddAxis(tree, XName(i), split, 0, combine, 0, xScale, xOffset, clampX && !clip);
    DistinctByFirst(XName(i), YName(i), x);
    y := AddAxis(tree, YName(i), split, 1, combine, 1, yScale, yOffset, clampY && !clip);
  }

  /** One math node, fed by output `out` of `split` and feeding input `into` of `combine`. */
  method AddAxis(tree: NodeTree, desired: string, split: string, out: nat, combine: string, into: nat,
                 scale: real, offset: real, clamp: bool) returns (name: string)
    requires tree.Valid() && split in tree.nodes && combine in tree.nodes
    modifies tree
    ensures tree.Valid()
    ensures name !in old(tree.nodes) && desired <= name && (desired !in old(tree.nodes) ==> name == desired)
    ensures tree.nodes == old(tree.nodes)[name := MathNodeFor(name, scale, offset, clamp)]
    ensures tree.links == old(tree.links) + {Link(split, out, name, 0), Link(name, 0, combine, into)}
  {
    name := AddMath(tree, desired, scale, offset, clamp);
    tree.NewLink(Link(split, out, name, 0));
    tree.NewLink(Link(name, 0, combine, into));
  }

  /** A new node of kind `k` under a free name derived from `desired`, labelled with that name. */
  method AddLabelled(tree: NodeTree, k: Kind, desired: string) returns (name: string)
    requires tree.Valid()
    modifies tree
    ensures tree.Valid()
    ensures name !in old(tree.nodes) && desired <= name && (desired !in old(tree.nodes) ==> name == desired)
    ensures tree.nodes == old(tree.nodes)[name := NamedNode(k, name)] && tree.links == old(tree.links)
  {
    name := tree.NewNode(k, desired);
    tree.SetNode(name, tree.nodes[name].(nodeLabel := name));
  }

  /** A new multiply-add math node under a free name derived from `desired`. */
  method AddMath(tree: NodeTree, desired: string, scale: real, offset: real, clamp: bool) returns (name: string)
    requires tree.Valid()
    modifies tree
    ensures tree.Valid()
    ensures name !in old(tree.nodes) && desired <= name && (desired !in old(tree.nodes) ==> name == desired)
    ensures tree.nodes == old(tree.nodes)[name := MathNodeFor(name, scale, offset, clamp)] && tree.links == old(tree.links)
  {
    name := tree.NewNode(MathNode, desired);
    tree.SetNode(name, MathNodeFor(name, scale, offset, clamp));
  }

  /**
   * The relinking loop of one layer: each link from the first output of
   * `uv` into an image-texture node is replaced by one from the first
   * output of `combine`, and the texture clips when `clip` holds.
   */
  method RerouteUvLinks(tree: NodeTree, uv: string, combine: string, clip: bool) returns (ghost r: set<Link>)
    requires tree.Valid() && combine in tree.nodes && combine != uv
    modifies tree
    ensures tree.Valid()
    ensures r == UvTargets(old(tree.nodes), old(tree.links), uv)
    ensures tree.nodes == Clipped(old(tree.nodes), TargetNodes(r), clip)
    ensures tree.links == (old(tree.links) - r) + Retargeted(r, combine)
  {
    r := UvTargets(tree.nodes, tree.links, uv);
    ghost var n0, l0 := tree.nodes, tree.links;
    var pending := set k | k in tree.links && k.fromNode == uv && k.fromSocket == 0;
    ghost var done: set<Link> := {};
    ClippedNone(n0, clip);
    while pending != {}
      invariant tree.Valid() && combine in tree.nodes && tree.nodes.Keys == n0.Keys
      invariant pending <= l0 && done <= r && pending * done == {}
      invariant forall k :: k in pending ==> k.fromNode == uv && k.fromSocket == 0
      invariant forall k :: k in r ==> k in done || k in pending
      invariant tree.nodes == Clipped(n0, TargetNodes(done), clip)
      invariant tree.links == (l0 - done) + Retargeted(done, combine)
      decreases |pending|
    {
      var l :| l in pending;
      pending := pending - {l};
      assert l.toNode in n0;
      done := RerouteIfTexture(tree, l, combine, clip, n0, l0, done);
      assert l in r <==> n0[l.toNode].kind == TexImageNode;
    }
    assert done == r;
  }

  /** One iteration of the relinking loop: link `l` is moved when it feeds an image-texture node. */
  method RerouteIfTexture(tree: NodeTree, l: Link, combine: string, clip: bool,
                          ghost n0: map<string, Node>, ghost l0: set<Link>, ghost done: set<Link>)
    returns (ghost done1: set<Link>)
    requires tree.Valid() && combine in tree.nodes && l.fromNode != combine && l.toNode in n0
    requires tree.nodes == Clipped(n0, TargetNodes(done), clip)
    requires tree.links == (l0 - done) + Retargeted(done, combine)
    modifies tree
    ensures tree.Valid() && combine in tree.nodes && tree.nodes.Keys == n0.Keys
    ensures done1 == if n0[l.toNode].kind == TexImageNode then done + {l} else done
    ensures tree.nodes == Clipped(n0, TargetNodes(done1), clip)
    ensures tree.links == (l0 - done1) + Retargeted(done1, combine)
  {
    ClippedKind(n0, TargetNodes(done), clip, l.toNode);
    if tree.nodes[l.toNode].kind != TexImageNode {
      return done;
    }
    RetargetOne(l0, done, l, combine);
    ClipOne(n0, TargetNodes(done), clip, l.toNode);
    TargetNodesAdd(done, l);
    RerouteLink(tree, l, combine, clip);
    done1 := done + {l};
  }

  /** Moving link `l` to the first output of `combine`, and clipping its texture when `clip` holds. */
  method RerouteLink(tree: NodeTree, l: Link, combine: string, clip: bool)
    requires tree.Valid() && combine in tree.nodes && l.toNode in tree.nodes
    modifies tree
    ensures tree.Valid()
    ensures tree.links == old(tree.links) - {l} + {Link(combine, 0, l.toNode, l.toSocket)}
    ensures tree.nodes == if clip then old(tree.nodes)[l.toNode := old(tree.nodes)[l.toNode].(extension := "CLIP")]
                          else old(tree.nodes)
  {
    tree.RemoveLink(l);
    tree.NewLink(Link(combine, 0, l.toNode, l.toSocket));
    if clip {
      tree.SetNode(l.toNode, tree.nodes[l.toNode].(extension := "CLIP"));
    }
  }

  // ---------------------------------------------------------------- default nodes

  /** An emptied tree holding only a material output and a diffuse shader under their default names. */
  method ResetTree(tree: NodeTree) returns (output: string, shader: string)
    modifies tree
    ensures tree.Valid()
    ensures output == DefaultName(OutputMaterialNode) && shader == DefaultName(BsdfDiffuseNode)
    ensures tree.nodes == map[output := NewNodeOf(OutputMaterialNode), shader := NewNodeOf(BsdfDiffuseNode)]
    ensures tree.links == {}
  {
    tree.Clear();
    output := tree.NewNode(OutputMaterialNode, DefaultName(OutputMaterialNode));
    shader := tree.NewNode(BsdfDiffuseNode, DefaultName(BsdfDiffuseNode));
  }

  // ---------------------------------------------------------------- diffuse pass

  /** The mixer `connect_to_pass` puts between an existing pass and a texture. */
  method AddPassMixer(tree: NodeTree, pass: string, tex: string, textureType: string) returns (mixer: string)
    requires tree.Valid() && tex in tree.nodes && pass in tree.nodes
    modifies tree
    ensures tree.Valid() && mixer in tree.nodes
    ensures PassStep(old(tree.nodes), old(tree.links), Some(pass), tex, textureType, tree.nodes, tree.links, mixer)
  {
    mixer := tree.NewNode(MixRgbNode, DefaultName(MixRgbNode));
    tree.SetNode(mixer, MixerFor(textureType));
    if textureType == "Decal" {
      tree.NewLink(Link(tex, 1, mixer, 0));
    }
    tree.NewLink(Link(pass, 0, mixer, 1));
    tree.NewLink(Link(tex, 0, mixer, 2));
    assert tree.links == old(tree.links) + PassLinks(pass, tex, mixer, textureType);
  }

  /** The label (or, for the environment slot, the blend type) a handler gives its texture node. */
  method LabelTexture(tree: NodeTree, tex: string, h: Handler)
    requires tree.Valid() && tex in tree.nodes
    modifies tree`nodes
    ensures tree.Valid() && tree.nodes == Labelled(old(tree.nodes), tex, h)
  {
    if SetsLabel(h) {
      tree.SetNode(tex, tree.nodes[tex].(nodeLabel := SlotName(h)));
    } else if h.LinkEnvironment? {
      tree.SetNode(tex, tree.nodes[tex].(blendType := "ADD"));
    }
  }

  /** The InvertY group node and, for tangent-space normals, the normal-map node of `link_normal_node`. */
  method LinkNormalMap(tree: NodeTree, tex: string, shader: string, modelSpace: bool)
    returns (ghost g: string, ghost c: string)
    requires tree.Valid() && tex in tree.nodes && shader in tree.nodes
    modifies tree
    ensures tree.Valid()
    ensures NormalWiring(old(tree.nodes), old(tree.links), tex, shader, modelSpace, g, c, tree.nodes, tree.links)
  {
    var group := tree.NewNode(GroupNode, DefaultName(GroupNode));
    tree.SetNode(group, tree.nodes[group].(nodeGroup := INVERT_Y_GROUP));
    g, c := group, "";
    tree.NewLink(Link(tex, 0, group, 0));
    if modelSpace {
      tree.NewLink(Link(group, 0, shader, 2));
      return;
    }
    var conv := tree.NewNode(NormalMapNode, DefaultName(NormalMapNode));
    c := conv;
    tree.NewLink(Link(group, 0, conv, 1));
    tree.NewLink(Link(conv, 0, shader, 2));
  }

  // ---------------------------------------------------------------- transparency

  /** The transparent shader and the mix shader of `connect_to_output`, under fresh names. */
  method AddAlphaShaders(tree: NodeTree) returns (transp: string, alphaMixer: string)
    requires tree.Valid()
    modifies tree`nodes
    ensures tree.Valid() && tree.links == old(tree.links)
    ensures transp !in old(tree.nodes) && alphaMixer !in old(tree.nodes) && transp != alphaMixer
    ensures tree.nodes == old(tree.nodes)[transp := NewNodeOf(BsdfTransparentNode)][alphaMixer := NewNodeOf(MixShaderNode)]
  {
    transp := tree.NewNode(BsdfTransparentNode, DefaultName(BsdfTransparentNode));
    alphaMixer := tree.NewNode(MixShaderNode, DefaultName(MixShaderNode));
  }

  /** The transparent shader and the diffuse shader into the mix shader, and the mix shader into the output. */
  method LinkAlphaMixer(tree: NodeTree, transp: string, shader: string, alphaMixer: string, output: string)
    requires tree.Valid() && transp in tree.nodes && shader in tree.nodes && alphaMixer in tree.nodes && output in tree.nodes
    modifies tree`links
    ensures tree.Valid()
    ensures tree.links == old(tree.links) + {Link(transp, 0, alphaMixer, 1), Link(shader, 0, alphaMixer, 2), Link(alphaMixer, 0, output, 0)}
  {
    tree.NewLink(Link(transp, 0, alphaMixer, 1));
    tree.NewLink(Link(shader, 0, alphaMixer, 2));
    tree.NewLink(Link(alphaMixer, 0, output, 0));
  }

  // ---------------------------------------------------------------- the material

  /** The host material the wrapper fills. */
  class Material {
    var useBackfaceCulling: bool
    var useNodes: bool
    var blendMethod: string
    /** The material's niftools shader setting `model_space_normals`. */
    var modelSpaceNormals: bool
    const nodeTree: NodeTree

    constructor(blendMethod0: string, modelSpaceNormals0: bool, tree0: NodeTree)
      ensures useBackfaceCulling == false && useNodes == false
      ensures blendMethod == blendMethod0 && modelSpaceNormals == modelSpaceNormals0 && nodeTree == tree0
    {
      useBackfaceCulling := false;
      useNodes := false;
      blendMethod := blendMethod0;
      modelSpaceNormals := modelSpaceNormals0;
      nodeTree := tree0;
    }
  }

  // ---------------------------------------------------------------- the wrapper

  class NodesWrapper {
    const loader: TL.TextureLoader
    var mat: Material?
    var tree: NodeTree?
    var output: Option<string>
    var diffuseShader: Option<string>
    var diffusePass: Option<string>
    var diffuseTexture: Option<string>
    var vcol: Option<string>

    /** Every node the wrapper remembers is a node of the material's tree. */
    ghost predicate Ready()
      reads this, mat, tree, loader
    {
      && mat != null && tree != null && tree == mat.nodeTree && tree.Valid() && loader.Valid()
      && output.Some? && output.value in tree.nodes
      && diffuseShader.Some? && diffuseShader.value in tree.nodes
      && (diffusePass.Some? ==> diffusePass.value in tree.nodes)
      && (diffuseTexture.Some? ==> diffuseTexture.value in tree.nodes)
    }

    constructor(loader0: TL.TextureLoader)
      ensures loader == loader0 && mat == null && tree == null
      ensures output.None? && diffuseShader.None? && diffusePass.None? && diffuseTexture.None? && vcol.None?
    {
      loader := loader0;
      mat := null;
      tree := null;
      output := None;
      diffuseShader := None;
      diffusePass := None;
      diffuseTexture := None;
      vcol := None;
    }

    /** The material whose tree the wrapper will fill (the caller assigns `b_mat`). */
    method SetMaterial(m: Material)
      modifies this`mat
      ensures mat == m
    {
      mat := m;
    }

    /**
     * `clear_default_nodes`: culling and nodes on, every node removed, then
     * a fresh material output and diffuse shader; no pass, no base texture.
     */
    method ClearDefaultNodes()
      requires mat != null && loader.Valid()
      modifies this`tree, this`output, this`diffuseShader, this`diffusePass, this`diffuseTexture, mat, mat.nodeTree
      ensures Ready()
      ensures mat == old(mat) && mat.useBackfaceCulling && mat.useNodes && mat.blendMethod == old(mat.blendMethod)
      ensures tree == mat.nodeTree
      ensures output == Some(DefaultName(OutputMaterialNode)) && diffuseShader == Some(DefaultName(BsdfDiffuseNode))
      ensures tree.nodes == map[output.value := NewNodeOf(OutputMaterialNode),
                                diffuseShader.value := NewNodeOf(BsdfDiffuseNode)]
      ensures tree.links == {}
      ensures diffusePass.None? && diffuseTexture.None? && vcol == old(vcol)
    {
      mat.useBackfaceCulling := true;
      mat.useNodes := true;
      tree := mat.nodeTree;
      var o, s := ResetTree(tree);
      output, diffuseShader := Some(o), Some(s);
      diffusePass := None;
      diffuseTexture := None;
    }

    /**
     * `set_uv_map(tex, i, reflective)`: a reflective texture gets a new
     * texture-coordinate node on its reflection output; otherwise the UV-map
     * node of layer `i` is reused or created, and feeds the texture.
     */
    method SetUvMap(tex: string, uvIndex: nat, reflective: bool) returns (ghost uv: string)
      requires Ready() && tex in tree.nodes
      modifies tree
      ensures Ready()
      ensures !reflective ==> (uv == UvNodeName(uvIndex) &&
                UvMapStep(old(tree.nodes), old(tree.links), tex, uvIndex, tree.nodes, tree.links))
      ensures reflective ==> (uv !in old(tree.nodes) && tree.nodes == old(tree.nodes)[uv := NewNodeOf(TexCoordNode)] &&
                tree.links == old(tree.links) + {Link(uv, 6, tex, 0)})
    {
      if reflective {
        var c := tree.NewNode(TexCoordNode, DefaultName(TexCoordNode));
        tree.NewLink(Link(c, 6, tex, 0));
        uv := c;
      } else {
        var name := UvNodeName(uvIndex);
        if name !in tree.nodes {
          var n := tree.NewNode(UvMapNode, name);
          tree.SetNode(n, tree.nodes[n].(uvMap := UvMapName(uvIndex)));
        }
        tree.NewLink(Link(name, 0, tex, 0));
        uv := name;
      }
    }

    /**
     * `global_uv_offset_scale`: for each UV-map node of layers 0, 1, ...
     * (up to the first missing one), the offset-and-scale nodes between the
     * UV-map node and the image textures it fed (`UvIndexStep`, in layer
     * order).
     */
    method GlobalUvOffsetScale(xScale: real, yScale: real, xOffset: real, yOffset: real, clampX: bool, clampY: bool)
      returns (ghost count: nat, ghost ns: seq<map<string, Node>>, ghost ls: seq<set<Link>>,
               ghost names: seq<UvTransformNames>)
      requires Ready()
      modifies tree
      ensures Ready()
      ensures UvRun(old(tree.nodes), count)
      ensures UvChain(ns, ls, names, count, xScale, yScale, xOffset, yOffset, clampX, clampY)
      ensures ns[0] == old(tree.nodes) && ls[0] == old(tree.links)
      ensures ns[count] == tree.nodes && ls[count] == tree.links
    {
      var c := CountUvNodes(tree.nodes);
      count := c;
      ns, ls, names := OffsetAndScaleLayers(tree, c, xScale, yScale, xOffset, yOffset, clampX, clampY);
    }

    /** `connect_to_pass(pass, tex, type)`. */
    method ConnectToPass(pass: Option<string>, tex: string, textureType: string) returns (r: string)
      requires Ready() && tex in tree.nodes && (pass.Some? ==> pass.value in tree.nodes)
      modifies tree
      ensures Ready() && r in tree.nodes
      ensures PassStep(old(tree.nodes), old(tree.links), pass, tex, textureType, tree.nodes, tree.links, r)
    {
      if pass.Some? {
        r := AddPassMixer(tree, pass.value, tex, textureType);
        return;
      }
      r := tex;
    }

    /** `connect_vertex_colors_to_pass`: a new "RGBA" vertex-colour node multiplied into the pass. */
    method ConnectVertexColorsToPass() returns (ghost n1: map<string, Node>)
      requires Ready()
      modifies this`vcol, this`diffusePass, tree
      ensures Ready() && vcol.Some?
      ensures vcol.value !in old(tree.nodes)
      ensures n1 == old(tree.nodes)[vcol.value := NewNodeOf(VertexColorNode).(layerName := "RGBA")]
      ensures diffusePass.Some? &&
              PassStep(n1, old(tree.links), old(diffusePass), vcol.value, "Vertex_Color", tree.nodes, tree.links, diffusePass.value)
    {
      var v := tree.NewNode(VertexColorNode, DefaultName(VertexColorNode));
      tree.SetNode(v, tree.nodes[v].(layerName := "RGBA"));
      vcol := Some(v);
      n1 := tree.nodes;
      var p := ConnectToPass(diffusePass, v, "Vertex_Color");
      diffusePass := Some(p);
    }

    /**
     * `connect_to_output(has_vcol)`: the optional vertex-colour step, then
     * the wiring of the pass, the shader and the output (`OutputStep`).
     */
    method ConnectToOutput(hasVcol: bool)
      returns (ghost n1: map<string, Node>, ghost l1: set<Link>, ghost transp: string, ghost alphaMixer: string,
               ghost alphaProduct: string)
      requires Ready()
      modifies this`vcol, this`diffusePass, tree
      ensures Ready()
      ensures !hasVcol ==> (n1 == old(tree.nodes) && l1 == old(tree.links) && diffusePass == old(diffusePass) && vcol == old(vcol))
      ensures hasVcol ==> (vcol.Some? && vcol.value !in old(tree.nodes) && diffusePass.Some? &&
                PassStep(old(tree.nodes)[vcol.value := NewNodeOf(VertexColorNode).(layerName := "RGBA")], old(tree.links),
                         old(diffusePass), vcol.value, "Vertex_Color", n1, l1, diffusePass.value))
      ensures OutputStep(n1, l1, diffusePass, diffuseShader.value, output.value, diffuseTexture, vcol, hasVcol,
                         mat.blendMethod == "OPAQUE", tree.nodes, tree.links, transp, alphaMixer, alphaProduct)
    {
      if hasVcol {
        var _ := ConnectVertexColorsToPass();
      }
      n1, l1 := tree.nodes, tree.links;
      transp, alphaMixer, alphaProduct := WireOutput(hasVcol);
    }

    /** The part of `connect_to_output` after the vertex-colour step. */
    method WireOutput(hasVcol: bool) returns (ghost transp: string, ghost alphaMixer: string, ghost alphaProduct: string)
      requires Ready()
      requires hasVcol ==> vcol.Some? && vcol.value in tree.nodes
      modifies tree
      ensures Ready()
      ensures OutputStep(old(tree.nodes), old(tree.links), diffusePass, diffuseShader.value, output.value, diffuseTexture,
                         vcol, hasVcol, mat.blendMethod == "OPAQUE", tree.nodes, tree.links, transp, alphaMixer, alphaProduct)
    {
      transp, alphaMixer, alphaProduct := "", "", "";
      if diffusePass.Some? {
        tree.NewLink(Link(diffusePass.value, 0, diffuseShader.value, 0));
      }
      if mat.blendMethod == "OPAQUE" {
        tree.NewLink(Link(diffuseShader.value, 0, output.value, 0));
      } else {
        transp, alphaMixer, alphaProduct := WireAlpha(hasVcol);
      }
    }

    /** The transparency part of `connect_to_output`. */
    method WireAlpha(hasVcol: bool) returns (ghost transp: string, ghost alphaMixer: string, ghost alphaProduct: string)
      requires Ready()
      requires hasVcol ==> vcol.Some? && vcol.value in tree.nodes
      modifies tree
      ensures Ready()
      ensures AlphaStep(old(tree.nodes), old(tree.links), diffuseShader.value, output.value, diffuseTexture,
                        vcol, hasVcol, tree.nodes, tree.links, transp, alphaMixer, alphaProduct)
    {
      var tr, am := AddAlphaShaders(tree);
      transp, alphaMixer := tr, am;
      alphaProduct := WireAlphaFactor(hasVcol, am);
      LinkAlphaMixer(tree, tr, diffuseShader.value, am, output.value);
    }

    /** The links that feed the transparency mixer's factor. */
    method WireAlphaFactor(hasVcol: bool, alphaMixer: string) returns (ghost alphaProduct: string)
      requires Ready() && alphaMixer in tree.nodes
      requires hasVcol ==> vcol.Some? && vcol.value in tree.nodes
      modifies tree
      ensures Ready()
      ensures diffuseTexture.Some? && hasVcol ==>
                (alphaProduct !in old(tree.nodes) && tree.nodes == old(tree.nodes)[alphaProduct := MixerFor("Vertex_Color")])
      ensures !(diffuseTexture.Some? && hasVcol) ==> tree.nodes == old(tree.nodes)
      ensures tree.links == old(tree.links) + AlphaLinks(diffuseTexture, vcol, hasVcol, alphaMixer, alphaProduct)
    {
      alphaProduct := "";
      if diffuseTexture.Some? && hasVcol {
        var ap := tree.NewNode(MixRgbNode, DefaultName(MixRgbNode));
        alphaProduct := ap;
        tree.SetNode(ap, MixerFor("Vertex_Color"));
        tree.NewLink(Link(diffuseTexture.value, 1, ap, 1));
        tree.NewLink(Link(vcol.value, 1, ap, 2));
        tree.NewLink(Link(ap, 0, alphaMixer, 0));
      } else if diffuseTexture.Some? {
        tree.NewLink(Link(diffuseTexture.value, 1, alphaMixer, 0));
      } else if hasVcol {
        tree.NewLink(Link(vcol.value, 1, alphaMixer, 0));
      }
    }

    /**
     * `create_texture_slot(info)`: the texture source is imported through
     * the shared loader, a new
     * image-texture node shows it with "Smart" interpolation, and the UV-map
     * node of the descriptor's UV set (0 for a bare name) feeds it.
     */
    method CreateTextureSlot(env: TL.Environment, info: TexInfo)
      returns (tex: string, ghost img: Option<TL.Image>, ghost n1: map<string, Node>)
      requires Ready()
      modifies tree, loader
      ensures Ready()
      ensures tex !in old(tree.nodes) && n1 == old(tree.nodes)[tex := TextureNodeFor(img)]
      ensures UvMapStep(n1, old(tree.links), tex, UvIndexOf(info), tree.nodes, tree.links)
      ensures img == TL.ImportedImage(env, old(loader.State()), SourceOf(info))
      ensures loader.State() == TL.StateAfterImport(env, old(loader.State()), SourceOf(info))
      ensures loader.written == old(loader.written) + TL.WrittenByImport(env, old(loader.State()), SourceOf(info))
    {
      var image := loader.ImportTextureSource(env, SourceOf(info));
      img := image;
      tex := tree.NewNode(TexImageNode, DefaultName(TexImageNode));
      tree.SetNode(tex, TextureNodeFor(image));
      n1 := tree.nodes;
      var _ := SetUvMap(tex, UvIndexOf(info), false);
    }

    /**
     * The `link_<slot>_node` handlers. The normal handler raises at the
     * colour-space line when the texture node shows no image.
     */
    method ApplyHandler(h: Handler, tex: string) returns (r: Result<()>)
      requires Ready() && tex in tree.nodes
      modifies this`diffusePass, this`diffuseTexture, tree
      ensures Ready()
      ensures r.Err? <==> RaisesAtColorSpace(h, old(tree.nodes), tex)
      ensures r.Err? ==> r.error == AttributeError("colorspace_settings")
      ensures HandlerStep(h, tex, diffuseShader.value, mat.modelSpaceNormals, old(tree.nodes), old(tree.links),
                          old(diffusePass), old(diffuseTexture), tree.nodes, tree.links, diffusePass, diffuseTexture)
    {
      LabelTexture(tree, tex, h);
      r := Ok(());
      if h.LinkNormal? {
        if tree.nodes[tex].image.None? {
          r := Err(AttributeError("colorspace_settings"));
          return;
        }
        var _, _ := LinkNormalMap(tree, tex, diffuseShader.value, mat.modelSpaceNormals);
        return;
      }
      if h.LinkBase? {
        diffuseTexture := Some(tex);
        var p := ConnectToPass(diffusePass, tex, "Detail");
        diffusePass := Some(p);
        return;
      }
      if h.LinkDecal0? || h.LinkDecal1? || h.LinkDecal2? || h.LinkDetail? {
        var p := ConnectToPass(diffusePass, tex, if h.LinkDetail? then "Detail" else "Decal");
        diffusePass := Some(p);
      }
    }

    /**
     * `create_and_link(slot, info)`: dispatch on `link_<slot>_node`; an
     * unknown slot changes nothing and creates no node, a known one creates
     * the texture slot and hands it to its handler, which fails for a normal
     * map whose descriptor has no source.
     */
    method CreateAndLink(env: TL.Environment, slotName: string, info: TexInfo)
      returns (r: Result<()>, ghost h: Option<Handler>, ghost tex: string, ghost n1: map<string, Node>, ghost l1: set<Link>)
      requires Ready()
      modifies this`diffusePass, this`diffuseTexture, tree, loader
      ensures Ready()
      ensures h == FindHandler(HandlerNameFor(slotName))
      ensures r.Err? <==> h.Some? && h.value.LinkNormal? && !TL.HasSource(SourceOf(info))
      ensures r.Err? ==> r.error == AttributeError("colorspace_settings")
      ensures h.None? ==> (tree.nodes == old(tree.nodes) && tree.links == old(tree.links) &&
                         diffusePass == old(diffusePass) && diffuseTexture == old(diffuseTexture) &&
                         unchanged(loader))
      ensures h.Some? ==> (tex !in old(tree.nodes) && tex in n1 && old(tree.nodes).Keys <= n1.Keys &&
                         n1[tex].kind == TexImageNode && n1[tex].interpolation == "Smart" &&
                         n1[tex] == TextureNodeFor(TL.ImportedImage(env, old(loader.State()), SourceOf(info))) &&
                         loader.State() == TL.StateAfterImport(env, old(loader.State()), SourceOf(info)) &&
                         loader.written == old(loader.written) + TL.WrittenByImport(env, old(loader.State()), SourceOf(info)) &&
                         UvMapStep(old(tree.nodes)[tex := n1[tex]], old(tree.links), tex, UvIndexOf(info), n1, l1) &&
                         HandlerStep(h.value, tex, diffuseShader.value, mat.modelSpaceNormals, n1, l1,
                                     old(diffusePass), old(diffuseTexture), tree.nodes, tree.links, diffusePass, diffuseTexture))
    {
      var handler := FindHandler(HandlerNameFor(slotName));
      h := handler;
      r := Ok(());
      tex, n1, l1 := "", tree.nodes, tree.links;
      if handler.None? {
        return;
      }
      var t, img, n0 := CreateTextureSlot(env, info);
      tex := t;
      n1, l1 := tree.nodes, tree.links;
      r := ApplyHandler(handler.value, t);
    }
  }
}
