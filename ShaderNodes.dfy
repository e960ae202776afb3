/**
 * The host's shader node tree, as far as the nodes wrapper uses it: nodes
 * addressed by their unique name, and links between output and input
 * sockets addressed by index.
 */
module ShaderNodes {
  import opened Wrappers
  import opened Strings
  import TextureLoader

  /** The node types the importer creates. */
  datatype Kind =
    | UvMapNode | TexCoordNode | TexImageNode | MixRgbNode | SeparateXyzNode | CombineXyzNode
    | MathNode | VertexColorNode | OutputMaterialNode | BsdfDiffuseNode | BsdfTransparentNode
    | MixShaderNode | GroupNode | NormalMapNode

  /** The name the host gives a new node of each type before it is made unique. */
  function DefaultName(k: Kind): string {
    match k
    case UvMapNode => "UV Map"
    case TexCoordNode => "Texture Coordinate"
    case TexImageNode => "Image Texture"
    case MixRgbNode => "Mix"
    case SeparateXyzNode => "Separate XYZ"
    case CombineXyzNode => "Combine XYZ"
    case MathNode => "Math"
    case VertexColorNode => "Color Attribute"
    case OutputMaterialNode => "Material Output"
    case BsdfDiffuseNode => "Diffuse BSDF"
    case BsdfTransparentNode => "Transparent BSDF"
    case MixShaderNode => "Mix Shader"
    case GroupNode => "Group"
    case NormalMapNode => "Normal Map"
  }

  /**
   * The settings of a node that the importer reads or writes. `inputs` holds
   * the default values of input sockets that were set explicitly; `nodeGroup`
   * names the node group a group node shows.
   */
  datatype Node = Node(
    kind: Kind,
    nodeLabel: string,
    uvMap: string,
    blendType: string,
    inputs: map<nat, real>,
    useClamp: bool,
    operation: string,
    extension: string,
    interpolation: string,
    image: Option<TextureLoader.Image>,
    layerName: string,
    nodeGroup: string)

  /** A node as the host creates it. */
  function NewNodeOf(k: Kind): Node {
    Node(k, "", "", "MIX", map[], false, "ADD", "REPEAT", "Linear", None, "", "")
  }

  /** A link from output socket `fromSocket` of one node to input socket `toSocket` of another. */
  datatype Link = Link(fromNode: string, fromSocket: nat, toNode: string, toSocket: nat)

  /** The host's disambiguated name `base.NNN`. */
  function Suffixed(base: string, k: nat): string {
    base + "." + ZeroPad(NatToString(k), 3)
  }

  lemma SuffixedInjective(base: string, j: nat, k: nat)
    requires Suffixed(base, j) == Suffixed(base, k)
    ensures j == k
  {
    var sj, sk := ZeroPad(NatToString(j), 3), ZeroPad(NatToString(k), 3);
    assert Suffixed(base, j)[|base| + 1..] == sj;
    assert Suffixed(base, k)[|base| + 1..] == sk;
    ParseZeroPad(j, 3);
    ParseZeroPad(k, 3);
  }

  /**
   * The name the host gives a node that asks for `base`: `base` itself when
   * it is free, otherwise `base.NNN` with the least NNN >= 1 that is free.
   */
  method UniqueName(base: string, taken: set<string>) returns (name: string)
    ensures name !in taken && base <= name
    ensures base !in taken ==> name == base
    ensures base in taken ==> exists k :: k >= 1 && name == Suffixed(base, k) &&
                                 forall j :: 1 <= j < k ==> Suffixed(base, j) in taken
  {
    if base !in taken {
      return base;
    }
    var k := 1;
    ghost var tried: set<string> := {};
    while Suffixed(base, k) in taken
      invariant k >= 1
      invariant tried == set j | 1 <= j < k :: Suffixed(base, j)
      invariant tried <= taken
      invariant |tried| == k - 1
      invariant forall j :: 1 <= j < k ==> Suffixed(base, j) in taken
      decreases |taken| - |tried|
    {
      var next := Suffixed(base, k);
      if next in tried {
        var j :| 1 <= j < k && Suffixed(base, j) == next;
        SuffixedInjective(base, j, k);
        assert false;
      }
      assert tried + {next} <= taken;
      assert |tried + {next}| <= |taken| by {
        SubsetCard(tried + {next}, taken);
      }
      tried := tried + {next};
      k := k + 1;
    }
    name := Suffixed(base, k);
  }

  lemma SubsetCard<T>(a: set<T>, b: set<T>)
    requires a <= b
    ensures |a| <= |b|
  {
    assert b == a + (b - a);
  }

  /**
   * A node tree. Every link joins two nodes of the tree; node names are the
   * keys of `nodes`, so they are unique.
   */
  class NodeTree {
    var nodes: map<string, Node>
    var links: set<Link>

    ghost predicate Valid()
      reads this
    {
      forall l :: l in links ==> l.fromNode in nodes && l.toNode in nodes
    }

    constructor(nodes0: map<string, Node>, links0: set<Link>)
      requires forall l :: l in links0 ==> l.fromNode in nodes0 && l.toNode in nodes0
      ensures Valid() && nodes == nodes0 && links == links0
    {
      nodes := nodes0;
      links := links0;
    }

    /** `nodes.new(type)` followed by setting `name := desired`: a fresh node under a free name. */
    method NewNode(kind: Kind, desired: string) returns (name: string)
      requires Valid()
      modifies this`nodes
      ensures Valid()
      ensures name !in old(nodes) && desired <= name
      ensures desired !in old(nodes) ==> name == desired
      ensures nodes == old(nodes)[name := NewNodeOf(kind)]
    {
      name := UniqueName(desired, nodes.Keys);
      nodes := nodes[name := NewNodeOf(kind)];
    }

    /** Setting attributes of an existing node. */
    method SetNode(name: string, n: Node)
      requires Valid() && name in nodes
      modifies this`nodes
      ensures Valid()
      ensures nodes == old(nodes)[name := n]
    {
      nodes := nodes[name := n];
    }

    /** `links.new(from, to)`. */
    method NewLink(l: Link)
      requires Valid() && l.fromNode in nodes && l.toNode in nodes
      modifies this`links
      ensures Valid()
      ensures links == old(links) + {l}
    {
      links := links + {l};
    }

    /** `links.remove(link)`. */
    method RemoveLink(l: Link)
      requires Valid()
      modifies this`links
      ensures Valid()
      ensures links == old(links) - {l}
    {
      links := links - {l};
    }

    /** Removing every node, which removes every link with it. */
    method Clear()
      modifies this
      ensures Valid()
      ensures nodes == map[] && links == {}
    {
      nodes := map[];
      links := {};
    }
  }
}
