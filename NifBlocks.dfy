/**
 * NIF blocks as the exporter sees them: a block is its class name and the
 * attributes set on it, and the block registry is the sequence of blocks
 * created so far, in creation order. A block's identity is its index in
 * the registry.
 */
module NifBlocks {
  import opened Wrappers

  /** The NIF `ApplyMode` enumeration. */
  const APPLY_REPLACE: int := 0
  const APPLY_DECAL: int := 1
  const APPLY_MODULATE: int := 2
  const APPLY_HILIGHT: int := 3
  const APPLY_HILIGHT2: int := 4

  /** The NIF `KeyType` enumeration, as far as keys are exported. */
  datatype KeyType = LinearKey | QuadraticKey | TbcKey | XyzRotationKey | ConstantKey

  /** A `NiFloatKey`. */
  datatype FloatKey = FloatKey(time: real, value: real, interpolation: KeyType)

  /** A key of a `NiUVData` key group: its interpolation argument, time and value. */
  datatype UvKey = UvKey(arg: KeyType, time: real, value: real)

  /** A `KeyGroup` of `NiUVData`. */
  datatype KeyGroup = KeyGroup(numKeys: nat, interpolation: KeyType, keys: seq<UvKey>)

  /** What a texture descriptor's `uv_set` receives: a UV layer index, or the string "REFLECT". */
  datatype UvSet = UvIndex(index: int) | Reflect

  /** Attribute values. References are registry indices. */
  datatype Value =
    | IntV(i: int)
    | U32V(u: bv32)
    | RealV(r: real)
    | BoolV(b: bool)
    | StrV(s: string)
    | RefV(ref: nat)
    | RefsV(refs: seq<nat>)
    | TexDescV(uvSet: UvSet, source: Option<nat>)
    | KeysV(keys: seq<FloatKey>)
    | GroupsV(groups: seq<KeyGroup>)

  datatype Block = Block(typeName: string, attrs: map<string, Value>)

  /** The `block_store` registry. */
  class BlockStore {
    var blocks: seq<Block>

    constructor(blocks0: seq<Block>)
      ensures blocks == blocks0
    {
      blocks := blocks0;
    }

    /** `create_block(type)`: a new block with no attributes set, registered last. */
    method Create(typeName: string) returns (id: nat)
      modifies this
      ensures id == |old(blocks)|
      ensures blocks == old(blocks) + [Block(typeName, map[])]
    {
      id := |blocks|;
      blocks := blocks + [Block(typeName, map[])];
    }

    /** `register_block(block)` for a block built outside the registry: registered last. */
    method Register(b: Block) returns (id: nat)
      modifies this
      ensures id == |old(blocks)|
      ensures blocks == old(blocks) + [b]
    {
      id := |blocks|;
      blocks := blocks + [b];
    }

    /** `setattr(block, field, v)` on a registered block. */
    method Set(id: nat, field: string, v: Value)
      requires id < |blocks|
      modifies this
      ensures |blocks| == |old(blocks)|
      ensures blocks == old(blocks)[id := old(blocks)[id].(attrs := old(blocks)[id].attrs[field := v])]
    {
      blocks := blocks[id := blocks[id].(attrs := blocks[id].attrs[field := v])];
    }

    /** Appending `ref` to the reference list `field` of a registered block (`add_property`, `add_controller`, ...). */
    method AppendRef(id: nat, field: string, ref: nat)
      requires id < |blocks|
      modifies this
      ensures |blocks| == |old(blocks)|
      ensures blocks == old(blocks)[id := old(blocks)[id].(attrs := old(blocks)[id].attrs[field := RefsV(RefsOf(old(blocks)[id], field) + [ref])])]
    {
      blocks := blocks[id := blocks[id].(attrs := blocks[id].attrs[field := RefsV(RefsOf(blocks[id], field) + [ref])])];
    }
  }

  /** The reference list `field` of a block; empty when unset. */
  function RefsOf(b: Block, field: string): seq<nat> {
    if field in b.attrs && b.attrs[field].RefsV? then b.attrs[field].refs else []
  }
}
