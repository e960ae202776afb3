/**
 * Texture animation export: one `NiTextureTransformController` per animated
 * mapping operation of a node-tree action, with its float keys; the F-curve
 * selection and key groups of a `NiUVController`; and the sources of a
 * flip-book `NiFlipController`.
 */
module TextureAnimation {
  import opened Wrappers
  import opened Strings
  import opened NifBlocks

  /** The scene's frames per second; always positive. */
  type Fps = r: real | r > 0.0 witness 1.0

  /** A Blender keyframe: its `co` (frame, value) and its interpolation mode. */
  datatype Keyframe = Keyframe(frame: real, value: real, interpolation: string)

  /** A Blender F-curve. */
  datatype FCurve = FCurve(dataPath: string, arrayIndex: int, keyframes: seq<Keyframe>)

  /** A Blender action, with the ID type it animates. */
  datatype Action = Action(name: string, idRoot: string, frameStart: real, frameEnd: real, fcurves: seq<FCurve>)

  // ---------------------------------------------------------------- interpolation and keys

  /** `get_nif_interpolation`: Blender interpolation mode to NIF key type. */
  function GetNifInterpolation(blenderInterpolation: string): (k: KeyType)
    ensures k in {LinearKey, ConstantKey, QuadraticKey}
    ensures k == ConstantKey <==> blenderInterpolation == "CONSTANT"
    ensures k == QuadraticKey <==> blenderInterpolation == "BEZIER"
    ensures k == LinearKey <==> blenderInterpolation !in {"CONSTANT", "BEZIER"}
  {
    if blenderInterpolation == "LINEAR" then LinearKey
    else if blenderInterpolation == "CONSTANT" then ConstantKey
    else if blenderInterpolation == "BEZIER" then QuadraticKey
    else LinearKey
  }

  /** The `NiFloatKey` of one keyframe. */
  function KeyOf(kf: Keyframe, fps: Fps): FloatKey {
    FloatKey(kf.frame / fps, kf.value, GetNifInterpolation(kf.interpolation))
  }

  /** The keys of a sequence of keyframes, one each, in order. */
  function NifKeys(keyframes: seq<Keyframe>, fps: Fps): seq<FloatKey> {
    seq(|keyframes|, i requires 0 <= i < |keyframes| => KeyOf(keyframes[i], fps))
  }

  /** A key's time is its keyframe's frame in seconds, and keys keep the order of their frames. */
  lemma KeyTimes(a: Keyframe, b: Keyframe, fps: Fps)
    ensures KeyOf(a, fps).time * fps == a.frame
    ensures a.frame <= b.frame <==> KeyOf(a, fps).time <= KeyOf(b, fps).time
  {
    var ta, tb := a.frame / fps, b.frame / fps;
    assert ta * fps == a.frame;
    assert tb * fps == b.frame;
    if a.frame <= b.frame {
      assert (tb - ta) * fps == b.frame - a.frame;
    } else {
      assert (ta - tb) * fps == a.frame - b.frame;
    }
  }

  /** `export_fcurve_to_nif_keys`' loop: the keys of the F-curve's keyframes. */
  method FcurveKeys(keyframes: seq<Keyframe>, fps: Fps) returns (keys: seq<FloatKey>)
    ensures |keys| == |keyframes|
    ensures forall i :: 0 <= i < |keys| ==> keys[i] == KeyOf(keyframes[i], fps)
  {
    keys := [];
    for k := 0 to |keyframes|
      invariant |keys| == k
      invariant forall i :: 0 <= i < k ==> keys[i] == KeyOf(keyframes[i], fps)
    {
      var kf := keyframes[k];
      var nifKey := FloatKey(kf.frame / fps, kf.value, GetNifInterpolation(kf.interpolation));
      keys := keys + [nifKey];
    }
  }

  // ---------------------------------------------------------------- the operation table

  /** The texture transform operations (`TransformMember`) exported from mapping F-curves. */
  datatype Operation = TranslateU | TranslateV | Rotate | ScaleU | ScaleV

  /** `operation_to_fcurve`, in its order. */
  const Operations: seq<Operation> := [TranslateU, TranslateV, Rotate, ScaleU, ScaleV]

  function OperationName(op: Operation): string {
    match op
    case TranslateU => "TT_TRANSLATE_U"
    case TranslateV => "TT_TRANSLATE_V"
    case Rotate => "TT_ROTATE"
    case ScaleU => "TT_SCALE_U"
    case ScaleV => "TT_SCALE_V"
  }

  /** The F-curve data path animating an operation. */
  function FcurvePath(op: Operation): string {
    match op
    case TranslateU => "shader_nodes[\"Mapping\"].translation[0]"
    case TranslateV => "shader_nodes[\"Mapping\"].translation[1]"
    case Rotate => "shader_nodes[\"Mapping\"].rotation[2]"
    case ScaleU => "shader_nodes[\"Mapping\"].scale[0]"
    case ScaleV => "shader_nodes[\"Mapping\"].scale[1]"
  }

  /** The position of an operation in the table. */
  function OperationIndex(op: Operation): (i: nat)
    ensures i < |Operations| && Operations[i] == op
  {
    match op
    case TranslateU => 0
    case TranslateV => 1
    case Rotate => 2
    case ScaleU => 3
    case ScaleV => 4
  }

  /** Operations and data paths are one to one, so no two controllers share an id or a curve. */
  lemma OperationTableInjective(a: Operation, b: Operation)
    ensures OperationName(a) == OperationName(b) <==> a == b
    ensures FcurvePath(a) == FcurvePath(b) <==> a == b
    ensures ("0-0-" + OperationName(a) == "0-0-" + OperationName(b)) <==> a == b
  {
    if "0-0-" + OperationName(a) == "0-0-" + OperationName(b) {
      assert ("0-0-" + OperationName(a))[4..] == OperationName(a);
      assert ("0-0-" + OperationName(b))[4..] == OperationName(b);
    }
  }

  /** `next(fcu for fcu in fcurves if fcu.data_path == path)`: the first F-curve with exactly that path. */
  function FindFcurve(fcurves: seq<FCurve>, path: string): (r: Option<nat>)
    ensures r.None? <==> forall i :: 0 <= i < |fcurves| ==> fcurves[i].dataPath != path
    ensures r.Some? ==> r.value < |fcurves| && fcurves[r.value].dataPath == path
    ensures r.Some? ==> forall i :: 0 <= i < r.value ==> fcurves[i].dataPath != path
  {
    if fcurves == [] then None
    else if fcurves[0].dataPath == path then Some(0)
    else match FindFcurve(fcurves[1..], path)
      case None => None
      case Some(i) => Some(i + 1)
  }

  /** The F-curve animating `op`, if any: the first one with the operation's data path. */
  function CurveFor(fcurves: seq<FCurve>, op: Operation): Option<FCurve> {
    match FindFcurve(fcurves, FcurvePath(op))
    case None => None
    case Some(i) => Some(fcurves[i])
  }

  /** An animated operation together with the F-curve that animates it. */
  datatype AnimatedOperation = AnimatedOperation(op: Operation, curve: FCurve)

  /** `op` with its F-curve when it is animated, nothing when it is not. */
  function AnimatedStep(fcurves: seq<FCurve>, op: Operation): seq<AnimatedOperation> {
    match CurveFor(fcurves, op)
    case None => []
    case Some(c) => [AnimatedOperation(op, c)]
  }

  /** The operations of `ops` with an F-curve, in the order of `ops`, each with its curve. */
  function AnimatedIn(fcurves: seq<FCurve>, ops: seq<Operation>): (r: seq<AnimatedOperation>)
    ensures |r| <= |ops|
    ensures forall a :: a in r <==> a.op in ops && CurveFor(fcurves, a.op) == Some(a.curve)
    decreases |ops|
  {
    if ops == [] then []
    else
      var last := ops[|ops| - 1];
      assert ops == ops[..|ops| - 1] + [last];
      AnimatedIn(fcurves, ops[..|ops| - 1]) + AnimatedStep(fcurves, last)
  }

  /** Looking at one more operation of `ops` adds it, with its curve, exactly when it is animated. */
  lemma AnimatedInStep(fcurves: seq<FCurve>, ops: seq<Operation>, k: nat)
    requires k < |ops|
    ensures AnimatedIn(fcurves, ops[..k + 1]) == AnimatedIn(fcurves, ops[..k]) + AnimatedStep(fcurves, ops[k])
  {
    assert ops[..k + 1][..k] == ops[..k];
    assert ops[..k + 1][k] == ops[k];
  }

  /** Operations listed with strictly increasing table positions. */
  ghost predicate InTableOrder(ops: seq<Operation>) {
    forall i, j :: 0 <= i < j < |ops| ==> OperationIndex(ops[i]) < OperationIndex(ops[j])
  }

  /** Animated operations listed with strictly increasing table positions. */
  ghost predicate AnimatedInTableOrder(anims: seq<AnimatedOperation>) {
    forall i, j :: 0 <= i < j < |anims| ==> OperationIndex(anims[i].op) < OperationIndex(anims[j].op)
  }

  /** In a list in table order, everything before the last operation comes earlier in the table. */
  lemma BeforeLastInTable(ops: seq<Operation>, x: Operation)
    requires InTableOrder(ops) && ops != [] && x in ops[..|ops| - 1]
    ensures OperationIndex(x) < OperationIndex(ops[|ops| - 1])
  {
    var k :| 0 <= k < |ops| - 1 && ops[..|ops| - 1][k] == x;
    assert ops[k] == x;
  }

  /** The animated operations keep the table order, so each is exported at most once. */
  lemma {:induction false} AnimatedKeepsTableOrder(fcurves: seq<FCurve>, ops: seq<Operation>)
    requires InTableOrder(ops)
    ensures AnimatedInTableOrder(AnimatedIn(fcurves, ops))
    decreases |ops|
  {
    if ops != [] {
      var front := ops[..|ops| - 1];
      var last := ops[|ops| - 1];
      assert InTableOrder(front) by {
        forall i, j | 0 <= i < j < |front| ensures OperationIndex(front[i]) < OperationIndex(front[j]) {
          assert front[i] == ops[i] && front[j] == ops[j];
        }
      }
      AnimatedKeepsTableOrder(fcurves, front);
      var before := AnimatedIn(fcurves, front);
      var r := AnimatedIn(fcurves, ops);
      match CurveFor(fcurves, last)
      case None =>
        assert r == before + [];
      case Some(c) =>
        assert r == before + [AnimatedOperation(last, c)];
        forall i, j | 0 <= i < j < |r| ensures OperationIndex(r[i].op) < OperationIndex(r[j].op) {
          assert r[i] == before[i];
          if j < |before| {
            assert r[j] == before[j];
          } else {
            assert before[i] in before;
            BeforeLastInTable(ops, before[i].op);
          }
        }
    }
  }

  /** `Operations` itself is in table order. */
  lemma OperationsInTableOrder()
    ensures InTableOrder(Operations)
  {
  }

  // ---------------------------------------------------------------- texture transform controllers

  /** `TexType.BASE_MAP`. */
  const BASE_MAP: int := 0

  /** The fields of the controller for `op` targeting `prop`, set in the order the exporter sets them. */
  function ControllerFields(prop: nat, action: Action, op: Operation, fps: Fps): map<string, Value> {
    map["target" := RefV(prop)]
      ["texture_slot" := IntV(BASE_MAP)]
      ["operation" := StrV(OperationName(op))]
      ["start_time" := RealV(action.frameStart / fps)]
      ["stop_time" := RealV(action.frameEnd / fps)]
  }

  /** Block `b` with its `controller` field set to the controller at `controller`. */
  function Linked(b: Block, controller: nat): Block {
    b.(attrs := b.attrs["controller" := RefV(controller)])
  }

  /** The controller made for `op`, targeting `prop` and driven by the interpolator `interpolator`. */
  function TransformController(prop: nat, action: Action, op: Operation, fps: Fps, interpolator: nat): Block {
    Block("NiTextureTransformController", ControllerFields(prop, action, op, fps)["interpolator" := RefV(interpolator)])
  }

  /** The interpolator class: a blend interpolator inside a controller sequence. */
  function InterpolatorType(sequenced: bool): string {
    if sequenced then "NiBlendFloatInterpolator" else "NiFloatInterpolator"
  }

  /** The interpolator's fields before its data is attached: flags 0x1 for a blend interpolator. */
  function InterpolatorFields(sequenced: bool): map<string, Value> {
    if sequenced then map["flags" := IntV(0x1)] else map[]
  }

  /** The controller's interpolator, reading its keys from `data`. */
  function FloatInterpolator(sequenced: bool, data: nat): Block {
    Block(InterpolatorType(sequenced), InterpolatorFields(sequenced)["data" := RefV(data)])
  }

  /** The interpolator's data: the keys of the operation's F-curve, when there is one. */
  function FloatData(curve: Option<FCurve>, fps: Fps): Block {
    match curve
    case None => Block("NiFloatData", map[])
    case Some(c) => Block("NiFloatData", map["keys" := KeysV(NifKeys(c.keyframes, fps))])
  }

  /** The registry after the controller for `op` was created: `prop.controller` points to it; its interpolator is not yet set. */
  function WithController(blocks: seq<Block>, prop: nat, action: Action, op: Operation, fps: Fps): seq<Block>
    requires prop < |blocks|
  {
    blocks[prop := Linked(blocks[prop], |blocks|)]
      + [Block("NiTextureTransformController", ControllerFields(prop, action, op, fps))]
  }

  /** The registry after an interpolator was created for the last block, without its data. */
  function WithInterpolator(blocks: seq<Block>, sequenced: bool): seq<Block>
    requires blocks != []
  {
    var c := |blocks| - 1;
    blocks[..c] + [Block(blocks[c].typeName, blocks[c].attrs["interpolator" := RefV(|blocks|)]),
                   Block(InterpolatorType(sequenced), InterpolatorFields(sequenced))]
  }

  /** The registry after the float data was created for the last block, an interpolator. */
  function WithFloatData(blocks: seq<Block>, sequenced: bool, curve: Option<FCurve>, fps: Fps): seq<Block>
    requires blocks != []
  {
    blocks[..|blocks| - 1] + [FloatInterpolator(sequenced, |blocks|), FloatData(curve, fps)]
  }

  /** The registry as the exporter builds it: controller, then interpolator, then float data. */
  function ControllerSteps(blocks: seq<Block>, prop: nat, action: Action, sequenced: bool, op: Operation,
                           curve: Option<FCurve>, fps: Fps): seq<Block>
    requires prop < |blocks|
  {
    WithFloatData(WithInterpolator(WithController(blocks, prop, action, op, fps), sequenced), sequenced, curve, fps)
  }

  /** The registry after one transform controller for `op` with keys from `curve`: three new blocks, and `prop.controller` is the new controller. */
  function WithTransformController(blocks: seq<Block>, prop: nat, action: Action, sequenced: bool, op: Operation,
                                   curve: Option<FCurve>, fps: Fps): seq<Block>
    requires prop < |blocks|
  {
    blocks[prop := Linked(blocks[prop], |blocks|)]
      + [TransformController(prop, action, op, fps, |blocks| + 1), FloatInterpolator(sequenced, |blocks| + 2),
         FloatData(curve, fps)]
  }

  /** Adding one controller keeps every block other than `prop`. */
  lemma TransformControllerKeeps(blocks: seq<Block>, prop: nat, action: Action, sequenced: bool, op: Operation,
                                 curve: Option<FCurve>, fps: Fps, i: nat)
    requires prop < |blocks| && i < |blocks| && i != prop
    ensures WithTransformController(blocks, prop, action, sequenced, op, curve, fps)[i] == blocks[i]
  {
  }

  /** Adding one controller appends the controller, its interpolator and its data, in that order. */
  lemma TransformControllerAdds(blocks: seq<Block>, prop: nat, action: Action, sequenced: bool, op: Operation,
                                curve: Option<FCurve>, fps: Fps)
    requires prop < |blocks|
    ensures var r := WithTransformController(blocks, prop, action, sequenced, op, curve, fps);
            var c := |blocks|;
            && |r| == c + 3
            && r[c] == TransformController(prop, action, op, fps, c + 1)
            && r[c + 1] == FloatInterpolator(sequenced, c + 2)
            && r[c + 2] == FloatData(curve, fps)
  {
  }

  /** Building the controller step by step ends in the three new blocks and the linked property. */
  lemma ControllerStepsAdd(blocks: seq<Block>, prop: nat, action: Action, sequenced: bool, op: Operation,
                           curve: Option<FCurve>, fps: Fps)
    requires prop < |blocks|
    ensures ControllerSteps(blocks, prop, action, sequenced, op, curve, fps)
         == WithTransformController(blocks, prop, action, sequenced, op, curve, fps)
  {
    var linked := WithController(blocks, prop, action, op, fps);
    var mid := WithInterpolator(linked, sequenced);
    var a := ControllerSteps(blocks, prop, action, sequenced, op, curve, fps);
    var b := WithTransformController(blocks, prop, action, sequenced, op, curve, fps);
    assert |a| == |b|;
    forall i | 0 <= i < |a| ensures a[i] == b[i] {
      if i < |blocks| {
        assert a[i] == mid[i] == linked[i];
      } else if i == |blocks| {
        assert a[i] == mid[i];
      }
    }
  }

  /** The interpolator of the last registered block `c`, registered after it, before its data is attached. */
  method AddInterpolator(store: BlockStore, c: nat, sequenced: bool) returns (id: nat)
    requires c + 1 == |store.blocks|
    modifies store
    ensures id == |old(store.blocks)|
    ensures store.blocks == WithInterpolator(old(store.blocks), sequenced)
  {
    if sequenced {
      id := store.Create("NiBlendFloatInterpolator");
      store.Set(id, "flags", IntV(0x1));
    } else {
      id := store.Create("NiFloatInterpolator");
    }
    store.Set(c, "interpolator", RefV(id));
  }

  /** The float data of the last registered interpolator, with the keys of the operation's F-curve (`export_fcurve_to_nif_keys`). */
  method AddFloatData(store: BlockStore, interpolator: nat, sequenced: bool, fcurves: seq<FCurve>, op: Operation, fps: Fps)
    returns (id: nat)
    requires interpolator + 1 == |store.blocks|
    requires store.blocks[interpolator] == Block(InterpolatorType(sequenced), InterpolatorFields(sequenced))
    modifies store
    ensures id == |old(store.blocks)|
    ensures store.blocks == WithFloatData(old(store.blocks), sequenced, CurveFor(fcurves, op), fps)
  {
    var found := FindFcurve(fcurves, FcurvePath(op));
    var keys: seq<FloatKey> := [];
    if found.Some? {
      keys := FcurveKeys(fcurves[found.value].keyframes, fps);
      assert keys == NifKeys(fcurves[found.value].keyframes, fps);
    }
    id := store.Create("NiFloatData");
    store.Set(interpolator, "data", RefV(id));
    if found.None? {
      return;
    }
    store.Set(id, "keys", KeysV(keys));
  }

  /** The controller block, registered last, with every field but its interpolator; `prop.controller` points to it. */
  method CreateController(store: BlockStore, prop: nat, action: Action, op: Operation, fps: Fps) returns (c: nat)
    requires prop < |store.blocks|
    modifies store
    ensures c == |old(store.blocks)|
    ensures store.blocks == WithController(old(store.blocks), prop, action, op, fps)
  {
    c := store.Create("NiTextureTransformController");
    store.Set(prop, "controller", RefV(c));
    store.Set(c, "target", RefV(prop));
    store.Set(c, "texture_slot", IntV(BASE_MAP));
    store.Set(c, "operation", StrV(OperationName(op)));
    store.Set(c, "start_time", RealV(action.frameStart / fps));
    store.Set(c, "stop_time", RealV(action.frameEnd / fps));
  }

  /** `export_ni_texture_transform_controller`: creates the controller, its interpolator and its float data. */
  method ExportTransformController(store: BlockStore, prop: nat, action: Action, sequenced: bool, op: Operation, fps: Fps)
    returns (c: nat)
    requires prop < |store.blocks|
    modifies store
    ensures c == |old(store.blocks)|
    ensures store.blocks
         == WithTransformController(old(store.blocks), prop, action, sequenced, op, CurveFor(action.fcurves, op), fps)
  {
    c := CreateController(store, prop, action, op, fps);
    var interpolator := AddInterpolator(store, c, sequenced);
    var data := AddFloatData(store, interpolator, sequenced, action.fcurves, op, fps);
    ControllerStepsAdd(old(store.blocks), prop, action, sequenced, op, CurveFor(action.fcurves, op), fps);
  }

  // ---------------------------------------------------------------- controllers of one action

  /** The registry after one transform controller per animated operation of `anims`, in order, all on `prop`. */
  function WithControllers(blocks: seq<Block>, prop: nat, action: Action, sequenced: bool, anims: seq<AnimatedOperation>,
                           fps: Fps): (r: seq<Block>)
    requires prop < |blocks|
    ensures |r| == |blocks| + 3 * |anims|
    decreases |anims|
  {
    if anims == [] then blocks
    else
      var before := WithControllers(blocks, prop, action, sequenced, anims[..|anims| - 1], fps);
      var last := anims[|anims| - 1];
      WithTransformController(before, prop, action, sequenced, last.op, Some(last.curve), fps)
  }

  /** One more animated operation adds its controller after the others. */
  lemma ControllersStep(blocks: seq<Block>, prop: nat, action: Action, sequenced: bool, anims: seq<AnimatedOperation>,
                        a: AnimatedOperation, fps: Fps)
    requires prop < |blocks|
    ensures WithControllers(blocks, prop, action, sequenced, anims + [a], fps)
         == WithTransformController(WithControllers(blocks, prop, action, sequenced, anims, fps),
                                    prop, action, sequenced, a.op, Some(a.curve), fps)
  {
    assert (anims + [a])[..|anims|] == anims;
  }

  /** The controllers change no block that existed before, except `prop`. */
  lemma {:induction false} ControllersKeep(blocks: seq<Block>, prop: nat, action: Action, sequenced: bool,
                                           anims: seq<AnimatedOperation>, fps: Fps)
    requires prop < |blocks|
    ensures var r := WithControllers(blocks, prop, action, sequenced, anims, fps);
            forall j :: 0 <= j < |blocks| && j != prop ==> r[j] == blocks[j]
    decreases |anims|
  {
    if anims != [] {
      var front := anims[..|anims| - 1];
      ControllersKeep(blocks, prop, action, sequenced, front, fps);
      var before := WithControllers(blocks, prop, action, sequenced, front, fps);
    }
  }

  /** After the controllers, `prop.controller` points to the last one created (each overwrites the one before); the other fields of `prop` are kept. */
  lemma {:induction false} LastControllerLinked(blocks: seq<Block>, prop: nat, action: Action, sequenced: bool,
                                                anims: seq<AnimatedOperation>, fps: Fps)
    requires prop < |blocks| && anims != []
    ensures var r := WithControllers(blocks, prop, action, sequenced, anims, fps);
            && r[prop].typeName == blocks[prop].typeName
            && "controller" in r[prop].attrs
            && r[prop].attrs["controller"] == RefV(|blocks| + 3 * (|anims| - 1))
            && forall f :: f in blocks[prop].attrs && f != "controller" ==>
                 f in r[prop].attrs && r[prop].attrs[f] == blocks[prop].attrs[f]
    decreases |anims|
  {
    var front := anims[..|anims| - 1];
    var before := WithControllers(blocks, prop, action, sequenced, front, fps);
    if front != [] {
      LastControllerLinked(blocks, prop, action, sequenced, front, fps);
    }
  }

  /** The `k`-th controller is at `|blocks| + 3k`: the controller of `anims[k]`, targeting `prop`, driven by the next block. */
  lemma {:induction false} ControllerAt(blocks: seq<Block>, prop: nat, action: Action, sequenced: bool,
                                            anims: seq<AnimatedOperation>, fps: Fps, k: nat)
    requires prop < |blocks| && k < |anims|
    ensures WithControllers(blocks, prop, action, sequenced, anims, fps)[|blocks| + 3 * k]
         == TransformController(prop, action, anims[k].op, fps, |blocks| + 3 * k + 1)
    decreases |anims|
  {
    var last := |anims| - 1;
    var front := anims[..last];
    var before := WithControllers(blocks, prop, action, sequenced, front, fps);
    var a := anims[last];
    assert WithControllers(blocks, prop, action, sequenced, anims, fps)
        == WithTransformController(before, prop, action, sequenced, a.op, Some(a.curve), fps);
    if k < last {
      ControllerAt(blocks, prop, action, sequenced, front, fps, k);
      assert front[k] == anims[k];
      TransformControllerKeeps(before, prop, action, sequenced, a.op, Some(a.curve), fps, |blocks| + 3 * k);
    } else {
      TransformControllerAdds(before, prop, action, sequenced, a.op, Some(a.curve), fps);
    }
  }

  /** The `k`-th controller's interpolator follows it and reads the block after itself. */
  lemma {:induction false} InterpolatorAt(blocks: seq<Block>, prop: nat, action: Action, sequenced: bool,
                                            anims: seq<AnimatedOperation>, fps: Fps, k: nat)
    requires prop < |blocks| && k < |anims|
    ensures WithControllers(blocks, prop, action, sequenced, anims, fps)[|blocks| + 3 * k + 1]
         == FloatInterpolator(sequenced, |blocks| + 3 * k + 2)
    decreases |anims|
  {
    var last := |anims| - 1;
    var front := anims[..last];
    var before := WithControllers(blocks, prop, action, sequenced, front, fps);
    var a := anims[last];
    assert WithControllers(blocks, prop, action, sequenced, anims, fps)
        == WithTransformController(before, prop, action, sequenced, a.op, Some(a.curve), fps);
    if k < last {
      InterpolatorAt(blocks, prop, action, sequenced, front, fps, k);
      assert front[k] == anims[k];
      TransformControllerKeeps(before, prop, action, sequenced, a.op, Some(a.curve), fps, |blocks| + 3 * k + 1);
    } else {
      TransformControllerAdds(before, prop, action, sequenced, a.op, Some(a.curve), fps);
    }
  }

  /** The `k`-th controller's float data follows its interpolator and holds the keys of the F-curve of `anims[k]`. */
  lemma {:induction false} FloatDataAt(blocks: seq<Block>, prop: nat, action: Action, sequenced: bool,
                                            anims: seq<AnimatedOperation>, fps: Fps, k: nat)
    requires prop < |blocks| && k < |anims|
    ensures WithControllers(blocks, prop, action, sequenced, anims, fps)[|blocks| + 3 * k + 2]
         == FloatData(Some(anims[k].curve), fps)
    decreases |anims|
  {
    var last := |anims| - 1;
    var front := anims[..last];
    var before := WithControllers(blocks, prop, action, sequenced, front, fps);
    var a := anims[last];
    assert WithControllers(blocks, prop, action, sequenced, anims, fps)
        == WithTransformController(before, prop, action, sequenced, a.op, Some(a.curve), fps);
    if k < last {
      FloatDataAt(blocks, prop, action, sequenced, front, fps, k);
      assert front[k] == anims[k];
      TransformControllerKeeps(before, prop, action, sequenced, a.op, Some(a.curve), fps, |blocks| + 3 * k + 2);
    } else {
      TransformControllerAdds(before, prop, action, sequenced, a.op, Some(a.curve), fps);
    }
  }

  // ---------------------------------------------------------------- the controller sequence

  /** An entry of a controller sequence (`add_block`). */
  datatype ControlledBlock = ControlledBlock(controller: nat, nodeName: string, propertyType: string,
                                             controllerType: string, controllerId: string)

  /** The entry for the controller of `op` at registry index `controller`. */
  function ControlledEntry(controller: nat, nodeName: string, op: Operation): ControlledBlock {
    ControlledBlock(controller, nodeName, "NiTexturingProperty", "NiTextureTransformController", "0-0-" + OperationName(op))
  }

  /** The entries for the controllers of `anims`, the first created at registry index `base`. */
  function EntriesFor(base: nat, nodeName: string, anims: seq<AnimatedOperation>): (r: seq<ControlledBlock>)
    ensures |r| == |anims|
    decreases |anims|
  {
    if anims == [] then []
    else EntriesFor(base, nodeName, anims[..|anims| - 1]) + [ControlledEntry(base + 3 * (|anims| - 1), nodeName, anims[|anims| - 1].op)]
  }

  /** One more animated operation appends its entry. */
  lemma EntriesStep(base: nat, nodeName: string, anims: seq<AnimatedOperation>, a: AnimatedOperation)
    ensures EntriesFor(base, nodeName, anims + [a])
         == EntriesFor(base, nodeName, anims) + [ControlledEntry(base + 3 * |anims|, nodeName, a.op)]
  {
    assert (anims + [a])[..|anims|] == anims;
  }

  /** Entries already in a sequence stay in front of the new ones. */
  lemma EntriesAppended(entries0: seq<ControlledBlock>, base: nat, nodeName: string, anims: seq<AnimatedOperation>,
                        a: AnimatedOperation)
    ensures entries0 + EntriesFor(base, nodeName, anims + [a])
         == (entries0 + EntriesFor(base, nodeName, anims)) + [ControlledEntry(base + 3 * |anims|, nodeName, a.op)]
  {
    EntriesStep(base, nodeName, anims, a);
  }

  /** Entry `k` names the controller at `base + 3k` and has the id `0-0-<operation>` of `anims[k]`. */
  lemma {:induction false} EntryAt(base: nat, nodeName: string, anims: seq<AnimatedOperation>, k: nat)
    requires k < |anims|
    ensures EntriesFor(base, nodeName, anims)[k] == ControlledEntry(base + 3 * k, nodeName, anims[k].op)
    decreases |anims|
  {
    var last := |anims| - 1;
    if k < last {
      var front := anims[..last];
      EntryAt(base, nodeName, front, k);
      assert front[k] == anims[k];
    }
  }

  /** `NiControllerSequence` as far as texture animation fills it: its controlled blocks. */
  class ControllerSequence {
    var controlledBlocks: seq<ControlledBlock>

    constructor()
      ensures controlledBlocks == []
    {
      controlledBlocks := [];
    }

    /** `add_block`, with the fields the exporter then fills in. */
    method AddBlock(entry: ControlledBlock)
      modifies this
      ensures controlledBlocks == old(controlledBlocks) + [entry]
    {
      controlledBlocks := controlledBlocks + [entry];
    }
  }

  /** One pass of the loop over `operation_to_fcurve`: when `op` has an F-curve, its controller, and its entry in the sequence when there is one. */
  method ExportOperation(store: BlockStore, sequence: ControllerSequence?, prop: nat, nodeName: string, action: Action,
                         op: Operation, fps: Fps, ghost initial: seq<Block>, ghost entries0: seq<ControlledBlock>,
                         ghost done: seq<AnimatedOperation>)
    requires prop < |initial|
    requires store.blocks == WithControllers(initial, prop, action, sequence != null, done, fps)
    requires sequence != null ==> sequence.controlledBlocks == entries0 + EntriesFor(|initial|, nodeName, done)
    modifies store, sequence
    ensures store.blocks == WithControllers(initial, prop, action, sequence != null, done + AnimatedStep(action.fcurves, op), fps)
    ensures sequence != null ==>
              sequence.controlledBlocks == entries0 + EntriesFor(|initial|, nodeName, done + AnimatedStep(action.fcurves, op))
  {
    var found := FindFcurve(action.fcurves, FcurvePath(op));
    if found.None? {
      assert done + AnimatedStep(action.fcurves, op) == done;
      return;
    }
    var a := AnimatedOperation(op, action.fcurves[found.value]);
    assert AnimatedStep(action.fcurves, op) == [a];
    ControllersStep(initial, prop, action, sequence != null, done, a, fps);
    var c := ExportTransformController(store, prop, action, sequence != null, op, fps);
    if sequence != null {
      EntriesAppended(entries0, |initial|, nodeName, done, a);
      sequence.AddBlock(ControlledEntry(c, nodeName, op));
    }
  }

  /** The loop over `operation_to_fcurve`: a controller, and an entry of the sequence when there is one, per animated operation. */
  method ExportOperations(store: BlockStore, sequence: ControllerSequence?, prop: nat, nodeName: string, action: Action, fps: Fps)
    requires prop < |store.blocks|
    modifies store, sequence
    ensures store.blocks ==
            WithControllers(old(store.blocks), prop, action, sequence != null, AnimatedIn(action.fcurves, Operations), fps)
    ensures sequence != null ==>
            sequence.controlledBlocks ==
            old(sequence.controlledBlocks) + EntriesFor(|old(store.blocks)|, nodeName, AnimatedIn(action.fcurves, Operations))
  {
    ghost var initial := store.blocks;
    ghost var entries0 := if sequence != null then sequence.controlledBlocks else [];
    assert entries0 + [] == entries0;
    for k := 0 to |Operations|
      invariant store.blocks ==
                WithControllers(initial, prop, action, sequence != null, AnimatedIn(action.fcurves, Operations[..k]), fps)
      invariant sequence != null ==>
                sequence.controlledBlocks == entries0 + EntriesFor(|initial|, nodeName, AnimatedIn(action.fcurves, Operations[..k]))
    {
      AnimatedInStep(action.fcurves, Operations, k);
      ExportOperation(store, sequence, prop, nodeName, action, Operations[k], fps, initial, entries0,
                      AnimatedIn(action.fcurves, Operations[..k]));
    }
    assert Operations[..|Operations|] == Operations;
  }

  // ---------------------------------------------------------------- the texturing property of a geometry

  /** `isinstance(block, NiTexturingProperty)` for a registered block. */
  predicate IsTexturingProperty(blocks: seq<Block>, ref: nat) {
    ref < |blocks| && blocks[ref].typeName == "NiTexturingProperty"
  }

  /** The position in `refs` of the last texturing property, the one the loop over `properties` keeps. */
  function LastTexturingProperty(blocks: seq<Block>, refs: seq<nat>): (r: Option<nat>)
    ensures r.None? <==> forall i :: 0 <= i < |refs| ==> !IsTexturingProperty(blocks, refs[i])
    ensures r.Some? ==> r.value < |refs| && IsTexturingProperty(blocks, refs[r.value])
    ensures r.Some? ==> forall i :: r.value < i < |refs| ==> !IsTexturingProperty(blocks, refs[i])
    decreases |refs|
  {
    if refs == [] then None
    else if IsTexturingProperty(blocks, refs[|refs| - 1]) then Some(|refs| - 1)
    else
      var r := LastTexturingProperty(blocks, refs[..|refs| - 1]);
      assert forall i :: 0 <= i < |refs| - 1 ==> refs[..|refs| - 1][i] == refs[i];
      r
  }

  /** The loop over `n_ni_geometry.properties`: each texturing property replaces the one found before. */
  method FindTexturingProperty(blocks: seq<Block>, refs: seq<nat>) returns (r: Option<nat>)
    ensures r == LastTexturingProperty(blocks, refs)
  {
    r := None;
    for k := 0 to |refs|
      invariant r == LastTexturingProperty(blocks, refs[..k])
    {
      assert refs[..k + 1][..k] == refs[..k];
      if IsTexturingProperty(blocks, refs[k]) {
        r := Some(k);
      }
    }
    assert refs[..|refs|] == refs;
  }

  // ---------------------------------------------------------------- all controlled blocks

  /** A controlled block of the animation export: the strip's action, the object it animates and whether that object has an active material. */
  datatype ControlledAction = ControlledAction(action: Action, objectName: string, hasActiveMaterial: bool)

  /** The export's state: the registry, the sequence's entries and the warnings logged. */
  datatype AnimationState = AnimationState(blocks: seq<Block>, entries: seq<ControlledBlock>, warned: seq<string>)

  /** Every name in `DICT_NAMES` is a registered block. */
  ghost predicate NamesRegistered(names: map<string, nat>, count: nat) {
    forall n :: n in names ==> names[n] < count
  }

  /** A geometry's `name` field; empty when unset. */
  function NodeName(b: Block): string {
    if "name" in b.attrs && b.attrs["name"].StrV? then b.attrs["name"].s else ""
  }

  /** The warning logged for an object without a texturing property. */
  function NoTexturingPropertyWarning(objectName: string, actionName: string): string {
    "Object " + objectName + " has no NiTexturingProperty!"
      + "Texture animation for " + actionName + " will not be exported."
      + "(Ensure that an unsupported shader property is not applied)."
  }

  /** The entries of a controller sequence; none without one. */
  function EntriesOf(sequence: ControllerSequence?): seq<ControlledBlock>
    reads sequence
  {
    if sequence != null then sequence.controlledBlocks else []
  }

  /** The error a pass over `c` raises, if any: reading the material of an object without one, or looking up an unexported object. */
  function StepError(names: map<string, nat>, c: ControlledAction): Option<Error> {
    if !c.hasActiveMaterial then Some(AttributeError("node_tree"))
    else if c.action.idRoot == "NODE_TREE" && c.objectName !in names then Some(KeyError(c.objectName))
    else None
  }

  /** One pass of `export_texture_animations` over a controlled block. */
  function AnimationStep(s: AnimationState, names: map<string, nat>, c: ControlledAction, sequenced: bool, fps: Fps)
    : (r: Result<AnimationState>)
    requires NamesRegistered(names, |s.blocks|)
    ensures r.Err? <==> StepError(names, c).Some?
    ensures r.Err? ==> r.error == StepError(names, c).value
    ensures c.hasActiveMaterial && c.action.idRoot != "NODE_TREE" ==> r == Ok(s)
    ensures r.Ok? ==> |s.blocks| <= |r.value.blocks|
  {
    if !c.hasActiveMaterial then Err(AttributeError("node_tree"))
    else if c.action.idRoot != "NODE_TREE" then Ok(s)
    else if c.objectName !in names then Err(KeyError(c.objectName))
    else
      var geometry := names[c.objectName];
      match LastTexturingProperty(s.blocks, RefsOf(s.blocks[geometry], "properties"))
      case None =>
        Ok(s.(warned := s.warned + [NoTexturingPropertyWarning(c.objectName, c.action.name)]))
      case Some(p) =>
        var prop := RefsOf(s.blocks[geometry], "properties")[p];
        var anims := AnimatedIn(c.action.fcurves, Operations);
        Ok(AnimationState(
             WithControllers(s.blocks, prop, c.action, sequenced, anims, fps),
             if sequenced then s.entries + EntriesFor(|s.blocks|, NodeName(s.blocks[geometry]), anims) else s.entries,
             s.warned))
  }

  /** `export_texture_animations` over the controlled blocks: the passes in order, stopping at the first error. */
  function ExportedAnimations(s: AnimationState, names: map<string, nat>, controlled: seq<ControlledAction>,
                              sequenced: bool, fps: Fps): (r: Result<AnimationState>)
    requires NamesRegistered(names, |s.blocks|)
    ensures r.Ok? ==> |s.blocks| <= |r.value.blocks|
    decreases |controlled|
  {
    if controlled == [] then Ok(s)
    else
      match ExportedAnimations(s, names, controlled[..|controlled| - 1], sequenced, fps)
      case Err(e) => Err(e)
      case Ok(t) => AnimationStep(t, names, controlled[|controlled| - 1], sequenced, fps)
  }

  /** Once a pass has failed, the export fails with that error whatever follows. */
  lemma {:induction false} FailureSticks(s: AnimationState, names: map<string, nat>, controlled: seq<ControlledAction>,
                                         sequenced: bool, fps: Fps, k: nat)
    requires NamesRegistered(names, |s.blocks|) && k <= |controlled|
    requires ExportedAnimations(s, names, controlled[..k], sequenced, fps).Err?
    ensures ExportedAnimations(s, names, controlled, sequenced, fps) == ExportedAnimations(s, names, controlled[..k], sequenced, fps)
    decreases |controlled|
  {
    if k < |controlled| {
      var front := controlled[..|controlled| - 1];
      assert front[..k] == controlled[..k];
      FailureSticks(s, names, front, sequenced, fps, k);
    } else {
      assert controlled[..k] == controlled;
    }
  }

  /** The export fails exactly when some pass raises. */
  lemma {:induction false} ExportFailsIffSomeError(s: AnimationState, names: map<string, nat>, controlled: seq<ControlledAction>,
                                                   sequenced: bool, fps: Fps)
    requires NamesRegistered(names, |s.blocks|)
    ensures ExportedAnimations(s, names, controlled, sequenced, fps).Err? <==>
            exists i :: 0 <= i < |controlled| && StepError(names, controlled[i]).Some?
    decreases |controlled|
  {
    if controlled != [] {
      var n := |controlled| - 1;
      var front := controlled[..n];
      ExportFailsIffSomeError(s, names, front, sequenced, fps);
      if exists i :: 0 <= i < n && StepError(names, front[i]).Some? {
        var i :| 0 <= i < n && StepError(names, front[i]).Some?;
        assert front[i] == controlled[i];
      }
      if exists i :: 0 <= i < |controlled| && StepError(names, controlled[i]).Some? {
        var i :| 0 <= i < |controlled| && StepError(names, controlled[i]).Some?;
        if i < n {
          assert front[i] == controlled[i];
        }
      }
    }
  }

  /** A failing export fails with the error of the first pass that raises. */
  lemma {:induction false} ExportFailsAtFirstError(s: AnimationState, names: map<string, nat>, controlled: seq<ControlledAction>,
                                                   sequenced: bool, fps: Fps, i: nat)
    requires NamesRegistered(names, |s.blocks|)
    requires i < |controlled| && StepError(names, controlled[i]).Some?
    requires forall j :: 0 <= j < i ==> StepError(names, controlled[j]).None?
    ensures ExportedAnimations(s, names, controlled, sequenced, fps) == Err(StepError(names, controlled[i]).value)
    decreases |controlled|
  {
    var n := |controlled| - 1;
    var front := controlled[..n];
    if i < n {
      assert front[i] == controlled[i];
      assert forall j :: 0 <= j < i ==> front[j] == controlled[j];
      ExportFailsAtFirstError(s, names, front, sequenced, fps, i);
    } else {
      ExportFailsIffSomeError(s, names, front, sequenced, fps);
      assert forall j :: 0 <= j < n ==> front[j] == controlled[j];
    }
  }

  /** One pass of the loop of `export_texture_animations`; the warnings logged so far are `warned`. */
  method ExportAction(store: BlockStore, sequence: ControllerSequence?, names: map<string, nat>, c: ControlledAction,
                      fps: Fps, warned: seq<string>) returns (r: Result<seq<string>>)
    requires NamesRegistered(names, |store.blocks|)
    modifies store, sequence
    ensures var spec := AnimationStep(AnimationState(old(store.blocks), old(EntriesOf(sequence)), warned), names, c,
                                      sequence != null, fps);
            && (r.Err? <==> spec.Err?)
            && (r.Err? ==> r.error == spec.error && store.blocks == old(store.blocks))
            && (r.Ok? ==> store.blocks == spec.value.blocks && EntriesOf(sequence) == spec.value.entries
                          && r.value == spec.value.warned)
  {
    if !c.hasActiveMaterial {
      return Err(AttributeError("node_tree"));
    }
    if c.action.idRoot != "NODE_TREE" {
      return Ok(warned);
    }
    if c.objectName !in names {
      return Err(KeyError(c.objectName));
    }
    var geometry := names[c.objectName];
    var properties := RefsOf(store.blocks[geometry], "properties");
    var found := FindTexturingProperty(store.blocks, properties);
    if found.None? {
      return Ok(warned + [NoTexturingPropertyWarning(c.objectName, c.action.name)]);
    }
    var nodeName := NodeName(store.blocks[geometry]);
    ExportOperations(store, sequence, properties[found.value], nodeName, c.action, fps);
    return Ok(warned);
  }

  /** `export_texture_animations`: the passes over the controlled blocks, in order, until one raises; returns the warnings logged. */
  method ExportTextureAnimations(store: BlockStore, sequence: ControllerSequence?, names: map<string, nat>,
                                 controlled: seq<ControlledAction>, fps: Fps) returns (r: Result<()>, warned: seq<string>)
    requires NamesRegistered(names, |store.blocks|)
    modifies store, sequence
    ensures var spec := ExportedAnimations(AnimationState(old(store.blocks), old(EntriesOf(sequence)), []), names, controlled,
                                           sequence != null, fps);
            && (r.Err? <==> spec.Err?)
            && (r.Err? ==> r.error == spec.error)
            && (r.Ok? ==> store.blocks == spec.value.blocks && EntriesOf(sequence) == spec.value.entries
                          && warned == spec.value.warned)
  {
    ghost var s0 := AnimationState(store.blocks, EntriesOf(sequence), []);
    warned := [];
    for k := 0 to |controlled|
      invariant NamesRegistered(names, |store.blocks|)
      invariant ExportedAnimations(s0, names, controlled[..k], sequence != null, fps)
                == Ok(AnimationState(store.blocks, EntriesOf(sequence), warned))
    {
      assert controlled[..k + 1][..k] == controlled[..k];
      var step := ExportAction(store, sequence, names, controlled[k], fps, warned);
      if step.Err? {
        FailureSticks(s0, names, controlled, sequence != null, fps, k + 1);
        return Err(step.error), warned;
      }
      warned := step.value;
    }
    assert controlled[..|controlled|] == controlled;
    r := Ok(());
  }

  // ---------------------------------------------------------------- the UV controller

  /** `dp in fcu.data_path and fcu.array_index == ind`. */
  predicate UvMatch(fcu: FCurve, dp: string, index: int) {
    Contains(fcu.dataPath, dp) && fcu.arrayIndex == index
  }

  /** The channels of the key groups of `NiUVData`, in order: U offset, V offset, U scale, V scale. */
  const UvChannels: seq<(string, int)> := [("offset", 0), ("offset", 1), ("scale", 0), ("scale", 1)]

  /** The position of the first F-curve of a channel, if any. */
  function FirstUvCurve(fcurves: seq<FCurve>, dp: string, index: int): (r: Option<nat>)
    ensures r.None? <==> forall i :: 0 <= i < |fcurves| ==> !UvMatch(fcurves[i], dp, index)
    ensures r.Some? ==> r.value < |fcurves| && UvMatch(fcurves[r.value], dp, index)
    ensures r.Some? ==> forall i :: 0 <= i < r.value ==> !UvMatch(fcurves[i], dp, index)
  {
    FirstUvCurveFrom(fcurves, dp, index, 0)
  }

  /** The first matching F-curve at or after position `from`. */
  function FirstUvCurveFrom(fcurves: seq<FCurve>, dp: string, index: int, from: nat): (r: Option<nat>)
    requires from <= |fcurves|
    ensures r.None? <==> forall i :: from <= i < |fcurves| ==> !UvMatch(fcurves[i], dp, index)
    ensures r.Some? ==> from <= r.value < |fcurves| && UvMatch(fcurves[r.value], dp, index)
    ensures r.Some? ==> forall i :: from <= i < r.value ==> !UvMatch(fcurves[i], dp, index)
    decreases |fcurves| - from
  {
    if from == |fcurves| then None
    else if UvMatch(fcurves[from], dp, index) then Some(from)
    else FirstUvCurveFrom(fcurves, dp, index, from + 1)
  }

  /** The F-curve selected for channel `channel`. */
  function UvCurve(fcurves: seq<FCurve>, channel: nat): Option<FCurve>
    requires channel < |UvChannels|
  {
    match FirstUvCurve(fcurves, UvChannels[channel].0, UvChannels[channel].1)
    case None => None
    case Some(i) => Some(fcurves[i])
  }

  /** The selected curves of the four channels, in channel order. */
  function UvCurves(fcurves: seq<FCurve>): seq<Option<FCurve>> {
    seq(|UvChannels|, c requires 0 <= c < |UvChannels| => UvCurve(fcurves, c))
  }

  /** The selection loop of `export_ni_uv_controller`: per channel, the first matching F-curve, or `None`. */
  method SelectUvCurves(fcurves: seq<FCurve>) returns (curves: seq<Option<FCurve>>)
    ensures |curves| == |UvChannels|
    ensures forall c :: 0 <= c < |curves| ==> curves[c] == UvCurve(fcurves, c)
    ensures curves == UvCurves(fcurves)
  {
    curves := [];
    for c := 0 to |UvChannels|
      invariant |curves| == c
      invariant forall j :: 0 <= j < c ==> curves[j] == UvCurve(fcurves, j)
    {
      var dp, index := UvChannels[c].0, UvChannels[c].1;
      var found: Option<FCurve> := None;
      for i := 0 to |fcurves|
        invariant found.None?
        invariant forall j :: 0 <= j < i ==> !UvMatch(fcurves[j], dp, index)
      {
        if UvMatch(fcurves[i], dp, index) {
          found := Some(fcurves[i]);
          break;
        }
      }
      curves := curves + [found];
    }
  }

  /** The key of one keyframe of a UV curve: linear, its time in seconds, its value negated on an offset curve. */
  function UvKeyOf(kf: Keyframe, negated: bool, fps: Fps): UvKey {
    UvKey(LinearKey, kf.frame / fps, if negated then -kf.value else kf.value)
  }

  /** The key group of a UV curve: one linear key per keyframe. */
  function UvGroup(fcu: FCurve, fps: Fps): KeyGroup {
    var negated := Contains(fcu.dataPath, "offset");
    KeyGroup(|fcu.keyframes|, LinearKey,
             seq(|fcu.keyframes|, i requires 0 <= i < |fcu.keyframes| => UvKeyOf(fcu.keyframes[i], negated, fps)))
  }

  /** A key group of a fresh `NiUVData`: no keys. */
  const EmptyKeyGroup: KeyGroup := KeyGroup(0, LinearKey, [])

  /** The key groups of the `NiUVData`, zipped with the selected curves. */
  function UvGroups(curves: seq<Option<FCurve>>, fps: Fps): seq<KeyGroup> {
    seq(|curves|, c requires 0 <= c < |curves| =>
      match curves[c] case None => EmptyKeyGroup case Some(fcu) => UvGroup(fcu, fps))
  }

  /** The loop over one curve's keyframes: offsets are negated, scales are not, and every key is linear. */
  method ExportUvGroup(fcu: FCurve, fps: Fps) returns (g: KeyGroup)
    ensures g.numKeys == |fcu.keyframes| && g.interpolation == LinearKey && |g.keys| == |fcu.keyframes|
    ensures forall i :: 0 <= i < |g.keys| ==> g.keys[i].arg == LinearKey && g.keys[i].time * fps == fcu.keyframes[i].frame
    ensures forall i :: 0 <= i < |g.keys| ==>
              g.keys[i].value == if Contains(fcu.dataPath, "offset") then -fcu.keyframes[i].value else fcu.keyframes[i].value
    ensures g == UvGroup(fcu, fps)
  {
    var negated := Contains(fcu.dataPath, "offset");
    var keys: seq<UvKey> := [];
    for k := 0 to |fcu.keyframes|
      invariant |keys| == k
      invariant forall i :: 0 <= i < k ==> keys[i] == UvKeyOf(fcu.keyframes[i], negated, fps)
    {
      var b := fcu.keyframes[k];
      var value := b.value;
      if negated {
        value := -value;
      }
      keys := keys + [UvKey(LinearKey, b.frame / fps, value)];
    }
    g := KeyGroup(|fcu.keyframes|, LinearKey, keys);
    forall i | 0 <= i < |g.keys| ensures g.keys[i].time * fps == fcu.keyframes[i].frame {
      KeyTimeScaled(fcu.keyframes[i].frame, fps);
    }
  }

  /** A time `frame / fps` scaled back by `fps` is the frame. */
  lemma KeyTimeScaled(frame: real, fps: Fps)
    ensures (frame / fps) * fps == frame
  {
  }

  /** `add_controller`: `controller` joins the block's controllers, after the others. */
  function WithAddedController(b: Block, controller: nat): Block {
    b.(attrs := b.attrs["controllers" := RefsV(RefsOf(b, "controllers") + [controller])])
  }

  /** The `NiUVData` built from the selected curves. */
  function UvData(curves: seq<Option<FCurve>>, fps: Fps): Block {
    Block("NiUVData", map["uv_groups" := GroupsV(UvGroups(curves, fps))])
  }

  /** The registry after `export_ni_uv_controller` on `geometry` with the selected `curves`; an error where it reads the keyframes of a missing U offset curve. */
  function UvExported(blocks: seq<Block>, geometry: nat, curves: seq<Option<FCurve>>, fps: Fps): (r: Result<seq<Block>>)
    requires geometry < |blocks| && |curves| == |UvChannels|
  {
    if forall c :: 0 <= c < |curves| ==> curves[c].None? then Ok(blocks)
    else if curves[0].None? then Err(AttributeError("keyframe_points"))
    else if curves[0].value.keyframes == [] then Ok(blocks)
    else
      var data := |blocks|;
      var blocks' := blocks + [UvData(curves, fps), Block("NiUVController", map["data" := RefV(data)])];
      Ok(blocks'[geometry := WithAddedController(blocks[geometry], data + 1)])
  }

  /** A controller is attached exactly when the U offset curve exists and has keyframes; it reads the four key groups. */
  lemma UvControllerAttached(blocks: seq<Block>, geometry: nat, curves: seq<Option<FCurve>>, fps: Fps)
    requires geometry < |blocks| && |curves| == |UvChannels|
    ensures var r := UvExported(blocks, geometry, curves, fps);
            && (r.Err? <==> curves[0].None? && exists c :: 1 <= c < |curves| && curves[c].Some?)
            && (r.Ok? && |r.value| != |blocks| <==> curves[0].Some? && curves[0].value.keyframes != [])
            && (r.Ok? && |r.value| == |blocks| ==> r.value == blocks)
            && (r.Ok? && |r.value| != |blocks| ==>
                  && |r.value| == |blocks| + 2
                  && r.value[|blocks|] == UvData(curves, fps)
                  && r.value[|blocks| + 1] == Block("NiUVController", map["data" := RefV(|blocks|)])
                  && r.value[geometry] == WithAddedController(blocks[geometry], |blocks| + 1))
  {
    if curves[0].None? && exists c :: 1 <= c < |curves| && curves[c].Some? {
      var c :| 1 <= c < |curves| && curves[c].Some?;
      assert !(forall c :: 0 <= c < |curves| ==> curves[c].None?);
    }
  }

  /** The loop over `zip(b_f_curves, n_uv_data.uv_groups)`: a filled key group per selected curve, an empty one per missing curve. */
  method ExportUvGroups(curves: seq<Option<FCurve>>, fps: Fps) returns (groups: seq<KeyGroup>)
    ensures |groups| == |curves|
    ensures forall c :: 0 <= c < |curves| && curves[c].None? ==> groups[c] == EmptyKeyGroup
    ensures forall c :: 0 <= c < |curves| && curves[c].Some? ==> groups[c] == UvGroup(curves[c].value, fps)
    ensures groups == UvGroups(curves, fps)
  {
    groups := [];
    for c := 0 to |curves|
      invariant |groups| == c
      invariant forall j :: 0 <= j < c ==> groups[j] == UvGroups(curves, fps)[j]
    {
      var group := EmptyKeyGroup;
      if curves[c].Some? {
        group := ExportUvGroup(curves[c].value, fps);
      }
      groups := groups + [group];
    }
  }

  /** The part of `export_ni_uv_controller` after the selection: the key groups, then the controller when the U offset curve has keyframes. */
  method AttachUvController(store: BlockStore, geometry: nat, curves: seq<Option<FCurve>>, fps: Fps) returns (r: Result<()>)
    requires geometry < |store.blocks| && |curves| == |UvChannels|
    modifies store
    ensures var spec := UvExported(old(store.blocks), geometry, curves, fps);
            && (r.Err? <==> spec.Err?)
            && (r.Err? ==> r.error == spec.error && store.blocks == old(store.blocks))
            && (r.Ok? ==> store.blocks == spec.value)
  {
    if forall c :: 0 <= c < |curves| ==> curves[c].None? {
      return Ok(());
    }
    var groups := ExportUvGroups(curves, fps);
    if curves[0].None? {
      return Err(AttributeError("keyframe_points"));
    }
    if curves[0].value.keyframes == [] {
      return Ok(());
    }
    var data := store.Register(Block("NiUVData", map["uv_groups" := GroupsV(groups)]));
    var controller := store.Register(Block("NiUVController", map["data" := RefV(data)]));
    store.AppendRef(geometry, "controllers", controller);
    return Ok(());
  }

  /** `export_ni_uv_controller`: the F-curves of a UV action become a `NiUVData` behind a `NiUVController` attached to the geometry. */
  method ExportUvController(store: BlockStore, geometry: nat, action: Action, fps: Fps) returns (r: Result<()>)
    requires geometry < |store.blocks|
    modifies store
    ensures var spec := UvExported(old(store.blocks), geometry, UvCurves(action.fcurves), fps);
            && (r.Err? <==> spec.Err?)
            && (r.Err? ==> r.error == spec.error && store.blocks == old(store.blocks))
            && (r.Ok? ==> store.blocks == spec.value)
  {
    var curves := SelectUvCurves(action.fcurves);
    r := AttachUvController(store, geometry, curves, fps);
  }

  // ---------------------------------------------------------------- the flip controller

  /** The lines of the flip text that name a texture: the non-empty ones, in order. */
  function NonEmptyLines(lines: seq<string>): (r: seq<string>)
    ensures |r| <= |lines|
    ensures forall l :: l in r <==> l in lines && l != ""
    decreases |lines|
  {
    if lines == [] then []
    else
      var last := lines[|lines| - 1];
      assert lines == lines[..|lines| - 1] + [last];
      NonEmptyLines(lines[..|lines| - 1]) + (if last == "" then [] else [last])
  }

  /** One more line adds itself exactly when it is not empty. */
  lemma NonEmptyLinesStep(lines: seq<string>, k: nat)
    requires k < |lines|
    ensures NonEmptyLines(lines[..k + 1]) == NonEmptyLines(lines[..k]) + (if lines[k] == "" then [] else [lines[k]])
  {
    assert lines[..k + 1][..k] == lines[..k];
    assert lines[..k + 1][k] == lines[k];
  }

  /** No line of the text is empty exactly when none is dropped. */
  lemma {:induction false} NonEmptyLinesAll(lines: seq<string>)
    ensures |NonEmptyLines(lines)| == |lines| <==> forall i :: 0 <= i < |lines| ==> lines[i] != ""
    decreases |lines|
  {
    if lines != [] {
      var front := lines[..|lines| - 1];
      NonEmptyLinesAll(front);
      assert forall i :: 0 <= i < |front| ==> front[i] == lines[i];
      if lines[|lines| - 1] == "" {
        assert |NonEmptyLines(lines)| < |lines|;
      }
    }
  }

  /** The source textures of the flip, one per non-empty line, through `sourceOf` (`export_source_texture`). */
  function FlipSources(lines: seq<string>, sourceOf: string -> nat): (r: seq<nat>)
    ensures |r| == |NonEmptyLines(lines)|
    ensures forall i :: 0 <= i < |r| ==> r[i] == sourceOf(NonEmptyLines(lines)[i])
    decreases |lines|
  {
    if lines == [] then []
    else
      var last := lines[|lines| - 1];
      FlipSources(lines[..|lines| - 1], sourceOf) + (if last == "" then [] else [sourceOf(last)])
  }

  /** One more line adds its source texture exactly when it is not empty. */
  lemma FlipSourcesStep(lines: seq<string>, sourceOf: string -> nat, k: nat)
    requires k < |lines|
    ensures FlipSources(lines[..k + 1], sourceOf) == FlipSources(lines[..k], sourceOf) + (if lines[k] == "" then [] else [sourceOf(lines[k])])
  {
    assert lines[..k + 1][..k] == lines[..k];
    assert lines[..k + 1][k] == lines[k];
  }

  /** The flip controller's timing: the scene's frame range scaled by `fps`, as the exporter writes it. */
  function FlipStart(frameStart: int, fps: Fps): real { (frameStart - 1) as real * fps }
  function FlipStop(frameStart: int, frameEnd: int, fps: Fps): real { (frameEnd - frameStart) as real * fps }

  /** The fields of the flip controller after its loop: `num_sources` and `sources` count and list the textures; `delta` is set when there are at least two. */
  function FlipFields(lines: seq<string>, targetTex: int, frameStart: int, frameEnd: int, fps: Fps,
                      sourceOf: string -> nat): (f: map<string, Value>)
    ensures "num_sources" in f && f["num_sources"] == IntV(|NonEmptyLines(lines)|)
    ensures "sources" in f && f["sources"].RefsV? && |f["sources"].refs| == |NonEmptyLines(lines)|
    ensures forall i :: 0 <= i < |NonEmptyLines(lines)| ==> f["sources"].refs[i] == sourceOf(NonEmptyLines(lines)[i])
    ensures "delta" in f <==> |NonEmptyLines(lines)| >= 2
    ensures "texture_slot" in f && f["texture_slot"] == IntV(targetTex)
  {
    var count := |NonEmptyLines(lines)|;
    var fields := map["num_sources" := IntV(count), "sources" := RefsV(FlipSources(lines, sourceOf)),
                      "flags" := IntV(8), "frequency" := RealV(1.0),
                      "start_time" := RealV(FlipStart(frameStart, fps)),
                      "stop_time" := RealV(FlipStop(frameStart, frameEnd, fps)),
                      "texture_slot" := IntV(targetTex)];
    if count < 2 then fields
    else fields["delta" := RealV((FlipStop(frameStart, frameEnd, fps) - FlipStart(frameStart, fps)) / count as real)]
  }

  /** The error raised for a flip text with fewer than two textures. */
  function FlipError(name: string): Error {
    RaisedError("Error in Texture Flip buffer '" + name + "': must define at least two textures")
  }

  /** The registry after `export_ni_flip_controller`: the controller registered and added to `target`'s controllers. */
  function FlipExported(blocks: seq<Block>, target: nat, lines: seq<string>, targetTex: int, frameStart: int, frameEnd: int,
                        fps: Fps, sourceOf: string -> nat): seq<Block>
    requires target < |blocks|
  {
    (blocks + [Block("NiFlipController", FlipFields(lines, targetTex, frameStart, frameEnd, fps, sourceOf))])
      [target := WithAddedController(blocks[target], |blocks|)]
  }

  /** The loop over the flip text's lines: empty lines are skipped, every other one counted and exported as a source texture. */
  method FlipTextures(lines: seq<string>, sourceOf: string -> nat) returns (count: nat, sources: seq<nat>)
    ensures count == |NonEmptyLines(lines)|
    ensures sources == FlipSources(lines, sourceOf)
  {
    count, sources := 0, [];
    for k := 0 to |lines|
      invariant count == |NonEmptyLines(lines[..k])|
      invariant sources == FlipSources(lines[..k], sourceOf)
    {
      NonEmptyLinesStep(lines, k);
      FlipSourcesStep(lines, sourceOf, k);
      if lines[k] == "" {
        continue;
      }
      sources := sources + [sourceOf(lines[k])];
      count := count + 1;
    }
    assert lines[..|lines|] == lines;
  }

  /** `export_ni_flip_controller`: the controller is registered and attached to `target` before its textures are read; fewer than two textures is an error raised after that. */
  method ExportFlipController(store: BlockStore, flipName: string, lines: seq<string>, target: nat, targetTex: int,
                              frameStart: int, frameEnd: int, fps: Fps, sourceOf: string -> nat) returns (r: Result<nat>)
    requires target < |store.blocks|
    modifies store
    ensures store.blocks == FlipExported(old(store.blocks), target, lines, targetTex, frameStart, frameEnd, fps, sourceOf)
    ensures r.Err? <==> |NonEmptyLines(lines)| < 2
    ensures r.Err? ==> r.error == FlipError(flipName)
    ensures r.Ok? ==> r.value == |old(store.blocks)|
  {
    var count, sources := FlipTextures(lines, sourceOf);
    var start, stop := FlipStart(frameStart, fps), FlipStop(frameStart, frameEnd, fps);
    var fields := map["num_sources" := IntV(count), "sources" := RefsV(sources),
                      "flags" := IntV(8), "frequency" := RealV(1.0),
                      "start_time" := RealV(start), "stop_time" := RealV(stop),
                      "texture_slot" := IntV(targetTex)];
    if count >= 2 {
      fields := fields["delta" := RealV((stop - start) / count as real)];
    }
    var id := store.Register(Block("NiFlipController", fields));
    store.AppendRef(target, "controllers", id);
    if count < 2 {
      return Err(FlipError(flipName));
    }
    return Ok(id);
  }

  /** With at least two textures, the flip steps through them evenly: `delta` times their count is the span from `start_time` to `stop_time`. */
  lemma FlipDelta(lines: seq<string>, targetTex: int, frameStart: int, frameEnd: int, fps: Fps, sourceOf: string -> nat)
    requires |NonEmptyLines(lines)| >= 2
    ensures var f := FlipFields(lines, targetTex, frameStart, frameEnd, fps, sourceOf);
            && "delta" in f && f["delta"].RealV?
            && "start_time" in f && f["start_time"].RealV? && "stop_time" in f && f["stop_time"].RealV?
            && EvenlySpaced(f["delta"].r, |NonEmptyLines(lines)|, f["stop_time"].r - f["start_time"].r)
  {
    var n := |NonEmptyLines(lines)|;
    var f := FlipFields(lines, targetTex, frameStart, frameEnd, fps, sourceOf);
    var span := f["stop_time"].r - f["start_time"].r;
    assert f["delta"] == RealV(span / n as real);
    QuotientTimesDivisor(f["delta"].r, span, n);
  }

  /** `count` steps of `delta` cover `span`. */
  predicate EvenlySpaced(delta: real, count: nat, span: real) {
    delta * count as real == span
  }

  lemma QuotientTimesDivisor(q: real, x: real, d: nat)
    requires d > 0 && q == x / d as real
    ensures EvenlySpaced(q, d, x)
  {
  }
}
