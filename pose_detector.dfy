/** Estimation configurations, their encoding, and the detector handle whose
    operations are calls, by name, on the engine's detector object. */
module Detector {
  import opened JsValues
  import opened Poses
  import opened ForeignCalls

  // ---------------------------------------------------------------------------
  // Estimation configuration and its encoding
  // ---------------------------------------------------------------------------

  datatype CommonEstimationConfig = CommonEstimationConfig(maxPoses: Option<u32>, flipHorizontal: Option<bool>)

  datatype PoseNetEstimationConfig = PoseNetEstimationConfig(
    commonConfig: CommonEstimationConfig,
    scoreThreshold: Option<real>,
    nmsRadius: Option<real>)

  datatype EstimationConfig =
    | PoseNet(poseNet: PoseNetEstimationConfig)
    | BlazePoseOrMoveNet(common: CommonEstimationConfig)

  const CommonKeys: set<string> := {"maxPoses", "flipHorizontal"}
  const PoseNetOwnKeys: set<string> := {"scoreThreshold", "nmsRadius"}

  /** `Into<JsValue> for CommonEstimationConfig`: the derived serialization, keys in
      camelCase, a `u32` becoming a number. */
  function CommonValue(c: CommonEstimationConfig): (v: DynValue)
    ensures v.Record? && Flat(v.fields) && v.fields.Keys == CommonKeys
  {
    Record(map["maxPoses" := (match c.maxPoses
                              case None => Undefined
                              case Some(n) => Num(n as real)),
               "flipHorizontal" := OptionalBool(c.flipHorizontal)])
  }

  /** The derived serialization of `PoseNetEstimationConfig`, whose `common_config`
      is `skip_serializing`: only the two PoseNet-specific tunables. */
  function PoseNetOwnFields(c: PoseNetEstimationConfig): (fields: map<string, DynValue>)
    ensures fields.Keys == PoseNetOwnKeys && Flat(fields)
    ensures fields["scoreThreshold"] == OptionalNum(c.scoreThreshold)
    ensures fields["nmsRadius"] == OptionalNum(c.nmsRadius)
  {
    map["scoreThreshold" := OptionalNum(c.scoreThreshold), "nmsRadius" := OptionalNum(c.nmsRadius)]
  }

  /** `Into<JsValue> for PoseNetEstimationConfig`: `Object.assign` onto a fresh empty
      object of the common record, then of the PoseNet-specific record. The result
      is flat: the common fields sit beside the specific ones, not under a key. */
  function PoseNetValue(c: PoseNetEstimationConfig): (v: DynValue)
    ensures v.Record? && Flat(v.fields)
    ensures v.fields.Keys == CommonKeys + PoseNetOwnKeys
    ensures "commonConfig" !in v.fields
    ensures forall k :: k in CommonKeys ==> v.fields[k] == CommonValue(c.commonConfig).fields[k]
    ensures forall k :: k in PoseNetOwnKeys ==> v.fields[k] == PoseNetOwnFields(c)[k]
  {
    var common := CommonValue(c.commonConfig).fields;
    var poseNet := PoseNetOwnFields(c);
    Record(Assign(Assign(map[], common), poseNet))
  }

  /** `Into<JsValue> for EstimationConfig`: dispatch on the variant. */
  function EstimationConfigValue(c: EstimationConfig): (v: DynValue)
    ensures v.Record? && Flat(v.fields)
    ensures c.PoseNet? ==> v == PoseNetValue(c.poseNet)
    ensures c.BlazePoseOrMoveNet? ==> v == CommonValue(c.common)
    ensures "scoreThreshold" in v.fields <==> c.PoseNet?
  {
    match c
    case PoseNet(p) => PoseNetValue(p)
    case BlazePoseOrMoveNet(common) => CommonValue(common)
  }

  /** `Option<i32>` into a JavaScript value: the number, or `undefined`. */
  function TimestampValue(t: Option<i32>): (v: DynValue)
    ensures t.None? ==> v == Undefined
    ensures t.Some? ==> v == Num(t.value as real)
  {
    match t
    case None => Undefined
    case Some(n) => Num(n as real)
  }

  // ---------------------------------------------------------------------------
  // Properties of the encoding
  // ---------------------------------------------------------------------------

  /** The common record carries the options as set: a number or a boolean when
      present, `undefined` when not. */
  lemma CommonValueCarriesOptions(c: CommonEstimationConfig)
    ensures c.maxPoses.Some? ==> CommonValue(c).fields["maxPoses"] == Num(c.maxPoses.value as real)
    ensures c.maxPoses.None? ==> CommonValue(c).fields["maxPoses"] == Undefined
    ensures CommonValue(c).fields["flipHorizontal"] == OptionalBool(c.flipHorizontal)
  {
  }

  /** The merged record's keys are the disjoint union of the common keys and the
      PoseNet-specific keys, so the merge order decides no value. */
  lemma PoseNetMergeDisjoint(c: PoseNetEstimationConfig)
    ensures CommonValue(c.commonConfig).fields.Keys !! PoseNetOwnFields(c).Keys
  {
  }

  /** Encoding an estimation configuration loses nothing, and the two variants never
      produce the same record: the PoseNet record always has the two specific keys
      (holding `undefined` when unset), the common record never has them. */
  lemma EstimationConfigValueInjective(a: EstimationConfig, b: EstimationConfig)
    requires EstimationConfigValue(a) == EstimationConfigValue(b)
    ensures a == b
  {
  }

  /** A BlazePose or MoveNet estimation configuration is encoded exactly as its common
      configuration is, with exactly the keys "maxPoses" and "flipHorizontal". */
  lemma CommonVariantEncodesAsCommon(c: CommonEstimationConfig)
    ensures EstimationConfigValue(BlazePoseOrMoveNet(c)) == CommonValue(c)
    ensures EstimationConfigValue(BlazePoseOrMoveNet(c)).fields.Keys == CommonKeys
  {
  }

  /** Asking for at most one pose, without mirroring, sends `{maxPoses: 1}` with
      "flipHorizontal" present and `undefined`. */
  lemma SinglePoseConfigValue()
    ensures EstimationConfigValue(BlazePoseOrMoveNet(CommonEstimationConfig(Some(1), None)))
         == Record(map["maxPoses" := Num(1.0), "flipHorizontal" := Undefined])
  {
  }

  // ---------------------------------------------------------------------------
  // Decoding the resolved result
  // ---------------------------------------------------------------------------

  /** `Array.from(value)` on the value the estimation promise resolved to: `None`
      when it throws (`undefined`, `null`), the elements of an array, the
      one-character strings of a string, and no elements for the other values,
      which have neither an iterator nor a length. */
  function ArrayFrom(v: DynValue): (r: Option<seq<DynValue>>)
    ensures r.None? <==> v.Undefined? || v.Null?
    ensures v.Array? ==> r == Some(v.items)
  {
    match v
    case Undefined => None
    case Null => None
    case Array(items) => Some(items)
    case Str(s) => Some(seq(|s|, i requires 0 <= i < |s| => Str([s[i]])))
    case _ => Some([])
  }

  /** `.map(|pose| Pose::try_from(pose).unwrap()).collect()`: one pose per element,
      in order, or a panic at the first element that does not decode. */
  method DecodeAll(items: seq<DynValue>) returns (r: Outcome<seq<Pose>>)
    ensures r.Returned? <==> forall i :: 0 <= i < |items| ==> DecodePose(items[i]).Ok?
    ensures r.Returned? ==> |r.value| == |items|
    ensures r.Returned? ==> forall i :: 0 <= i < |items| ==> DecodePose(items[i]) == Ok(r.value[i])
  {
    var poses: seq<Pose> := [];
    var i := 0;
    while i < |items|
      invariant 0 <= i <= |items|
      invariant |poses| == i
      invariant forall j :: 0 <= j < i ==> DecodePose(items[j]) == Ok(poses[j])
    {
      var pose := DecodePose(items[i]);
      if pose.Err? {
        return Panicked;
      }
      poses := poses + [pose.value];
      i := i + 1;
    }
    r := Returned(poses);
  }

  // ---------------------------------------------------------------------------
  // The detector handle
  // ---------------------------------------------------------------------------

  /** The argument list of `estimatePoses`: the image, the encoded configuration and
      the timestamp, in that order. */
  function EstimateCall(detector: DynValue, image: DynValue, config: EstimationConfig, timestamp: Option<i32>): (call: Invocation)
    ensures call.target == detector && call.name == "estimatePoses"
    ensures call.args == [image, EstimationConfigValue(config), TimestampValue(timestamp)]
  {
    Invocation(detector, "estimatePoses", [image, EstimationConfigValue(config), TimestampValue(timestamp)])
  }

  /** A detector wraps the engine's detector object and nothing else; its operations
      never replace it. */
  datatype PoseDetector = PoseDetector(jsValue: DynValue) {

    /** `From<JsValue>`. */
    static function From(value: DynValue): (d: PoseDetector)
      ensures d.jsValue == value
    {
      PoseDetector(value)
    }

    /** `Into<JsValue>`. */
    function Into(): (value: DynValue)
      ensures PoseDetector(value) == this
    {
      jsValue
    }

    /** `estimate_poses`: one call of "estimatePoses" on the detector object. A failed
        call or a rejected promise is returned as the error, with nothing decoded; a
        resolved value is turned into an array and decoded element by element, where
        an element that does not decode panics. */
    method EstimatePoses(engine: Engine, image: DynValue, config: EstimationConfig, timestamp: Option<i32>)
      returns (r: Outcome<Result<seq<Pose>, DynValue>>)
      modifies engine
      ensures engine.trace == old(engine.trace) + [EstimateCall(jsValue, image, config, timestamp)]
      ensures var called := engine.Respond(EstimateCall(jsValue, image, config, timestamp));
        called.Err? ==> r == Returned(Err(called.error))
      ensures var called := engine.Respond(EstimateCall(jsValue, image, config, timestamp));
        called.Ok? && engine.settle(called.value).Err? ==> r == Returned(Err(engine.settle(called.value).error))
      ensures var called := engine.Respond(EstimateCall(jsValue, image, config, timestamp));
        called.Ok? && engine.settle(called.value).Ok? ==>
          var items := ArrayFrom(engine.settle(called.value).value);
          (r.Panicked? <==> items.None? || exists i :: 0 <= i < |items.value| && DecodePose(items.value[i]).Err?) &&
          (r.Returned? ==> r.value.Ok?)
      ensures r.Returned? && r.value.Ok? ==>
        var called := engine.Respond(EstimateCall(jsValue, image, config, timestamp));
        called.Ok? && engine.settle(called.value).Ok? &&
        var items := ArrayFrom(engine.settle(called.value).value);
        items.Some? && |r.value.value| == |items.value| &&
        forall i :: 0 <= i < |items.value| ==> DecodePose(items.value[i]) == Ok(r.value.value[i])
    {
      var inputs := [image, EstimationConfigValue(config), TimestampValue(timestamp)];
      var promise := engine.CallMethod(jsValue, "estimatePoses", inputs);
      if promise.Err? {
        return Returned(Err(promise.error));
      }
      var settled := engine.settle(promise.value);
      if settled.Err? {
        return Returned(Err(settled.error));
      }
      var items := ArrayFrom(settled.value);
      if items.None? {
        return Panicked;
      }
      var poses := DecodeAll(items.value);
      match poses {
        case Panicked =>
          r := Panicked;
        case Returned(ps) =>
          r := Returned(Ok(ps));
      }
    }

    /** `dispose`: one call of "dispose" with no arguments; a failed call panics. */
    method Dispose(engine: Engine) returns (r: Outcome<()>)
      modifies engine
      ensures engine.trace == old(engine.trace) + [Invocation(jsValue, "dispose", [])]
      ensures r.Panicked? <==> engine.Respond(Invocation(jsValue, "dispose", [])).Err?
    {
      var result := engine.CallMethod(jsValue, "dispose", []);
      if result.Err? {
        return Panicked;
      }
      r := Returned(());
    }

    /** `reset`: one call of "reset" with no arguments; a failed call panics. */
    method Reset(engine: Engine) returns (r: Outcome<()>)
      modifies engine
      ensures engine.trace == old(engine.trace) + [Invocation(jsValue, "reset", [])]
      ensures r.Panicked? <==> engine.Respond(Invocation(jsValue, "reset", [])).Err?
    {
      var result := engine.CallMethod(jsValue, "reset", []);
      if result.Err? {
        return Panicked;
      }
      r := Returned(());
    }
  }

  /** A client of the handle: with an engine whose detector answers every call and
      resolves the estimation to one pose with the single keypoint (10, 20), asking
      for one pose without a timestamp issues `estimatePoses(image, {maxPoses: 1,
      flipHorizontal: undefined}, undefined)` and nothing else, and yields that pose. */
  method EndToEndScenario(image: DynValue)
  {
    var poseRecord := Record(map["keypoints" := Array([Record(map["x" := Num(10.0), "y" := Num(20.0)])])]);
    var pose := Pose([Keypoint(10.0, 20.0, None, None, None)], None, None, None, None);
    SingleKeypointPose();
    assert DecodePose(poseRecord) == Ok(pose);
    var engine := new Engine((target, key) => Function, call => Ok(Opaque(1)), promise => Ok(Array([poseRecord])));
    var detector := PoseDetector.From(Opaque(0));
    var config := BlazePoseOrMoveNet(CommonEstimationConfig(Some(1), None));
    SinglePoseConfigValue();
    var r := detector.EstimatePoses(engine, image, config, None);
    assert engine.trace == [Invocation(Opaque(0), "estimatePoses",
                                       [image, Record(map["maxPoses" := Num(1.0), "flipHorizontal" := Undefined]), Undefined])];
    assert [poseRecord][0] == poseRecord;
    assert r.Returned? && r.value.Ok? && |r.value.value| == 1 && r.value.value[0] == pose;
    assert r.value.value == [pose];
  }

  /** A client disposing a fresh detector: exactly one "dispose" call with no
      arguments is issued, and an engine whose detector has no "dispose" function
      makes it panic. */
  method DisposeScenario()
  {
    var engine := new Engine((target, key) => Function, call => Ok(Undefined), promise => Ok(promise));
    var detector := PoseDetector.From(Opaque(0));
    var d := detector.Dispose(engine);
    assert d.Returned?;
    assert engine.trace == [Invocation(Opaque(0), "dispose", [])];
    var broken := new Engine((target, key) => NotAFunction, call => Ok(Undefined), promise => Ok(promise));
    d := detector.Dispose(broken);
    assert d == Panicked;
  }

  /** Wrapping a value and unwrapping it gives the same value back, and the other
      way round. */
  lemma WrapUnwrap(value: DynValue, d: PoseDetector)
    ensures PoseDetector.From(value).Into() == value
    ensures PoseDetector.From(d.Into()) == d
  {
  }

  /** The estimation call always names "estimatePoses" and passes exactly three
      arguments: the image, the encoded configuration, and the timestamp or
      `undefined`. */
  lemma EstimateCallShape(detector: DynValue, image: DynValue, config: EstimationConfig, timestamp: Option<i32>)
    ensures var call := EstimateCall(detector, image, config, timestamp);
      call.target == detector && call.name == "estimatePoses" && |call.args| == 3 &&
      call.args[0] == image && call.args[1] == EstimationConfigValue(config) &&
      (timestamp.None? ==> call.args[2] == Undefined) &&
      (timestamp.Some? ==> call.args[2] == Num(timestamp.value as real))
  {
  }
}
