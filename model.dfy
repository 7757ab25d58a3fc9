/** Model identities and model configurations, and the encoding of the BlazePose
    configuration into the dynamic record the engine's `createDetector` expects. */
module ModelCodec {
  import opened JsValues

  // ---------------------------------------------------------------------------
  // PoseNet configuration (declared, never encoded)
  // ---------------------------------------------------------------------------

  datatype PoseNetArchitecture = ResNet50 | MobileNetV1 {
    /** The derived `Display`: the variant's own name. */
    function Name(): (s: string)
      ensures s == "ResNet50" <==> this == ResNet50
      ensures s == "MobileNetV1" <==> this == MobileNetV1
    {
      match this
      case ResNet50 => "ResNet50"
      case MobileNetV1 => "MobileNetV1"
    }
  }

  /** `#[repr(i32)]`: each variant's discriminant is the stride it names. */
  datatype PoseNetOutputStride = Is32 | Is16 | Is8 {
    function Discriminant(): (d: i32)
      ensures d == 32 <==> this == Is32
      ensures d == 16 <==> this == Is16
      ensures d == 8 <==> this == Is8
    {
      match this
      case Is32 => 32
      case Is16 => 16
      case Is8 => 8
    }
  }

  datatype MobileNetMultiplier = Is1 | Is0Point5 | Is0Point75 {
    /** `Into<f64>`: the width multiplier as a number. */
    function Value(): (r: real)
      ensures 0.0 < r <= 1.0
      ensures r == 1.0 <==> this == MobileNetMultiplier.Is1
      ensures r == 0.5 <==> this == Is0Point5
      ensures r == 0.75 <==> this == Is0Point75
    {
      match this
      case Is1 => 1.0
      case Is0Point5 => 0.5
      case Is0Point75 => 0.75
    }
  }

  /** `#[repr(i32)]`: each variant's discriminant is its byte count. */
  datatype QuantBytes = Is1 | Is2 | Is4 {
    function Discriminant(): (d: i32)
      ensures d == 1 <==> this == QuantBytes.Is1
      ensures d == 2 <==> this == Is2
      ensures d == 4 <==> this == Is4
    {
      match this
      case Is1 => 1
      case Is2 => 2
      case Is4 => 4
    }
  }

  datatype InputResolution = InputResolution(width: i32, height: i32)

  datatype PoseNetModelConfig = PoseNetModelConfig(
    architecture: PoseNetArchitecture,
    outputStride: PoseNetOutputStride,
    inputResolution: InputResolution,
    multiplier: Option<MobileNetMultiplier>,
    modelUrl: Option<string>,
    quantBytes: Option<QuantBytes>)

  // ---------------------------------------------------------------------------
  // BlazePose configuration
  // ---------------------------------------------------------------------------

  datatype BlazePoseMediaPipeModelConfig = BlazePoseMediaPipeModelConfig(solutionPath: Option<string>)

  datatype BlazePoseTfjsModelConfig = BlazePoseTfjsModelConfig(
    detectorModelUrl: Option<string>,
    landmarkModelUrl: Option<string>)

  /** Which runtime runs BlazePose; the shape of the variant admits exactly one
      runtime-specific configuration. */
  datatype Runtime =
    | Mediapipe(mediapipe: BlazePoseMediaPipeModelConfig)
    | Tfjs(tfjs: BlazePoseTfjsModelConfig)

  datatype BlazePoseModelType = Lite | Full | Heavy

  datatype BlazePoseModelConfig = BlazePoseModelConfig(
    runtime: Runtime,
    enableSmoothing: Option<bool>,
    enableSegmentation: Option<bool>,
    smoothSegmentation: Option<bool>,
    modelType: Option<BlazePoseModelType>)

  // ---------------------------------------------------------------------------
  // MoveNet configuration (declared, never encoded)
  // ---------------------------------------------------------------------------

  datatype TrackerType = Keypoint | BoundingBox

  datatype KeypointTrackerConfig = KeypointTrackerConfig(
    keypointConfidenceThreshold: i32,
    keypointFalloff: seq<i32>,
    minNumberOfKeypoints: i32)

  datatype BoundingBoxTrackerConfig = BoundingBoxTrackerConfig

  datatype TrackerConfig = TrackerConfig(
    maxTracks: i32,
    maxAge: i32,
    minSimilarity: i32,
    keypointTrackerParams: Option<KeypointTrackerConfig>,
    boundingBoxTrackerParams: Option<BoundingBoxTrackerConfig>)

  datatype MoveNetModelConfig = MoveNetModelConfig(
    enableSmoothing: Option<bool>,
    modelType: Option<string>,
    modelUrl: Option<string>,
    minPoseScore: Option<i32>,
    multiPoseMaxDimension: Option<i32>,
    enableTracking: Option<bool>,
    trackerType: Option<TrackerType>,
    trackerConfig: Option<TrackerConfig>)

  /** A model family together with its optional configuration. */
  datatype Model =
    | PoseNet(poseNetConfig: Option<PoseNetModelConfig>)
    | BlazePose(blazePoseConfig: Option<BlazePoseModelConfig>)
    | MoveNet(moveNetConfig: Option<MoveNetModelConfig>)

  // ---------------------------------------------------------------------------
  // String tables
  // ---------------------------------------------------------------------------

  /** `Model::get_name`: the engine's name of the model family. */
  function GetName(m: Model): (name: string)
    ensures name == "PoseNet" <==> m.PoseNet?
    ensures name == "BlazePose" <==> m.BlazePose?
    ensures name == "MoveNet" <==> m.MoveNet?
  {
    match m
    case PoseNet(_) => "PoseNet"
    case BlazePose(_) => "BlazePose"
    case MoveNet(_) => "MoveNet"
  }

  /** `Display for Runtime`: the value of the injected "runtime" discriminant. */
  function RuntimeName(rt: Runtime): (name: string)
    ensures name == "mediapipe" <==> rt.Mediapipe?
    ensures name == "tfjs" <==> rt.Tfjs?
  {
    match rt
    case Mediapipe(_) => "mediapipe"
    case Tfjs(_) => "tfjs"
  }

  /** `Display for BlazePoseModelType`, which its `Serialize` also writes. */
  function ModelTypeName(t: BlazePoseModelType): (name: string)
    ensures name == "lite" <==> t == Lite
    ensures name == "full" <==> t == Full
    ensures name == "heavy" <==> t == Heavy
  {
    match t
    case Lite => "lite"
    case Full => "full"
    case Heavy => "heavy"
  }

  /** `Display for TrackerType`. */
  function TrackerTypeName(t: TrackerType): (name: string)
    ensures name == "keypoint" <==> t == Keypoint
    ensures name == "boundingBox" <==> t == BoundingBox
  {
    match t
    case Keypoint => "keypoint"
    case BoundingBox => "boundingBox"
  }

  // ---------------------------------------------------------------------------
  // Encoders (`Into<JsValue>`); keys are serde's camelCase renaming of the
  // Rust field names
  // ---------------------------------------------------------------------------

  const MediaPipeKeys: set<string> := {"solutionPath"}
  const TfjsKeys: set<string> := {"detectorModelUrl", "landmarkModelUrl"}
  const BlazePoseOwnKeys: set<string> := {"enableSmoothing", "enableSegmentation", "smoothSegmentation", "modelType"}

  /** The derived serialization of the MediaPipe runtime configuration. */
  function MediaPipeValue(c: BlazePoseMediaPipeModelConfig): (v: DynValue)
    ensures v.Record? && v.fields.Keys == MediaPipeKeys
    ensures v.fields["solutionPath"] == OptionalStr(c.solutionPath)
  {
    Record(map["solutionPath" := OptionalStr(c.solutionPath)])
  }

  /** The derived serialization of the TensorFlow.js runtime configuration. */
  function TfjsValue(c: BlazePoseTfjsModelConfig): (v: DynValue)
    ensures v.Record? && v.fields.Keys == TfjsKeys
    ensures v.fields["detectorModelUrl"] == OptionalStr(c.detectorModelUrl)
    ensures v.fields["landmarkModelUrl"] == OptionalStr(c.landmarkModelUrl)
  {
    Record(map["detectorModelUrl" := OptionalStr(c.detectorModelUrl),
               "landmarkModelUrl" := OptionalStr(c.landmarkModelUrl)])
  }

  /** `Into<JsValue> for Runtime`: the active sub-configuration is serialized into a
      fresh object, then the property "runtime" is set on it to the discriminant. */
  function RuntimeValue(rt: Runtime): (v: DynValue)
    ensures v.Record? && Flat(v.fields)
    ensures v.fields.Keys == {"runtime"} + (if rt.Mediapipe? then MediaPipeKeys else TfjsKeys)
    ensures v.fields["runtime"] == Str(RuntimeName(rt))
    ensures rt.Mediapipe? ==> v.fields["solutionPath"] == OptionalStr(rt.mediapipe.solutionPath)
    ensures rt.Tfjs? ==> v.fields["detectorModelUrl"] == OptionalStr(rt.tfjs.detectorModelUrl)
    ensures rt.Tfjs? ==> v.fields["landmarkModelUrl"] == OptionalStr(rt.tfjs.landmarkModelUrl)
  {
    var o := match rt
      case Mediapipe(c) => MediaPipeValue(c)
      case Tfjs(c) => TfjsValue(c);
    Record(o.fields["runtime" := Str(RuntimeName(rt))])
  }

  /** The derived serialization of `BlazePoseModelConfig`, where `runtime` is
      `skip_serializing`: only the four optional tunables. */
  function BlazePoseOwnFields(c: BlazePoseModelConfig): (fields: map<string, DynValue>)
    ensures fields.Keys == BlazePoseOwnKeys && Flat(fields)
    ensures fields["enableSmoothing"] == OptionalBool(c.enableSmoothing)
    ensures fields["enableSegmentation"] == OptionalBool(c.enableSegmentation)
    ensures fields["smoothSegmentation"] == OptionalBool(c.smoothSegmentation)
    ensures fields["modelType"] == if c.modelType.Some? then Str(ModelTypeName(c.modelType.value)) else Undefined
  {
    map["enableSmoothing" := OptionalBool(c.enableSmoothing),
        "enableSegmentation" := OptionalBool(c.enableSegmentation),
        "smoothSegmentation" := OptionalBool(c.smoothSegmentation),
        "modelType" := match c.modelType
                       case None => Undefined
                       case Some(t) => Str(ModelTypeName(t))]
  }

  /** `Into<JsValue> for BlazePoseModelConfig`: the derived serialization, then
      `Object.assign` of the runtime's record onto it. */
  function BlazePoseValue(c: BlazePoseModelConfig): (v: DynValue)
    ensures v.Record? && Flat(v.fields)
    ensures v.fields.Keys == BlazePoseOwnKeys + RuntimeValue(c.runtime).fields.Keys
    ensures "runtime" in v.fields && v.fields["runtime"] == Str(RuntimeName(c.runtime))
    ensures forall k :: k in RuntimeValue(c.runtime).fields ==> v.fields[k] == RuntimeValue(c.runtime).fields[k]
    ensures forall k :: k in BlazePoseOwnKeys ==> v.fields[k] == BlazePoseOwnFields(c)[k]
  {
    BlazePoseMergeDisjoint(c);
    var config := BlazePoseOwnFields(c);
    var runtimeConfig := RuntimeValue(c.runtime);
    var merged := Assign(config, runtimeConfig.fields);
    Record(merged)
  }

  /** `Model::get_config`: the encoded configuration passed to `createDetector`.
      Only the BlazePose family is implemented; the other two panic. */
  function GetConfig(m: Model): (r: Outcome<DynValue>)
    ensures r.Panicked? <==> !m.BlazePose?
    ensures m == BlazePose(None) ==> r == Returned(Undefined)
    ensures m.BlazePose? && m.blazePoseConfig.Some? ==> r == Returned(BlazePoseValue(m.blazePoseConfig.value))
  {
    match m
    case BlazePose(config) =>
      (match config
       case Some(c) => Returned(BlazePoseValue(c))
       case None => Returned(Undefined))
    case _ => Panicked
  }

  // ---------------------------------------------------------------------------
  // Properties
  // ---------------------------------------------------------------------------

  /** The name is determined by the family alone, never by the configuration, and
      different families have different names. */
  lemma GetNameByFamily(a: Model, b: Model)
    ensures GetName(a) in {"PoseNet", "BlazePose", "MoveNet"}
    ensures GetName(a) == GetName(b) <==> (a.PoseNet? && b.PoseNet?) || (a.BlazePose? && b.BlazePose?) || (a.MoveNet? && b.MoveNet?)
  {
  }

  /** The two runtime discriminants differ, so the engine can tell the variants apart. */
  lemma RuntimeNameDistinguishes(a: Runtime, b: Runtime)
    ensures RuntimeName(a) in {"mediapipe", "tfjs"}
    ensures RuntimeName(a) == RuntimeName(b) <==> a.Mediapipe? == b.Mediapipe?
  {
  }

  /** The model type serializes as "lite", "full" or "heavy", one string per variant. */
  lemma ModelTypeNameInjective(s: BlazePoseModelType, t: BlazePoseModelType)
    ensures ModelTypeName(s) in {"lite", "full", "heavy"}
    ensures ModelTypeName(s) == ModelTypeName(t) <==> s == t
  {
  }

  /** The tracker type displays as "keypoint" or "boundingBox", one string per variant. */
  lemma TrackerTypeNameInjective(p: TrackerType, q: TrackerType)
    ensures TrackerTypeName(p) in {"keypoint", "boundingBox"}
    ensures TrackerTypeName(p) == TrackerTypeName(q) <==> p == q
  {
  }

  /** The multiplier's number is 1, 1/2 or 3/4 and identifies the variant. */
  lemma MultiplierValueInjective(a: MobileNetMultiplier, b: MobileNetMultiplier)
    ensures a == MobileNetMultiplier.Is1 ==> a.Value() == 1.0
    ensures a == Is0Point5 ==> a.Value() == 0.5
    ensures a == Is0Point75 ==> a.Value() == 0.75
    ensures a.Value() == b.Value() <==> a == b
  {
  }

  /** A runtime record never carries a property of the other runtime. */
  lemma RuntimeRecordExcludesOtherRuntime(rt: Runtime)
    ensures rt.Mediapipe? ==> RuntimeValue(rt).fields.Keys !! TfjsKeys
    ensures rt.Tfjs? ==> RuntimeValue(rt).fields.Keys !! MediaPipeKeys
  {
  }

  /** The BlazePose record's own properties and the runtime record's properties are
      disjoint, so the merge overrides nothing: every value of the encoded record is
      the value its own source gave it. */
  lemma BlazePoseMergeDisjoint(c: BlazePoseModelConfig)
    ensures BlazePoseOwnFields(c).Keys == BlazePoseOwnKeys
    ensures BlazePoseOwnKeys !! RuntimeValue(c.runtime).fields.Keys
  {
  }

  /** Encoding loses nothing: two configurations with the same record are equal.
      The discriminant separates the runtimes and every optional tunable is read
      back from its own property. */
  lemma BlazePoseValueInjective(a: BlazePoseModelConfig, b: BlazePoseModelConfig)
    requires BlazePoseValue(a) == BlazePoseValue(b)
    ensures a == b
  {
    var va, vb := BlazePoseValue(a).fields, BlazePoseValue(b).fields;
    var ra, rb := RuntimeValue(a.runtime).fields, RuntimeValue(b.runtime).fields;
    RuntimeNameDistinguishes(a.runtime, b.runtime);
    assert ra["runtime"] == va["runtime"] == vb["runtime"] == rb["runtime"];
    if a.runtime.Mediapipe? {
      OptionalStrInjective(a.runtime.mediapipe.solutionPath, b.runtime.mediapipe.solutionPath);
    } else {
      OptionalStrInjective(a.runtime.tfjs.detectorModelUrl, b.runtime.tfjs.detectorModelUrl);
      OptionalStrInjective(a.runtime.tfjs.landmarkModelUrl, b.runtime.tfjs.landmarkModelUrl);
    }
    var oa, ob := BlazePoseOwnFields(a), BlazePoseOwnFields(b);
    assert oa["enableSmoothing"] == ob["enableSmoothing"];
    assert oa["enableSegmentation"] == ob["enableSegmentation"];
    assert oa["smoothSegmentation"] == ob["smoothSegmentation"];
    assert oa["modelType"] == ob["modelType"];
    OptionalBoolInjective(a.enableSmoothing, b.enableSmoothing);
    OptionalBoolInjective(a.enableSegmentation, b.enableSegmentation);
    OptionalBoolInjective(a.smoothSegmentation, b.smoothSegmentation);
    if a.modelType.Some? && b.modelType.Some? {
      ModelTypeNameInjective(a.modelType.value, b.modelType.value);
    }
  }

  lemma OptionalStrInjective(a: Option<string>, b: Option<string>)
    ensures OptionalStr(a) == OptionalStr(b) ==> a == b
  {
  }

  lemma OptionalBoolInjective(a: Option<bool>, b: Option<bool>)
    ensures OptionalBool(a) == OptionalBool(b) ==> a == b
  {
  }

  /** `get_config` of a model without configuration is the `undefined` marker, not
      an empty record, and it is only available for BlazePose. */
  lemma GetConfigOfBareModel(m: Model)
    requires m.BlazePose? ==> m.blazePoseConfig.None?
    ensures m.BlazePose? ==> GetConfig(m) == Returned(Undefined) && GetConfig(m) != Returned(Record(map[]))
    ensures !m.BlazePose? ==> GetConfig(m).Panicked?
  {
  }
}
