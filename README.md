# Pose-detection adapter: configuration codec, pose decoder and detector handle

This project models the core of a Rust/WebAssembly adapter over the JavaScript
pose-detection engine (`@tensorflow-models/pose-detection`), and proves properties of that model.
The adapter does three things:

- **Configuration codec** (`model.rs`, first half of `pose_detector.rs`). It turns typed
  model and estimation configurations into the dynamic records the engine expects.
  Keys are serde's camelCase renaming of the Rust field names. For BlazePose, the
  runtime sub-configuration is flattened into the parent record with
  `Object.assign`, and a `"runtime"` discriminant is injected. For PoseNet estimation,
  the common and PoseNet-specific records are merged, flat, onto a fresh object.
- **Pose decoder** (`pose.rs`). It turns the engine's dynamic output back into typed
  `Pose`, `Keypoint` and `BoundingBox` values, through derived serde
  deserialization. Keys are the Rust field names verbatim.
- **Detector handle** (second half of `pose_detector.rs`). It wraps the engine's
  detector object. `estimate_poses`, `dispose` and `reset` are calls, by name,
  through `call_method`.

Files:

- `js_values.dfy` (module `JsValues`): dynamic values (`DynValue`),
  `Option`/`Result`, the `Outcome` of a Rust call (returned or panicked), `u32`/`i32`,
  property lookup, and `Object.assign` as map override.
- `model.dfy` (module `ModelCodec`): everything in `src/model.rs`.
- `pose.dfy` (module `Poses`): everything in `src/pose.rs`, with the derived
  `Serialize` and `Deserialize`.
- `foreign_calls.dfy` (module `ForeignCalls`): the `call_method` capability as an
  `Engine` class. Its behaviour is given by three functions:
  - what a property lookup finds;
  - what a call returns or throws;
  - how a promise settles.
  Each request is appended to a ghost `trace`.
- `pose_detector.dfy` (module `Detector`): estimation configurations and their
  encoding, the result decoding loop, and `PoseDetector` with `EstimatePoses`,
  `Dispose` and `Reset`. Two client methods, `EndToEndScenario` and
  `DisposeScenario`, show what a caller can prove from these contracts.

What the code does at the points where a reader might expect otherwise:

- An unset `Option` field is **not** omitted from an encoded record. serde-wasm-bindgen
  sets the property to `undefined` (`src/model.rs:137-140`, `src/pose_detector.rs:50-51`).
  As a result, a PoseNet estimation record always has the keys "scoreThreshold" and
  "nmsRadius", so it never equals a common record (`EstimationConfigValueInjective`).
  Asking for one pose sends `{maxPoses: 1, flipHorizontal: undefined}`.
- `get_config` for PoseNet and MoveNet panics (`src/model.rs:220`). It does not
  return an "unsupported model" error. This is modelled as the `Panicked` outcome.
- `dispose` and `reset` panic when the call fails (`src/pose_detector.rs:119`, `:123`).
  The failure is not reported as an error. There is no `Drop` implementation and
  no "already disposed" flag: every call of `dispose` issues one more "dispose" call.
- `estimate_poses` returns `Err` with the thrown value when the lookup or call fails,
  or with the rejection value when the promise rejects. When "estimatePoses" is not a
  function, that value is `undefined` (`src/call_method.rs:8`). A pose that does not decode
  panics rather than returning an error naming its position (`src/pose_detector.rs:112`).
- The pose decoder reads "keypoints_3d", "bounding_box", "x_min" and the other field
  names verbatim. Properties spelled differently, for example "keypoints3D",
  "boundingBox" or "xMin", are ignored (`PoseIgnoresUndeclaredKeys`) or make a
  required field missing (`BoundingBoxRejectsCamelCase`).

## Model

| member | source | states |
|---|---|---|
| `ModelCodec.PoseNetArchitecture.Name` | src/model.rs:9-13 | the derived Display writes "ResNet50" or "MobileNetV1", each exactly for its own variant |
| `ModelCodec.PoseNetOutputStride.Discriminant` | src/model.rs:15-20 | the discriminants are 32, 16 and 8, each exactly for its own variant |
| `ModelCodec.QuantBytes.Discriminant` | src/model.rs:37-42 | the discriminants are 1, 2 and 4, each exactly for its own variant |
| `ModelCodec.MobileNetMultiplier.Value` | src/model.rs:27-35 | the multiplier converts to a number in (0, 1]: 1.0, 0.5 or 0.75, each exactly for its own variant |
| `ModelCodec.MultiplierValueInjective` | src/model.rs:27-35 | the multiplier converts to 1.0, 0.5 and 0.75, and distinct variants give distinct numbers |
| `ModelCodec.GetName` | src/model.rs:205-212 | get_name is "PoseNet", "BlazePose" or "MoveNet", each exactly for its own family (proved to ignore the configuration in `GetNameByFamily`) |
| `ModelCodec.GetNameByFamily` | src/model.rs:205-212 | the name is "PoseNet", "BlazePose" or "MoveNet"; two models have the same name exactly when they are of the same family, whatever their configurations |
| `ModelCodec.RuntimeName` | src/model.rs:87-95 | the runtime displays as "mediapipe" exactly for MediaPipe and as "tfjs" exactly for TensorFlow.js |
| `ModelCodec.RuntimeNameDistinguishes` | src/model.rs:87-95 | the runtime discriminant is "mediapipe" or "tfjs", and two runtimes share it exactly when they are the same variant |
| `ModelCodec.ModelTypeName` | src/model.rs:113-130 | the model type displays, and serializes, as "lite", "full" or "heavy", each exactly for its own variant |
| `ModelCodec.ModelTypeNameInjective` | src/model.rs:108-130 | the model type serializes as "lite", "full" or "heavy", a different string per variant |
| `ModelCodec.TrackerTypeName` | src/model.rs:161-169 | the tracker type displays as "keypoint" or "boundingBox", each exactly for its own variant |
| `ModelCodec.TrackerTypeNameInjective` | src/model.rs:157-169 | the tracker type displays as "keypoint" or "boundingBox", a different string per variant |
| `ModelCodec.MediaPipeValue` | src/model.rs:58-66 | the MediaPipe configuration serializes as a record with exactly the camelCase key solutionPath, holding the path or `undefined` |
| `ModelCodec.TfjsValue` | src/model.rs:68-81 | the TensorFlow.js configuration serializes as a record with exactly the keys detectorModelUrl and landmarkModelUrl, each holding its URL or `undefined` |
| `ModelCodec.RuntimeValue` | src/model.rs:96-106 | a runtime encodes as a flat record whose keys are exactly "runtime" plus the active sub-configuration's camelCase keys ({solutionPath} or {detectorModelUrl, landmarkModelUrl}); "runtime" holds the discriminant and every other key holds its option's value or `undefined` |
| `ModelCodec.RuntimeRecordExcludesOtherRuntime` | src/model.rs:58-106 | a runtime record never carries a key of the other runtime's configuration |
| `ModelCodec.BlazePoseOwnFields` | src/model.rs:132-141 | the derived serialization with `runtime` skipped has exactly the keys enableSmoothing, enableSegmentation, smoothSegmentation, modelType, none holding a nested record; each boolean holds `Bool(b)` when `Some(b)` and `undefined` when `None`, and modelType holds its name ("lite", "full" or "heavy") or `undefined` |
| `ModelCodec.BlazePoseValue` | src/model.rs:143-155 | the BlazePose record is flat, its keys are the four own keys plus the runtime record's keys, "runtime" holds the discriminant, every runtime key holds the runtime record's value, and every own key holds the derived serialization's value |
| `ModelCodec.BlazePoseMergeDisjoint` | src/model.rs:132-155 | the own keys and the runtime record's keys are disjoint, so the `Object.assign` overrides no value |
| `ModelCodec.BlazePoseValueInjective` | src/model.rs:132-155 | encoding loses nothing: two BlazePose configurations with the same record are equal (runtime variant, its URLs or path, and every optional tunable) |
| `ModelCodec.GetConfig` | src/model.rs:214-222 | get_config panics exactly for PoseNet and MoveNet; BlazePose without configuration gives `undefined`, and with a configuration gives its BlazePose record |
| `ModelCodec.GetConfigOfBareModel` | src/model.rs:214-222 | a BlazePose model without configuration gives the `undefined` marker, not an empty record; the other families panic |
| `Poses.KeypointValue` | src/pose.rs:5-12 | the derived Serialize writes a flat record with exactly the keys x, y, z, score and name (decoded back by `KeypointRoundTrip`) |
| `Poses.BoundingBoxValue` | src/pose.rs:14-22 | the derived Serialize writes a record with exactly the six keys x_min, y_min, x_max, y_max, width and height, each a number (decoded back by `BoundingBoxRoundTrip`) |
| `Poses.PoseValue` | src/pose.rs:24-32 | the derived Serialize writes a record with exactly the keys keypoints, score, keypoints_3d, bounding_box and id, the keypoints as an array of the same length (decoded back by `PoseRoundTrip`) |
| `Poses.DecodeNumber` | src/pose.rs:7-8 | a required `f64` accepts exactly a number, and gives that number |
| `Poses.DecodeOptionalNumber` | src/pose.rs:9-10 | an `Option<f64>` accepts exactly `undefined`, `null` or a number; the first two give `None`, a number gives `Some` of it |
| `Poses.DecodeOptionalString` | src/pose.rs:11 | an `Option<String>` accepts exactly `undefined`, `null` or a string; the first two give `None`, a string gives `Some` of it |
| `Poses.DecodeKeypoint` | src/pose.rs:5-12 | only an object decodes; `KeypointDecodes` states exactly when it succeeds and what it gives |
| `Poses.KeypointDecodes` | src/pose.rs:5-12 | a keypoint decodes exactly when the value is an object whose x and y are numbers and whose z, score and name are each absent, `null` or of their type; it carries x and y, and `Some` of each present optional value |
| `Poses.KeypointOptionalExamples` | src/pose.rs:5-12 | {x: 1, y: 2, z: 3} gives z = Some(3) with score and name `None`; {x: 1, y: 2, z: "a"} is an error |
| `Poses.DecodeKeypoints` | src/pose.rs:26 | a `Vec<Keypoint>` decodes exactly from an array whose every element decodes |
| `Poses.DecodeOptionalKeypoints` | src/pose.rs:28 | an `Option<Vec<Keypoint>>` decodes exactly when it is absent, `null` or a decodable array; absent and `null` give `None` |
| `Poses.DecodeBoundingBox` | src/pose.rs:14-22 | only an object decodes; `BoundingBoxRequiresAll` states exactly when it succeeds and what it gives |
| `Poses.DecodeOptionalBoundingBox` | src/pose.rs:29 | an `Option<BoundingBox>` decodes exactly when it is absent, `null` or a decodable box; absent and `null` give `None` |
| `Poses.DecodePose` | src/pose.rs:34-40 | only an object decodes; `PoseDecodes` states exactly when it succeeds and what it gives |
| `Poses.PoseDecodes` | src/pose.rs:24-40 | a pose decodes exactly when the value is an object whose keypoints is a decodable array, whose score and id are absent, `null` or numbers, and whose keypoints_3d and bounding_box are absent, `null` or decodable; the pose carries what each decodes to, `None` for the absent ones |
| `Poses.PoseMistypedExamples` | src/pose.rs:24-40 | a pose whose score is a string, or whose bounding_box is the empty object, is an error |
| `Poses.DecodeKeypointSeq` | src/pose.rs:26 | a keypoint array decodes exactly when every element decodes; the result keeps the array's length and order, element by element |
| `Poses.KeypointRequiresXY` | src/pose.rs:5-12 | a keypoint decodes only from an object whose "x" and "y" are numbers, and it carries those numbers |
| `Poses.KeypointOptionalsAbsent` | src/pose.rs:5-12 | when "z", "score" and "name" are absent, they decode as `None` |
| `Poses.BoundingBoxRequiresAll` | src/pose.rs:14-22 | a bounding box decodes exactly when all six fields x_min, y_min, x_max, y_max, width and height are numbers, and it carries those numbers |
| `Poses.BoundingBoxRejectsCamelCase` | src/pose.rs:14-22 | a box keyed "xMin", "yMin", ... does not decode: the keys are the Rust names verbatim |
| `Poses.PoseRequiresKeypoints` | src/pose.rs:24-32 | a pose decodes only when "keypoints" is an array of decodable keypoints; the decoded keypoints keep its length and order |
| `Poses.PoseOptionalsAbsent` | src/pose.rs:24-32 | when "score", "keypoints_3d", "bounding_box" and "id" are absent, they decode as `None` |
| `Poses.PoseRejectsMalformedKeypoint` | src/pose.rs:34-40 | one keypoint that does not decode makes the whole pose an error; no partial pose is returned |
| `Poses.PoseIgnoresUndeclaredKeys` | src/pose.rs:24-32 | adding a property the schema does not declare (such as "boundingBox" or "keypoints3D") leaves the decoding unchanged |
| `Poses.PoseUndefinedIsAbsent` | src/pose.rs:34-40 | a property holding `undefined` decodes as if it were missing |
| `Poses.SingleKeypointPose` | src/pose.rs:34-40 | a record with one keypoint {x: 10, y: 20} decodes to that keypoint with every optional field `None` |
| `Poses.KeypointRoundTrip` | src/pose.rs:5-12 | encoding a keypoint and decoding it back gives the same keypoint |
| `Poses.KeypointsRoundTrip` | src/pose.rs:26 | encoding a keypoint sequence as an array and decoding it back gives the same sequence |
| `Poses.BoundingBoxRoundTrip` | src/pose.rs:14-22 | encoding a bounding box and decoding it back gives the same box |
| `Poses.PoseRoundTrip` | src/pose.rs:24-32 | encoding a pose and decoding it back gives the same pose, for every mix of present and absent optional fields |
| `ForeignCalls.Engine.CallMethod` | src/call_method.rs:4-12 | every request is appended to the trace; its result is the lookup's exception, `Err(undefined)` when the property is not a function, or what the function returns or throws |
| `Detector.CommonValue` | src/pose_detector.rs:47-57 | the common record is flat and has exactly the keys maxPoses and flipHorizontal |
| `Detector.CommonValueCarriesOptions` | src/pose_detector.rs:47-57 | maxPoses holds the number and flipHorizontal the boolean when set; each holds `undefined` when not set |
| `Detector.PoseNetOwnFields` | src/pose_detector.rs:59-66 | with common_config skipped, the derived serialization has exactly the keys scoreThreshold and nmsRadius, each holding its number when set and `undefined` when not |
| `Detector.PoseNetValue` | src/pose_detector.rs:67-79 | the merged PoseNet record is flat, has exactly the keys maxPoses, flipHorizontal, scoreThreshold and nmsRadius, and no "commonConfig"; common keys carry the common values and specific keys the specific values |
| `Detector.PoseNetMergeDisjoint` | src/pose_detector.rs:59-79 | the common keys and the PoseNet-specific keys are disjoint, so the merge order decides no value |
| `Detector.EstimationConfigValue` | src/pose_detector.rs:86-93 | the PoseNet variant encodes as its merged PoseNet record and the other as its common record; the result is flat, and it has "scoreThreshold" exactly for PoseNet |
| `Detector.TimestampValue` | src/pose_detector.rs:102 | the timestamp is passed as its number, or as `undefined` when there is none |
| `Detector.EstimateCall` | src/pose_detector.rs:102-107 | the estimation request targets the detector, names "estimatePoses" and passes the image, the encoded configuration and the timestamp value, in that order |
| `Detector.EstimationConfigValueInjective` | src/pose_detector.rs:81-93 | encoding an estimation configuration loses nothing, and the two variants never produce the same record |
| `Detector.CommonVariantEncodesAsCommon` | src/pose_detector.rs:86-93 | the BlazePose-or-MoveNet variant encodes exactly as its common configuration, with exactly the keys maxPoses and flipHorizontal |
| `Detector.SinglePoseConfigValue` | src/pose_detector.rs:47-57 | asking for one pose without mirroring sends {maxPoses: 1, flipHorizontal: undefined} |
| `Detector.ArrayFrom` | src/pose_detector.rs:109 | Array.from throws exactly on `undefined` and `null`, and gives an array's own elements |
| `Detector.DecodeAll` | src/pose_detector.rs:109-114 | the loop returns exactly when every element decodes, with one pose per element in the same order; otherwise it panics |
| `Detector.EstimateCallShape` | src/pose_detector.rs:102-107 | the estimation request names "estimatePoses" on the detector with exactly three arguments: the image, the encoded configuration, and the timestamp or `undefined` |
| `Detector.PoseDetector.EstimatePoses` | src/pose_detector.rs:96-115 | exactly one request is added to the trace; a failed call or a rejected promise returns that error with nothing decoded; otherwise the result panics exactly when Array.from throws or some element does not decode, and an `Ok` holds one decoded pose per element, in order |
| `Detector.PoseDetector.Dispose` | src/pose_detector.rs:117-120 | exactly one request "dispose" with no arguments is added to the trace; it panics exactly when that call fails |
| `Detector.PoseDetector.Reset` | src/pose_detector.rs:122-124 | exactly one request "reset" with no arguments is added to the trace; it panics exactly when that call fails |
| `Detector.PoseDetector.From` | src/pose_detector.rs:35-39 | `From<JsValue>` wraps exactly the given value |
| `Detector.PoseDetector.Into` | src/pose_detector.rs:41-45 | `Into<JsValue>` gives back the value the handle wraps, and rewrapping it gives the same handle |
| `Detector.WrapUnwrap` | src/pose_detector.rs:35-45 | wrapping a value and unwrapping it gives the same value back, and the other way round |

## Left out

- Asynchrony: the futures, `JsFuture` and promise scheduling are not modelled. Awaiting is modelled only as the resolved or rejected outcome that the engine's `settle` function gives.
- ForeignCalls.Engine.settle: it is total, so a call result that is not a promise always settles. In the source, `Promise::from` is an unchecked cast and `JsFuture::from` then calls `.then` on the value through an import that does not catch (`src/pose_detector.rs:103`). A result without a callable `then` therefore panics there, and the model does not produce that panic.
- The engine: its behaviour is a fixed function of each request. Its answers do not depend on earlier calls, and nothing about its own state (for example, use after dispose) is modelled.
- Doubles (`f64`): modelled as reals. NaN and the infinities are not represented. The adapter does no arithmetic on them.
- Property order: records are maps, so the insertion order of properties is not modelled.
- JsValues.Get: the decoder's property reads see own properties only. serde-wasm-bindgen's reads also see inherited properties (the prototype chain). The lookup of `call_method` is the engine's `property` function, which is left abstract.
- Detector.ArrayFrom: plain objects and opaque objects are treated as having neither an iterator nor a `length`. Array-likes with a "length" property, and iterables such as `Map` or `Set`, are not modelled.
- Poses.DecodeKeypoints: sequences are decoded only from arrays. The deserializer's support for other iterables, for JavaScript `Map` objects and for BigInt is not modelled.
- Poses.DecodeError: serde's error message (which field failed, and why) is a single value `SchemaMismatch`.
- The message of a panic (for example "Not implemented. Make an issue :)") is not modelled; a panic is the single outcome `Panicked`.
- The `unwrap`s of serialization, of `Reflect::set` and of `dyn_into::<Object>` in the encoders are modelled as never failing. The values are fresh plain objects built from these structs.
- Encodings of `PoseNetModelConfig`, `MoveNetModelConfig` and `TrackerConfig` are not modelled: the source never encodes them, because `get_config` panics first. Their data types are modelled.
- The derived `Serialize`/`Deserialize` of `EstimationConfig` and the derived `Deserialize` of the estimation configurations are not modelled: the adapter never uses them.
- The `JsCast` implementation (`instanceof`, `unchecked_from_js`, `unchecked_from_js_ref`), `AsRef` and the derived `Clone` of `PoseDetector` are not modelled. They are conversions of the wrapper, with no behaviour to verify.
- `create_detector` and `BackendName` (`src/lib.rs`), `get_adjacent_pairs` (`src/util.rs`) and the `extern` bindings (`src/bindings.rs`) are not part of this model. They are foreign-call plumbing outside the codec and the handle.
- Disposal on drop: `PoseDetector` has no `Drop` implementation, and nothing guarantees that "dispose" is called at most once. Each `Dispose` issues its own call.
