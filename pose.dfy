/** The typed result of an estimation (`Keypoint`, `BoundingBox`, `Pose`) and its
    derived serde (de)serialization to and from dynamic values.

    The derived deserializer, as serde-wasm-bindgen drives it, reads each declared
    field of a struct from an object by the Rust field name itself (these structs
    have no `rename_all`). A property holding `undefined` counts as missing. A missing
    `Option` field, or one holding `null`, is `None`. A missing required field, or a
    value of the wrong type, is an error. Properties the struct does not declare
    are ignored. */
module Poses {
  import opened JsValues

  datatype Keypoint = Keypoint(x: real, y: real, z: Option<real>, score: Option<real>, name: Option<string>)

  datatype BoundingBox = BoundingBox(xMin: real, yMin: real, xMax: real, yMax: real, width: real, height: real)

  datatype Pose = Pose(
    keypoints: seq<Keypoint>,
    score: Option<real>,
    keypoints3d: Option<seq<Keypoint>>,
    boundingBox: Option<BoundingBox>,
    id: Option<real>)

  /** `serde_wasm_bindgen::Error`; which field failed and why is not modelled. */
  datatype DecodeError = SchemaMismatch

  const KeypointKeys: set<string> := {"x", "y", "z", "score", "name"}
  const BoundingBoxKeys: set<string> := {"x_min", "y_min", "x_max", "y_max", "width", "height"}
  const PoseKeys: set<string> := {"keypoints", "score", "keypoints_3d", "bounding_box", "id"}

  // ---------------------------------------------------------------------------
  // Serialization (derived `Serialize`)
  // ---------------------------------------------------------------------------

  function KeypointValue(k: Keypoint): (v: DynValue)
    ensures v.Record? && Flat(v.fields) && v.fields.Keys == KeypointKeys
  {
    Record(map["x" := Num(k.x), "y" := Num(k.y), "z" := OptionalNum(k.z),
               "score" := OptionalNum(k.score), "name" := OptionalStr(k.name)])
  }

  function KeypointsValue(ks: seq<Keypoint>): (v: DynValue)
  {
    Array(seq(|ks|, i requires 0 <= i < |ks| => KeypointValue(ks[i])))
  }

  function BoundingBoxValue(b: BoundingBox): (v: DynValue)
    ensures v.Record? && v.fields.Keys == BoundingBoxKeys
    ensures forall k :: k in BoundingBoxKeys ==> v.fields[k].Num?
  {
    Record(map["x_min" := Num(b.xMin), "y_min" := Num(b.yMin), "x_max" := Num(b.xMax),
               "y_max" := Num(b.yMax), "width" := Num(b.width), "height" := Num(b.height)])
  }

  function PoseValue(p: Pose): (v: DynValue)
    ensures v.Record? && v.fields.Keys == PoseKeys
    ensures v.fields["keypoints"].Array? && |v.fields["keypoints"].items| == |p.keypoints|
  {
    Record(map["keypoints" := KeypointsValue(p.keypoints),
               "score" := OptionalNum(p.score),
               "keypoints_3d" := (match p.keypoints3d
                                  case None => Undefined
                                  case Some(ks) => KeypointsValue(ks)),
               "bounding_box" := (match p.boundingBox
                                  case None => Undefined
                                  case Some(b) => BoundingBoxValue(b)),
               "id" := OptionalNum(p.id)])
  }

  // ---------------------------------------------------------------------------
  // Deserialization (derived `Deserialize`)
  // ---------------------------------------------------------------------------

  /** A value an `Option` field reads as `None`: missing (`undefined`) or `null`. */
  predicate IsAbsent(v: DynValue)
  {
    v.Undefined? || v.Null?
  }

  /** The number a present `Option<f64>` field carries, `None` for any other value. */
  function NumberIfPresent(v: DynValue): Option<real>
  {
    if v.Num? then Some(v.n) else None
  }

  /** The string a present `Option<String>` field carries, `None` for any other value. */
  function StringIfPresent(v: DynValue): Option<string>
  {
    if v.Str? then Some(v.s) else None
  }

  /** A required `f64`: only a number is accepted. */
  function DecodeNumber(v: DynValue): (r: Result<real, DecodeError>)
    ensures r.Ok? <==> v.Num?
    ensures r.Ok? ==> r.value == v.n
  {
    if v.Num? then Ok(v.n) else Err(SchemaMismatch)
  }

  /** `Option<f64>`: `undefined` (also a missing property) and `null` are `None`. */
  function DecodeOptionalNumber(v: DynValue): (r: Result<Option<real>, DecodeError>)
    ensures r.Ok? <==> IsAbsent(v) || v.Num?
    ensures r.Ok? ==> r.value == NumberIfPresent(v)
  {
    match v
    case Undefined => Ok(None)
    case Null => Ok(None)
    case Num(n) => Ok(Some(n))
    case _ => Err(SchemaMismatch)
  }

  /** `Option<String>`. */
  function DecodeOptionalString(v: DynValue): (r: Result<Option<string>, DecodeError>)
    ensures r.Ok? <==> IsAbsent(v) || v.Str?
    ensures r.Ok? ==> r.value == StringIfPresent(v)
  {
    match v
    case Undefined => Ok(None)
    case Null => Ok(None)
    case Str(s) => Ok(Some(s))
    case _ => Err(SchemaMismatch)
  }

  /** `Keypoint`'s derived deserialization; `KeypointDecodes` characterises it. */
  function DecodeKeypoint(v: DynValue): (r: Result<Keypoint, DecodeError>)
    ensures r.Ok? ==> v.Record?
  {
    if !v.Record? then Err(SchemaMismatch)
    else
      var x :- DecodeNumber(Get(v.fields, "x"));
      var y :- DecodeNumber(Get(v.fields, "y"));
      var z :- DecodeOptionalNumber(Get(v.fields, "z"));
      var score :- DecodeOptionalNumber(Get(v.fields, "score"));
      var name :- DecodeOptionalString(Get(v.fields, "name"));
      Ok(Keypoint(x, y, z, score, name))
  }

  /** The elements of an array, each decoded as a `Keypoint`; the first element that
      does not decode fails the whole sequence. */
  function DecodeKeypointSeq(items: seq<DynValue>): (r: Result<seq<Keypoint>, DecodeError>)
    ensures r.Ok? <==> forall i :: 0 <= i < |items| ==> DecodeKeypoint(items[i]).Ok?
    ensures r.Ok? ==> |r.value| == |items|
    ensures r.Ok? ==> forall i :: 0 <= i < |items| ==> DecodeKeypoint(items[i]) == Ok(r.value[i])
  {
    if items == [] then Ok([])
    else
      var first :- DecodeKeypoint(items[0]);
      var rest :- DecodeKeypointSeq(items[1..]);
      Ok([first] + rest)
  }

  /** `Vec<Keypoint>`: only an array is accepted. */
  function DecodeKeypoints(v: DynValue): (r: Result<seq<Keypoint>, DecodeError>)
    ensures r.Ok? <==> v.Array? && forall i :: 0 <= i < |v.items| ==> DecodeKeypoint(v.items[i]).Ok?
  {
    if v.Array? then DecodeKeypointSeq(v.items) else Err(SchemaMismatch)
  }

  function DecodeOptionalKeypoints(v: DynValue): (r: Result<Option<seq<Keypoint>>, DecodeError>)
    ensures r.Ok? <==> IsAbsent(v) || DecodeKeypoints(v).Ok?
    ensures r.Ok? ==> r.value == if IsAbsent(v) then None else Some(DecodeKeypoints(v).value)
  {
    if v.Undefined? || v.Null? then Ok(None)
    else
      var ks :- DecodeKeypoints(v);
      Ok(Some(ks))
  }

  /** `BoundingBox`'s derived deserialization; `BoundingBoxRequiresAll` characterises it. */
  function DecodeBoundingBox(v: DynValue): (r: Result<BoundingBox, DecodeError>)
    ensures r.Ok? ==> v.Record?
  {
    if !v.Record? then Err(SchemaMismatch)
    else
      var xMin :- DecodeNumber(Get(v.fields, "x_min"));
      var yMin :- DecodeNumber(Get(v.fields, "y_min"));
      var xMax :- DecodeNumber(Get(v.fields, "x_max"));
      var yMax :- DecodeNumber(Get(v.fields, "y_max"));
      var width :- DecodeNumber(Get(v.fields, "width"));
      var height :- DecodeNumber(Get(v.fields, "height"));
      Ok(BoundingBox(xMin, yMin, xMax, yMax, width, height))
  }

  function DecodeOptionalBoundingBox(v: DynValue): (r: Result<Option<BoundingBox>, DecodeError>)
    ensures r.Ok? <==> IsAbsent(v) || DecodeBoundingBox(v).Ok?
    ensures r.Ok? ==> r.value == if IsAbsent(v) then None else Some(DecodeBoundingBox(v).value)
  {
    if v.Undefined? || v.Null? then Ok(None)
    else
      var b :- DecodeBoundingBox(v);
      Ok(Some(b))
  }

  /** `Pose::try_from`: the whole pose, or an error; never a partly filled pose.
      `PoseDecodes` characterises it. */
  function DecodePose(v: DynValue): (r: Result<Pose, DecodeError>)
    ensures r.Ok? ==> v.Record?
  {
    if !v.Record? then Err(SchemaMismatch)
    else
      var keypoints :- DecodeKeypoints(Get(v.fields, "keypoints"));
      var score :- DecodeOptionalNumber(Get(v.fields, "score"));
      var keypoints3d :- DecodeOptionalKeypoints(Get(v.fields, "keypoints_3d"));
      var boundingBox :- DecodeOptionalBoundingBox(Get(v.fields, "bounding_box"));
      var id :- DecodeOptionalNumber(Get(v.fields, "id"));
      Ok(Pose(keypoints, score, keypoints3d, boundingBox, id))
  }

  // ---------------------------------------------------------------------------
  // Properties of the decoder
  // ---------------------------------------------------------------------------

  /** A keypoint decodes only from an object whose "x" and "y" are numbers, and it
      carries exactly those numbers. */
  lemma KeypointRequiresXY(v: DynValue)
    requires DecodeKeypoint(v).Ok?
    ensures v.Record? && Get(v.fields, "x").Num? && Get(v.fields, "y").Num?
    ensures DecodeKeypoint(v).value.x == Get(v.fields, "x").n
    ensures DecodeKeypoint(v).value.y == Get(v.fields, "y").n
  {
  }

  /** A keypoint decodes exactly when the value is an object whose "x" and "y" are
      numbers and whose "z", "score" and "name" are each absent, `null`, or of their
      type; a value of any other type in any of them is an error. The keypoint
      carries exactly what the properties hold. */
  lemma KeypointDecodes(v: DynValue)
    ensures DecodeKeypoint(v).Ok? <==>
      v.Record? && Get(v.fields, "x").Num? && Get(v.fields, "y").Num? &&
      (IsAbsent(Get(v.fields, "z")) || Get(v.fields, "z").Num?) &&
      (IsAbsent(Get(v.fields, "score")) || Get(v.fields, "score").Num?) &&
      (IsAbsent(Get(v.fields, "name")) || Get(v.fields, "name").Str?)
    ensures DecodeKeypoint(v).Ok? ==>
      DecodeKeypoint(v).value == Keypoint(Get(v.fields, "x").n, Get(v.fields, "y").n,
                                          NumberIfPresent(Get(v.fields, "z")),
                                          NumberIfPresent(Get(v.fields, "score")),
                                          StringIfPresent(Get(v.fields, "name")))
  {
  }

  /** A present optional field is decoded as its value, and one of the wrong type
      fails the whole keypoint. */
  lemma KeypointOptionalExamples()
    ensures DecodeKeypoint(Record(map["x" := Num(1.0), "y" := Num(2.0), "z" := Num(3.0)]))
         == Ok(Keypoint(1.0, 2.0, Some(3.0), None, None))
    ensures DecodeKeypoint(Record(map["x" := Num(1.0), "y" := Num(2.0), "z" := Str("a")])).Err?
  {
  }

  /** "z", "score" and "name" are optional: when absent they decode as `None`. */
  lemma KeypointOptionalsAbsent(fields: map<string, DynValue>, x: real, y: real)
    requires Get(fields, "x") == Num(x) && Get(fields, "y") == Num(y)
    requires "z" !in fields && "score" !in fields && "name" !in fields
    ensures DecodeKeypoint(Record(fields)) == Ok(Keypoint(x, y, None, None, None))
  {
  }

  /** A bounding box decodes exactly when all six of its fields are numbers. */
  lemma BoundingBoxRequiresAll(v: DynValue)
    ensures DecodeBoundingBox(v).Ok? <==>
      v.Record? && forall k :: k in BoundingBoxKeys ==> Get(v.fields, k).Num?
    ensures DecodeBoundingBox(v).Ok? ==>
      DecodeBoundingBox(v).value == BoundingBox(Get(v.fields, "x_min").n, Get(v.fields, "y_min").n,
                                                Get(v.fields, "x_max").n, Get(v.fields, "y_max").n,
                                                Get(v.fields, "width").n, Get(v.fields, "height").n)
  {
  }

  /** A pose decodes only when "keypoints" is an array whose every element decodes;
      the decoded keypoints keep the array's length and order. */
  lemma PoseRequiresKeypoints(v: DynValue)
    requires DecodePose(v).Ok?
    ensures v.Record? && Get(v.fields, "keypoints").Array?
    ensures var items := Get(v.fields, "keypoints").items;
      var ks := DecodePose(v).value.keypoints;
      |ks| == |items| && forall i :: 0 <= i < |items| ==> DecodeKeypoint(items[i]) == Ok(ks[i])
  {
  }

  /** One malformed keypoint fails the whole pose: no partial pose is returned. */
  lemma PoseRejectsMalformedKeypoint(v: DynValue, i: nat)
    requires v.Record? && Get(v.fields, "keypoints").Array?
    requires i < |Get(v.fields, "keypoints").items|
    requires DecodeKeypoint(Get(v.fields, "keypoints").items[i]).Err?
    ensures DecodePose(v).Err?
  {
  }

  /** A pose decodes exactly when the value is an object whose "keypoints" decodes as
      a keypoint array, whose "score" and "id" are each absent, `null` or a number,
      and whose "keypoints_3d" and "bounding_box" are each absent, `null` or
      decodable; anything else is an error. The pose carries what they decode to. */
  lemma PoseDecodes(v: DynValue)
    ensures DecodePose(v).Ok? <==>
      v.Record? && DecodeKeypoints(Get(v.fields, "keypoints")).Ok? &&
      (IsAbsent(Get(v.fields, "score")) || Get(v.fields, "score").Num?) &&
      (IsAbsent(Get(v.fields, "keypoints_3d")) || DecodeKeypoints(Get(v.fields, "keypoints_3d")).Ok?) &&
      (IsAbsent(Get(v.fields, "bounding_box")) || DecodeBoundingBox(Get(v.fields, "bounding_box")).Ok?) &&
      (IsAbsent(Get(v.fields, "id")) || Get(v.fields, "id").Num?)
    ensures DecodePose(v).Ok? ==>
      var kp3d, box := Get(v.fields, "keypoints_3d"), Get(v.fields, "bounding_box");
      DecodePose(v).value ==
        Pose(DecodeKeypoints(Get(v.fields, "keypoints")).value,
             NumberIfPresent(Get(v.fields, "score")),
             if IsAbsent(kp3d) then None else Some(DecodeKeypoints(kp3d).value),
             if IsAbsent(box) then None else Some(DecodeBoundingBox(box).value),
             NumberIfPresent(Get(v.fields, "id")))
  {
  }

  /** A "score" that is a string, or a "bounding_box" that is an empty object, fails
      the whole pose. */
  lemma PoseMistypedExamples()
    ensures DecodePose(Record(map["keypoints" := Array([]), "score" := Str("high")])).Err?
    ensures DecodePose(Record(map["keypoints" := Array([]), "bounding_box" := Record(map[])])).Err?
  {
  }

  /** "score", "keypoints_3d", "bounding_box" and "id" are optional: when absent they
      decode as `None`. */
  lemma PoseOptionalsAbsent(fields: map<string, DynValue>, ks: seq<Keypoint>)
    requires DecodeKeypoints(Get(fields, "keypoints")) == Ok(ks)
    requires "score" !in fields && "keypoints_3d" !in fields && "bounding_box" !in fields && "id" !in fields
    ensures DecodePose(Record(fields)) == Ok(Pose(ks, None, None, None, None))
  {
  }

  /** Properties the schema does not declare are ignored, whatever they hold. In
      particular the camelCase spellings "keypoints3D" and "boundingBox" are not read. */
  lemma PoseIgnoresUndeclaredKeys(fields: map<string, DynValue>, k: string, extra: DynValue)
    requires k !in PoseKeys
    ensures DecodePose(Record(fields[k := extra])) == DecodePose(Record(fields))
  {
  }

  /** The keys are the Rust field names verbatim: a box written with camelCase keys
      ("xMin", ...) is missing every required field and does not decode. */
  lemma BoundingBoxRejectsCamelCase(a: real, b: real, c: real, d: real, w: real, h: real)
    ensures DecodeBoundingBox(Record(map["xMin" := Num(a), "yMin" := Num(b), "xMax" := Num(c),
                                         "yMax" := Num(d), "width" := Num(w), "height" := Num(h)])).Err?
  {
  }

  /** A one-element keypoint array with only "x" and "y" set decodes to a pose with
      that keypoint and every optional field `None`. */
  lemma SingleKeypointPose()
    ensures DecodePose(Record(map["keypoints" := Array([Record(map["x" := Num(10.0), "y" := Num(20.0)])])]))
         == Ok(Pose([Keypoint(10.0, 20.0, None, None, None)], None, None, None, None))
  {
    var kp := Record(map["x" := Num(10.0), "y" := Num(20.0)]);
    KeypointOptionalsAbsent(kp.fields, 10.0, 20.0);
    var r := DecodeKeypointSeq([kp]);
    assert [kp][0] == kp;
    assert r.Ok? && |r.value| == 1 && r.value[0] == Keypoint(10.0, 20.0, None, None, None);
    assert r.value == [Keypoint(10.0, 20.0, None, None, None)];
  }

  /** A property holding `undefined` reads as a missing one. */
  lemma PoseUndefinedIsAbsent(fields: map<string, DynValue>, k: string)
    ensures DecodePose(Record(fields[k := Undefined])) == DecodePose(Record(fields - {k}))
  {
  }

  // ---------------------------------------------------------------------------
  // Round trip: the derived Serialize and Deserialize agree
  // ---------------------------------------------------------------------------

  lemma KeypointRoundTrip(k: Keypoint)
    ensures DecodeKeypoint(KeypointValue(k)) == Ok(k)
  {
  }

  lemma KeypointsRoundTrip(ks: seq<Keypoint>)
    ensures DecodeKeypoints(KeypointsValue(ks)) == Ok(ks)
  {
    var items := KeypointsValue(ks).items;
    forall i | 0 <= i < |items| ensures DecodeKeypoint(items[i]) == Ok(ks[i]) {
      KeypointRoundTrip(ks[i]);
    }
    var r := DecodeKeypointSeq(items);
    assert r.Ok?;
    assert forall i :: 0 <= i < |ks| ==> r.value[i] == ks[i];
    assert r.value == ks;
  }

  lemma BoundingBoxRoundTrip(b: BoundingBox)
    ensures DecodeBoundingBox(BoundingBoxValue(b)) == Ok(b)
  {
  }

  /** Encoding a pose and decoding it back gives the same pose, for every mix of
      present and absent optional fields. */
  lemma PoseRoundTrip(p: Pose)
    ensures DecodePose(PoseValue(p)) == Ok(p)
  {
    var fields := PoseValue(p).fields;
    KeypointsRoundTrip(p.keypoints);
    assert DecodeKeypoints(Get(fields, "keypoints")) == Ok(p.keypoints);
    assert DecodeOptionalNumber(Get(fields, "score")) == Ok(p.score);
    assert DecodeOptionalKeypoints(Get(fields, "keypoints_3d")) == Ok(p.keypoints3d) by {
      if p.keypoints3d.Some? {
        KeypointsRoundTrip(p.keypoints3d.value);
      }
    }
    assert DecodeOptionalBoundingBox(Get(fields, "bounding_box")) == Ok(p.boundingBox) by {
      if p.boundingBox.Some? {
        BoundingBoxRoundTrip(p.boundingBox.value);
      }
    }
    assert DecodeOptionalNumber(Get(fields, "id")) == Ok(p.id);
  }

}
