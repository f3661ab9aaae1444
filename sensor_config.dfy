/** The `sensors` map of the YAML configuration, as far as the Transcriber
    constructor reads it (rosbag2rawlog.cpp:461-546). Entries come in the order
    of the YAML map; each holds the scalar values of its keys. The live build
    reads only `type`; the branches inside `#if 0` also read the topic keys. */
module SensorConfig {
  import opened Wrappers
  import opened DispatchTable

  datatype YamlScalar = Text(text: string) | Flag(flag: bool)

  datatype SensorEntry = SensorEntry(name: string, keys: map<string, YamlScalar>)

  /** `sensor.at("type").as<std::string>()`, None where that throws. */
  function SensorType(e: SensorEntry): (r: Option<string>)
    ensures r.Some? <==> "type" in e.keys && e.keys["type"].Text?
    ensures r.Some? ==> r.value == e.keys["type"].text
  {
    if "type" in e.keys && e.keys["type"].Text? then Some(e.keys["type"].text) else None
  }

  /** The name of the first sensor entry without a string `type`, the one whose
      lookup makes the constructor throw; None when every entry has one. */
  function FirstUntypedSensor(sensors: seq<SensorEntry>): (r: Option<string>)
    ensures r.None? <==> forall k :: 0 <= k < |sensors| ==> SensorType(sensors[k]).Some?
    ensures r.Some? ==> exists k :: (0 <= k < |sensors| && sensors[k].name == r.value &&
      SensorType(sensors[k]).None? && forall j :: 0 <= j < k ==> SensorType(sensors[j]).Some?)
  {
    if sensors == [] then None
    else if SensorType(sensors[0]).None? then Some(sensors[0].name)
    else
      var rest := FirstUntypedSensor(sensors[1..]);
      assert forall k :: 1 <= k < |sensors| ==> sensors[k] == sensors[1..][k - 1];
      rest
  }

  /** `sensor.at(key).as<std::string>()`, None where that throws. */
  function TextKey(e: SensorEntry, key: string): (r: Option<string>)
    ensures r.Some? <==> key in e.keys && e.keys[key].Text?
    ensures r.Some? ==> r.value == e.keys[key].text
  {
    if key in e.keys && e.keys[key].Text? then Some(e.keys[key].text) else None
  }

  /** `rangeIsDepth` of a 3D range-scan entry: true when the key is absent,
      None where `as<bool>()` throws. */
  function RangeIsDepth(e: SensorEntry): (r: Option<bool>)
    ensures "rangeIsDepth" !in e.keys ==> r == Some(true)
    ensures "rangeIsDepth" in e.keys ==>
      (r.Some? <==> e.keys["rangeIsDepth"].Flag?) && (r.Some? ==> r.value == e.keys["rangeIsDepth"].flag)
  {
    if "rangeIsDepth" !in e.keys then Some(true)
    else if e.keys["rangeIsDepth"].Flag? then Some(e.keys["rangeIsDepth"].flag)
    else None
  }

  const RangeScanType: string := "CObservation3DRangeScan"

  /** The sensor types of the disabled branches that register one converter on
      one topic: the key naming the topic, and the converter. */
  function SingleTopicKind(sensorType: string): (r: Option<(string, Converter)>)
    ensures r.Some? ==> sensorType != RangeScanType
    ensures r.Some? && r.value.1.ImageConverter? ==> r.value.0 == "image_topic"
    ensures r.Some? && !r.value.1.ImageConverter? ==> r.value.0 == "topic"
  {
    if sensorType == "CObservationImage" then Some(("image_topic", ImageConverter))
    else if sensorType == "CObservationPointCloud" then Some(("topic", PointCloudConverter))
    else if sensorType == "CObservation2DRangeScan" then Some(("topic", Lidar2DConverter))
    else if sensorType == "CObservationRotatingScan" then Some(("topic", RotatingScanConverter))
    else if sensorType == "CObservationIMU" then Some(("topic", ImuConverter))
    else if sensorType == "CObservationOdometry" then Some(("topic", OdometryConverter))
    else None
  }

  /** What one entry registers when the `#if 0` branches are compiled in: a
      depth image and camera info synchronizer, one converter on one topic, or
      nothing for a type no branch names. */
  datatype Registration =
    | RangeImageSensor(name: string, depthTopic: string, infoTopic: string, rangeIsDepth: bool)
    | SingleTopic(name: string, topic: string, converter: Converter)
    | NoRegistration

  /** The branch of the disabled constructor code one entry takes (lines
      461-545); Failure where a key it reads is missing or of the wrong kind,
      which makes the constructor throw. */
  function Classify(e: SensorEntry): (r: Result<Registration>)
    ensures SensorType(e).None? ==> r.Failure?
    ensures r.Success? && r.value.RangeImageSensor? ==>
      SensorType(e) == Some(RangeScanType) && r.value.name == e.name &&
      RangeIsDepth(e) == Some(r.value.rangeIsDepth) &&
      TextKey(e, "depth") == Some(r.value.depthTopic) && TextKey(e, "cameraInfo") == Some(r.value.infoTopic)
    ensures r.Success? && r.value.SingleTopic? ==>
      SensorType(e).Some? && SingleTopicKind(SensorType(e).value) == Some((SingleTopicKey(r.value.converter), r.value.converter)) &&
      r.value.name == e.name && TextKey(e, SingleTopicKey(r.value.converter)) == Some(r.value.topic)
    ensures SensorType(e).Some? && SensorType(e).value != RangeScanType && SingleTopicKind(SensorType(e).value).None? ==>
      r == Success(NoRegistration)
    ensures r.Failure? <==>
      SensorType(e).None? ||
      (SensorType(e).value == RangeScanType &&
        (RangeIsDepth(e).None? || TextKey(e, "depth").None? || TextKey(e, "cameraInfo").None?)) ||
      (SingleTopicKind(SensorType(e).value).Some? && TextKey(e, SingleTopicKind(SensorType(e).value).value.0).None?)
  {
    match SensorType(e)
    case None => Failure("sensor entry without a type")
    case Some(sensorType) =>
      if sensorType == RangeScanType then
        match (RangeIsDepth(e), TextKey(e, "depth"), TextKey(e, "cameraInfo"))
        case (Some(rangeIsDepth), Some(depth), Some(info)) => Success(RangeImageSensor(e.name, depth, info, rangeIsDepth))
        case _ => Failure("range scan sensor without its keys")
      else
        match SingleTopicKind(sensorType)
        case None => Success(NoRegistration)
        case Some((key, conv)) =>
          match TextKey(e, key)
          case Some(topic) => Success(SingleTopic(e.name, topic, conv))
          case None => Failure("sensor entry without its topic")
  }

  /** The key naming a converter's topic. */
  function SingleTopicKey(conv: Converter): string
  {
    if conv.ImageConverter? then "image_topic" else "topic"
  }

  /** The registration of an entry the constructor accepts. */
  function RegistrationOf(e: SensorEntry): Registration
  {
    if Classify(e).Success? then Classify(e).value else NoRegistration
  }

  /** The name of the first entry for which the disabled constructor code
      throws; None when it accepts them all. */
  function FirstUnregistrable(sensors: seq<SensorEntry>): (r: Option<string>)
    ensures r.None? <==> forall k :: 0 <= k < |sensors| ==> Classify(sensors[k]).Success?
    ensures r.Some? ==> exists k :: (0 <= k < |sensors| && sensors[k].name == r.value &&
      Classify(sensors[k]).Failure? && forall j :: 0 <= j < k ==> Classify(sensors[j]).Success?)
  {
    if sensors == [] then None
    else if Classify(sensors[0]).Failure? then Some(sensors[0].name)
    else
      var rest := FirstUnregistrable(sensors[1..]);
      assert forall k :: 1 <= k < |sensors| ==> sensors[k] == sensors[1..][k - 1];
      rest
  }

  /** Every entry the disabled code accepts has a type, so the live code, which
      reads only the type, accepts it too. */
  lemma RegistrableIsTyped(sensors: seq<SensorEntry>)
    requires FirstUnregistrable(sensors).None?
    ensures FirstUntypedSensor(sensors).None?
  {
  }
}
