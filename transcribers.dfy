/** class Transcriber (rosbag2rawlog.cpp:443-578): the topic lookup table, the
    set of topics already warned about, and the shared transform buffer and
    synchronizers its handlers change in place. Every method is proved to
    follow the functions of module DispatchTable on the state it exposes. */
module Transcribers {
  import opened Wrappers
  import opened BagMessages
  import opened Observations
  import opened TfBuffers
  import opened TfConversion
  import opened Converters
  import opened Rendezvous
  import opened Synchronizers
  import opened DispatchTable
  import opened SensorConfig

  /** The topics the constructor always registers, each with one handler. */
  const TfTopic: string := "/tf"
  const TfStaticTopic: string := "/tf_static"

  function LiveLookup(): (m: map<string, seq<Handler>>)
    ensures m.Keys == {TfTopic, TfStaticTopic}
    ensures m[TfTopic] == [TfHandler(false)] && m[TfStaticTopic] == [TfHandler(true)]
  {
    map[TfTopic := [TfHandler(false)], TfStaticTopic := [TfHandler(true)]]
  }

  /** The handler refers only to synchronizers of `ss`, and to slots they have. */
  predicate RegisteredIn(ss: seq<Synchronizer>, h: Handler)
  {
    match h
    case SyncSlot(s, i) => s in ss && i < s.cfg.Arity()
    case SyncTf(s) => s in ss
    case _ => true
  }

  predicate AllRegistered(ss: seq<Synchronizer>, lookup: map<string, seq<Handler>>)
  {
    forall t :: t in lookup ==> forall j :: 0 <= j < |lookup[t]| ==> RegisteredIn(ss, lookup[t][j])
  }

  /** `m_lookup[topic].emplace_back(h)`: a topic not yet present starts with
      an empty vector. */
  function AddHandler(lookup: map<string, seq<Handler>>, topic: string, h: Handler): (r: map<string, seq<Handler>>)
    ensures r.Keys == lookup.Keys + {topic}
    ensures r[topic] == (if topic in lookup then lookup[topic] else []) + [h]
    ensures forall t :: t in lookup && t != topic ==> r[t] == lookup[t]
  {
    lookup[topic := (if topic in lookup then lookup[topic] else []) + [h]]
  }

  /** The fusion callback of a range-image sensor. */
  function RangeFusion(name: string, rangeIsDepth: bool): seq<BagMessage> -> Result<seq<Observation>>
  {
    slots => RangeImageFusion(name, rangeIsDepth, slots)
  }

  /** RosSynchronizer<sensor_msgs::Image, sensor_msgs::CameraInfo>. */
  const RangeSlotTypes: seq<MessageType> := [ImageType, CameraInfoType]

  /** The synchronizer a 3D range-scan entry creates: two slots, the depth image
      and the camera info. */
  function RangeConfig(rootFrame: string, name: string, rangeIsDepth: bool, minus: (Pose3D, Pose3D) -> Pose3D): SyncConfig
  {
    SyncConfig(RangeSlotTypes, rootFrame, RangeFusion(name, rangeIsDepth), minus)
  }

  /** What one entry adds to m_lookup; `b` is the synchronizer it created. */
  function Register(lookup: map<string, seq<Handler>>, reg: Registration, b: Option<Synchronizer>): map<string, seq<Handler>>
  {
    match reg
    case RangeImageSensor(_, depth, info, _) =>
      if b.Some? then
        AddHandler(AddHandler(AddHandler(lookup, depth, SyncSlot(b.value, 0)), info, SyncSlot(b.value, 1)),
                   TfTopic, SyncTf(b.value))
      else lookup
    case SingleTopic(name, topic, conv) => AddHandler(lookup, topic, Convert(conv, name))
    case NoRegistration => lookup
  }

  /** What each entry of `sensors` registers, in configuration order. */
  function Registrations(sensors: seq<SensorEntry>): (regs: seq<Registration>)
    ensures |regs| == |sensors|
  {
    seq(|sensors|, k requires 0 <= k < |sensors| => RegistrationOf(sensors[k]))
  }

  /** m_lookup after the disabled constructor code registered `regs` in
      order, `bs[k]` being the synchronizer registration k created. */
  function SensorLookup(regs: seq<Registration>, bs: seq<Option<Synchronizer>>): map<string, seq<Handler>>
    requires |bs| == |regs|
    decreases |regs|
  {
    if regs == [] then LiveLookup()
    else
      var n := |regs| - 1;
      Register(SensorLookup(regs[..n], bs[..n]), regs[n], bs[n])
  }

  /** The synchronizers that were created, in creation order. */
  function Present(bs: seq<Option<Synchronizer>>): seq<Synchronizer>
    decreases |bs|
  {
    if bs == [] then []
    else
      var n := |bs| - 1;
      Present(bs[..n]) + (if bs[n].Some? then [bs[n].value] else [])
  }

  /** Registration `reg` created `b` as the disabled constructor code does: a
      synchronizer exactly for a 3D range scan, configured from the entry. */
  ghost predicate CreatedFor(reg: Registration, b: Option<Synchronizer>, rootFrame: string, minus: (Pose3D, Pose3D) -> Pose3D)
  {
    (b.Some? <==> reg.RangeImageSensor?) &&
    (b.Some? ==> b.value.cfg == RangeConfig(rootFrame, reg.name, reg.rangeIsDepth, minus))
  }

  /** The sensor loop of the disabled constructor code. */
  method RegisterSensors(buffer: TfBuffer, rootFrame: string, regs: seq<Registration>, minus: (Pose3D, Pose3D) -> Pose3D)
    returns (lookup: map<string, seq<Handler>>, syncs: seq<Synchronizer>, ghost bs: seq<Option<Synchronizer>>)
    ensures |bs| == |regs| && lookup == SensorLookup(regs, bs) && syncs == Present(bs)
    ensures forall k :: 0 <= k < |regs| ==> CreatedFor(regs[k], bs[k], rootFrame, minus)
    ensures forall k :: 0 <= k < |regs| && bs[k].Some? ==> fresh(bs[k].value)
    ensures forall s :: s in syncs ==> s.tf == buffer && s.Valid() && s.State() == Initial(s.cfg)
    ensures AllRegistered(syncs, lookup)
  {
    lookup, syncs, bs := LiveLookup(), [], [];
    for i := 0 to |regs|
      invariant |bs| == i && lookup == SensorLookup(regs[..i], bs) && syncs == Present(bs)
      invariant forall k :: 0 <= k < i ==> CreatedFor(regs[k], bs[k], rootFrame, minus)
      invariant forall k :: 0 <= k < i && bs[k].Some? ==> fresh(bs[k].value)
      invariant forall s :: s in syncs ==> s.tf == buffer && s.Valid() && s.State() == Initial(s.cfg)
      invariant AllRegistered(syncs, lookup)
    {
      ghost var bs0 := bs;
      var b;
      lookup, syncs, b := RegisterOne(buffer, rootFrame, regs[i], minus, lookup, syncs);
      bs := bs + [b];
      assert regs[..i + 1][..i] == regs[..i] && regs[..i + 1][i] == regs[i];
      assert bs[..i] == bs0;
    }
    assert regs[..|regs|] == regs;
  }

  /** One turn of the sensor loop: the registrations of one entry. */
  method RegisterOne(buffer: TfBuffer, rootFrame: string, reg: Registration, minus: (Pose3D, Pose3D) -> Pose3D,
                     lookup: map<string, seq<Handler>>, syncs: seq<Synchronizer>)
    returns (lookup': map<string, seq<Handler>>, syncs': seq<Synchronizer>, b: Option<Synchronizer>)
    requires AllRegistered(syncs, lookup)
    ensures lookup' == Register(lookup, reg, b)
    ensures syncs' == syncs + (if b.Some? then [b.value] else [])
    ensures CreatedFor(reg, b, rootFrame, minus)
    ensures b.Some? ==> fresh(b.value) && b.value.tf == buffer && b.value.Valid() && b.value.State() == Initial(b.value.cfg)
    ensures AllRegistered(syncs', lookup')
  {
    lookup', syncs', b := lookup, syncs, None;
    match reg {
      case RangeImageSensor(name, depth, info, rangeIsDepth) =>
        var s := new Synchronizer(rootFrame, buffer, RangeSlotTypes, RangeFusion(name, rangeIsDepth), minus);
        syncs' := syncs + [s];
        RegisteredGrows(syncs, s, lookup);
        AddRegistered(syncs', lookup', depth, SyncSlot(s, 0));
        lookup' := AddHandler(lookup', depth, SyncSlot(s, 0));
        AddRegistered(syncs', lookup', info, SyncSlot(s, 1));
        lookup' := AddHandler(lookup', info, SyncSlot(s, 1));
        AddRegistered(syncs', lookup', TfTopic, SyncTf(s));
        lookup' := AddHandler(lookup', TfTopic, SyncTf(s));
        b := Some(s);
      case SingleTopic(name, topic, conv) =>
        AddRegistered(syncs, lookup, topic, Convert(conv, name));
        lookup' := AddHandler(lookup, topic, Convert(conv, name));
      case NoRegistration =>
    }
  }

  /** Registering an entry only appends: no topic is dropped and no earlier
      handler is moved or removed. */
  lemma RegisterAppends(lookup: map<string, seq<Handler>>, reg: Registration, b: Option<Synchronizer>)
    ensures var r := Register(lookup, reg, b);
      lookup.Keys <= r.Keys && forall t :: t in lookup ==> lookup[t] <= r[t]
  {
  }

  /** With the sensor branches compiled in, `/tf` and `/tf_static` still start
      with the transform handlers the constructor registers first, so every
      synchronizer sees a transform only after the buffer has it. */
  lemma {:induction false} TransformHandlersComeFirst(regs: seq<Registration>, bs: seq<Option<Synchronizer>>)
    requires |bs| == |regs|
    ensures var lk := SensorLookup(regs, bs);
      TfTopic in lk && |lk[TfTopic]| > 0 && lk[TfTopic][0] == TfHandler(false) &&
      TfStaticTopic in lk && |lk[TfStaticTopic]| > 0 && lk[TfStaticTopic][0] == TfHandler(true)
    decreases |regs|
  {
    if regs != [] {
      var n := |regs| - 1;
      TransformHandlersComeFirst(regs[..n], bs[..n]);
      RegisterAppends(SensorLookup(regs[..n], bs[..n]), regs[n], bs[n]);
    }
  }

  /** A 3D range-scan sensor's synchronizer, given a 32FC1 depth image and then
      its camera info on a first resolved transform, outputs a zero motion action
      followed by exactly one range image built from the pair. */
  lemma DepthPairGivesRangeImage(rootFrame: string, name: string, rangeIsDepth: bool,
                                 minus: (Pose3D, Pose3D) -> Pose3D, o: TfOracle, entries: seq<TfEntry>,
                                 image: BagMessage, info: BagMessage)
    requires image.body.Image? && image.body.encoding == RangeEncoding && image.body.cvOk
    requires info.body.CameraInfo?
    requires o.resolve(entries, rootFrame, image.header.frameId, image.header.stamp).Some?
    ensures var c := RangeConfig(rootFrame, name, rangeIsDepth, minus);
      var s1 := Rendezvous.Bind(c, o, entries, Initial(c), 0, image);
      s1.1 == Success([]) &&
      Rendezvous.Bind(c, o, entries, s1.0, 1, info).1 ==
        Success([MotionAction(ZeroPose),
                 RangeImageObs(name, image.header.stamp, CameraToMrptRotation, image.body.rows, image.body.cols,
                               info.body.d, info.body.k, 0.001, true, rangeIsDepth)])
  {
    var c := RangeConfig(rootFrame, name, rangeIsDepth, minus);
    var obs := RangeImageObs(name, image.header.stamp, CameraToMrptRotation, image.body.rows, image.body.cols,
                             info.body.d, info.body.k, 0.001, true, rangeIsDepth);
    assert ToRangeImage(name, image, info, rangeIsDepth) == Success([obs]);
    assert c.fusion([image, info]) == Success([obs]);
    ImageThenCameraInfo(c, o, entries, image, info);
    assert [MotionAction(ZeroPose)] + [obs] == [MotionAction(ZeroPose), obs];
  }

  /** A depth-topic message that is not an Image makes a range-scan sensor's
      synchronizer throw in `bind<0>` itself: the slot stays empty, and the
      failure is what toMrpt passes on to main. */
  lemma DepthTopicRejectsOtherBodies(rootFrame: string, name: string, rangeIsDepth: bool,
                                     minus: (Pose3D, Pose3D) -> Pose3D, o: TfOracle, entries: seq<TfEntry>,
                                     msg: BagMessage)
    requires !msg.body.Image?
    ensures var c := RangeConfig(rootFrame, name, rangeIsDepth, minus);
      var r := Rendezvous.Bind(c, o, entries, Initial(c), 0, msg);
      r.0 == Initial(c) && r.1.Failure?
  {
    var c := RangeConfig(rootFrame, name, rangeIsDepth, minus);
    WrongTypeFailsAtBind(c, o, entries, Initial(c), 0, msg);
  }

  lemma AddRegistered(ss: seq<Synchronizer>, lookup: map<string, seq<Handler>>, topic: string, h: Handler)
    requires AllRegistered(ss, lookup) && RegisteredIn(ss, h)
    ensures AllRegistered(ss, AddHandler(lookup, topic, h))
  {
    var r := AddHandler(lookup, topic, h);
    forall t | t in r
      ensures forall j :: 0 <= j < |r[t]| ==> RegisteredIn(ss, r[t][j])
    {
      if t == topic && topic in lookup {
        assert forall j :: 0 <= j < |lookup[t]| ==> r[t][j] == lookup[t][j];
      }
    }
  }

  lemma RegisteredGrows(ss: seq<Synchronizer>, s: Synchronizer, lookup: map<string, seq<Handler>>)
    requires AllRegistered(ss, lookup)
    ensures AllRegistered(ss + [s], lookup)
  {
    forall t, j | t in lookup && 0 <= j < |lookup[t]|
      ensures RegisteredIn(ss + [s], lookup[t][j])
    {
      assert RegisteredIn(ss, lookup[t][j]);
    }
  }

  class Transcriber {
    const rootFrame: string
    /** The tf2::BufferCore every transform handler and synchronizer shares. */
    const buffer: TfBuffer
    /** The synchronizers the lookup table's handlers refer to. */
    const syncs: seq<Synchronizer>
    var lookup: map<string, seq<Handler>>
    var unhandledTopics: set<string>
    /** The thread_local `warn1st` flag of toPointCloud2. */
    var cloudWarned: bool

    /** The synchronizer each sensor entry created, in configuration order;
        None for an entry that created none. */
    ghost const sensorSyncs: seq<Option<Synchronizer>>

    /** A handler refers only to the transcriber's own synchronizers and to
        slots they have. */
    predicate Registered(h: Handler)
    {
      RegisteredIn(syncs, h)
    }

    ghost predicate Valid()
      reads this`lookup, syncs
    {
      (forall s :: s in syncs ==> s.tf == buffer && s.Valid()) && AllRegistered(syncs, lookup)
    }

    /** The state of every synchronizer. */
    ghost function SyncStates(): map<Synchronizer, SyncState>
      reads syncs
    {
      map s | s in syncs :: s.State()
    }

    /** What the handlers see and change. */
    ghost function WorldOf(): World
      reads this`cloudWarned, buffer`entries, syncs
    {
      World(buffer.entries, SyncStates(), cloudWarned)
    }

    /** The constructor as compiled: `/tf` and `/tf_static` with one handler
        each, and nothing for the sensors, whose branches are compiled out. The
        configuration loop only reads each entry's `type`, which throws for an
        entry without one; callers check that first. */
    constructor (rootFrame: string, sensors: seq<SensorEntry>, oracle: TfOracle)
      requires FirstUntypedSensor(sensors).None?
      ensures Valid() && fresh(buffer)
      ensures this.rootFrame == rootFrame && buffer.oracle == oracle
      ensures lookup == LiveLookup() && syncs == [] && unhandledTopics == {}
      ensures WorldOf() == World([], map[], false)
    {
      this.rootFrame := rootFrame;
      buffer := new TfBuffer(oracle);
      syncs := [];
      sensorSyncs := seq(|sensors|, _ => None);
      lookup := LiveLookup();
      unhandledTopics := {};
      cloudWarned := false;
    }

    /** The constructor with its `#if 0` branches compiled in (lines 461-545,
        not part of the live build): after the two transform handlers, each
        sensor entry in order registers what its type names, a 3D range scan
        creating a fresh two-slot synchronizer on the shared buffer. An entry
        with a missing key makes the constructor throw; callers check that
        first. */
    constructor WithSensors(rootFrame: string, sensors: seq<SensorEntry>, oracle: TfOracle,
                            minus: (Pose3D, Pose3D) -> Pose3D)
      requires FirstUnregistrable(sensors).None?
      ensures Valid() && fresh(buffer)
      ensures this.rootFrame == rootFrame && buffer.oracle == oracle && buffer.entries == []
      ensures |sensorSyncs| == |sensors| && syncs == Present(sensorSyncs)
      ensures lookup == SensorLookup(Registrations(sensors), sensorSyncs)
      ensures forall k :: 0 <= k < |sensors| ==> CreatedFor(RegistrationOf(sensors[k]), sensorSyncs[k], rootFrame, minus)
      ensures forall k :: 0 <= k < |sensors| && sensorSyncs[k].Some? ==> fresh(sensorSyncs[k].value)
      ensures forall s :: s in syncs ==> s.State() == Initial(s.cfg)
      ensures unhandledTopics == {} && !cloudWarned
    {
      this.rootFrame := rootFrame;
      var buf := new TfBuffer(oracle);
      buffer := buf;
      var lk, ss, bs := RegisterSensors(buf, rootFrame, Registrations(sensors), minus);
      lookup := lk;
      syncs := ss;
      sensorSyncs := bs;
      unhandledTopics := {};
      cloudWarned := false;
    }

    /** One callback of m_lookup applied to one message. */
    method RunHandler(h: Handler, msg: BagMessage) returns (r: Result<seq<Observation>>)
      requires Valid() && Registered(h)
      modifies this`cloudWarned, buffer, syncs
      ensures Valid()
      ensures (WorldOf(), r) == Step(buffer.oracle, old(WorldOf()), h, msg)
    {
      match h {
        case TfHandler(isStatic) => r := RunTf(isStatic, msg);
        case SyncSlot(s, i) => r := RunSlot(s, i, msg);
        case SyncTf(s) => r := RunTfSync(s, msg);
        case Convert(conv, name) => r := RunConverter(conv, name, msg);
      }
    }

    /** The `/tf` or `/tf_static` callback: toTf on the shared buffer. */
    method RunTf(isStatic: bool, msg: BagMessage) returns (r: Result<seq<Observation>>)
      requires Valid()
      modifies buffer
      ensures Valid()
      ensures (WorldOf(), r) == Step(buffer.oracle, old(WorldOf()), TfHandler(isStatic), msg)
    {
      ghost var w0 := WorldOf();
      var failures;
      r, failures := ToTf(buffer, msg, isStatic);
    }

    /** The callback `s->bind<i>()`. */
    method RunSlot(s: Synchronizer, i: nat, msg: BagMessage) returns (r: Result<seq<Observation>>)
      requires Valid() && Registered(SyncSlot(s, i))
      modifies s
      ensures Valid()
      ensures (WorldOf(), r) == Step(buffer.oracle, old(WorldOf()), SyncSlot(s, i), msg)
    {
      ghost var w0 := WorldOf();
      assert Bound(w0, SyncSlot(s, i));
      r := s.Bind(i, msg);
      assert WorldOf().syncs == w0.syncs[s := s.State()];
    }

    /** The callback `s->bindTfSync()`. */
    method RunTfSync(s: Synchronizer, msg: BagMessage) returns (r: Result<seq<Observation>>)
      requires Valid() && Registered(SyncTf(s))
      modifies s
      ensures Valid()
      ensures (WorldOf(), r) == Step(buffer.oracle, old(WorldOf()), SyncTf(s), msg)
    {
      ghost var w0 := WorldOf();
      assert Bound(w0, SyncTf(s));
      r := s.BindTfSync(msg);
      assert WorldOf().syncs == w0.syncs[s := s.State()];
    }

    /** A single-message converter callback. */
    method RunConverter(conv: Converter, name: string, msg: BagMessage) returns (r: Result<seq<Observation>>)
      requires Valid()
      modifies this`cloudWarned
      ensures Valid()
      ensures (WorldOf(), r) == Step(buffer.oracle, old(WorldOf()), Convert(conv, name), msg)
    {
      ghost var w0 := WorldOf();
      var res := ApplyConverter(conv, name, msg, cloudWarned);
      cloudWarned := res.1;
      r := res.0;
    }

    /** The loop of toMrpt over the callbacks registered for one topic. */
    method RunAll(hs: seq<Handler>, msg: BagMessage) returns (r: Result<seq<Observation>>)
      requires Valid() && forall j :: 0 <= j < |hs| ==> Registered(hs[j])
      modifies this`cloudWarned, buffer, syncs
      ensures Valid()
      ensures (WorldOf(), r) == RunHandlers(buffer.oracle, old(WorldOf()), hs, msg)
    {
      ghost var w0 := WorldOf();
      var rets := [];
      var i := 0;
      while i < |hs|
        invariant 0 <= i <= |hs|
        invariant Valid()
        invariant (WorldOf(), Success(rets)) == RunHandlers(buffer.oracle, w0, hs[..i], msg)
      {
        assert hs[..i + 1][..i] == hs[..i] && hs[..i + 1][i] == hs[i];
        var obs := RunHandler(hs[i], msg);
        if obs.Failure? {
          RunHandlersAppend(buffer.oracle, w0, hs[..i + 1], hs[i + 1..], msg);
          assert hs[..i + 1] + hs[i + 1..] == hs;
          return obs;
        }
        rets := rets + obs.value;
        i := i + 1;
      }
      assert hs[..i] == hs;
      r := Success(rets);
    }

    /** Transcriber::toMrpt. `warned` says whether the unhandled-topic warning
        was printed for this message. A handler that throws ends the call; what
        the handlers before it changed stays changed. */
    method ToMrpt(msg: BagMessage) returns (r: Result<seq<Observation>>, warned: bool)
      requires Valid()
      modifies this`unhandledTopics, this`cloudWarned, buffer, syncs
      ensures Valid()
      ensures Dispatched(unhandledTopics, WorldOf(), r, warned)
           == Dispatch(buffer.oracle, lookup, old(unhandledTopics), old(WorldOf()), msg)
    {
      var topic := msg.topic;
      if topic in lookup {
        r := RunAll(lookup[topic], msg);
        warned := false;
      } else if topic !in unhandledTopics {
        unhandledTopics := unhandledTopics + {topic};
        r, warned := Success([]), true;
      } else {
        r, warned := Success([]), false;
      }
    }
  }
}
