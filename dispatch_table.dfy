/** The topic dispatch of Transcriber (rosbag2rawlog.cpp:549-577) as functions:
    a handler is one of the closures the constructor registers, and what it
    does to the state it touches (the transform buffer, the synchronizers and
    the point-cloud warning flag) is given by Step. */
module DispatchTable {
  import opened Wrappers
  import opened BagMessages
  import opened Observations
  import opened TfBuffers
  import opened TfConversion
  import opened Converters
  import opened Rendezvous
  import opened Synchronizers

  /** The single-message converters a sensor entry can register. */
  datatype Converter = PointCloudConverter | Lidar2DConverter | RotatingScanConverter
                     | ImuConverter | OdometryConverter | ImageConverter

  /** A CallbackFunction stored in m_lookup. */
  datatype Handler =
    | TfHandler(isStatic: bool)                   // toTf<isStatic> on the shared buffer
    | SyncSlot(sync: Synchronizer, slot: nat)     // sync->bind<slot>()
    | SyncTf(sync: Synchronizer)                  // sync->bindTfSync()
    | Convert(converter: Converter, sensorName: string)

  /** Everything the handlers read and change: the observations kept by the
      transform buffer, each synchronizer's state, and the thread-local warning
      flag of toPointCloud2. */
  datatype World = World(tf: seq<TfEntry>, syncs: map<Synchronizer, SyncState>, cloudWarned: bool)

  /** A handler refers to a synchronizer of the world and to one of its slots.
      A closure always does: it captured its synchronizer when it was made, and
      class Transcriber keeps that as an invariant. */
  predicate Bound(w: World, h: Handler)
  {
    match h
    case SyncSlot(s, i) => s in w.syncs && i < |w.syncs[s].cache|
    case SyncTf(s) => s in w.syncs && |w.syncs[s].cache| > 0
    case _ => true
  }

  /** A converter applied to one message; the second component is the new
      value of the point-cloud warning flag. */
  function ApplyConverter(conv: Converter, name: string, msg: BagMessage, warned: bool): (r: (Result<seq<Observation>>, bool))
    ensures !conv.PointCloudConverter? ==> r.1 == warned
  {
    match conv
    case PointCloudConverter => ToPointCloud2(name, msg, warned)
    case Lidar2DConverter => (ToLidar2D(name, msg), warned)
    case RotatingScanConverter => (ToRotatingScan(name, msg), warned)
    case ImuConverter => (ToImu(name, msg), warned)
    case OdometryConverter => (ToOdometry(name, msg), warned)
    case ImageConverter => (ToImage(name, msg), warned)
  }

  /** One handler run on one message. A handler that is not Bound cannot occur;
      it is given no effect so that Step is total. */
  function Step(o: TfOracle, w: World, h: Handler, msg: BagMessage): (r: (World, Result<seq<Observation>>))
  {
    if !Bound(w, h) then (w, Success([]))
    else
      match h
      case TfHandler(isStatic) =>
        if msg.body.TfMessage? then (w.(tf := InsertAll(o, w.tf, msg.body.transforms, isStatic)), Success([]))
        else (w, Failure(TfDecodeError))
      case SyncSlot(s, i) =>
        var r := Rendezvous.Bind(s.cfg, o, w.tf, w.syncs[s], i, msg);
        (w.(syncs := w.syncs[s := r.0]), r.1)
      case SyncTf(s) =>
        var r := BindTfSync(s.cfg, o, w.tf, w.syncs[s]);
        (w.(syncs := w.syncs[s := r.0]), r.1)
      case Convert(conv, name) =>
        var r := ApplyConverter(conv, name, msg, w.cloudWarned);
        (w.(cloudWarned := r.1), r.0)
  }

  /** The handlers `hs` run on one message in order, their outputs concatenated;
      a handler that throws ends the run. */
  function RunHandlers(o: TfOracle, w: World, hs: seq<Handler>, msg: BagMessage): (r: (World, Result<seq<Observation>>))
    decreases |hs|
  {
    if hs == [] then (w, Success([]))
    else
      var prev := RunHandlers(o, w, hs[..|hs| - 1], msg);
      if prev.1.Failure? then prev
      else
        var last := Step(o, prev.0, hs[|hs| - 1], msg);
        if last.1.Failure? then last
        else (last.0, Success(prev.1.value + last.1.value))
  }

  /** Continue a run that produced `ra` with the handlers `b`. */
  function Then(o: TfOracle, ra: (World, Result<seq<Observation>>), b: seq<Handler>, msg: BagMessage): (r: (World, Result<seq<Observation>>))
  {
    if ra.1.Failure? then ra
    else
      var rb := RunHandlers(o, ra.0, b, msg);
      (rb.0, if rb.1.Success? then Success(ra.1.value + rb.1.value) else rb.1)
  }

  /** Running `a + b` is running `a` and then `b`, outputs concatenated in that
      order; once a handler of `a` throws, the handlers of `b` are not run. */
  lemma {:induction false} RunHandlersAppend(o: TfOracle, w: World, a: seq<Handler>, b: seq<Handler>, msg: BagMessage)
    ensures RunHandlers(o, w, a + b, msg) == Then(o, RunHandlers(o, w, a, msg), b, msg)
    decreases |b|
  {
    var ra := RunHandlers(o, w, a, msg);
    if b == [] {
      assert a + b == a;
      if ra.1.Success? { assert ra.1.value + [] == ra.1.value; }
    } else {
      var b' := b[..|b| - 1];
      RunHandlersAppend(o, w, a, b', msg);
      assert (a + b)[..|a + b| - 1] == a + b';
      assert (a + b)[|a + b| - 1] == b[|b| - 1];
      if ra.1.Success? {
        var rb' := RunHandlers(o, ra.0, b', msg);
        if rb'.1.Success? {
          var last := Step(o, rb'.0, b[|b| - 1], msg);
          if last.1.Success? {
            assert ra.1.value + rb'.1.value + last.1.value == ra.1.value + (rb'.1.value + last.1.value);
          }
        }
      }
    }
  }

  /** The live build registers only transform handlers, and those never produce
      an observation and touch neither a synchronizer nor the warning flag,
      whatever the messages hold. */
  lemma {:induction false} TfHandlersOutputNothing(o: TfOracle, w: World, hs: seq<Handler>, msg: BagMessage)
    requires forall j :: 0 <= j < |hs| ==> hs[j].TfHandler?
    ensures var r := RunHandlers(o, w, hs, msg);
      (r.1.Success? ==> r.1.value == []) && r.0.syncs == w.syncs && r.0.cloudWarned == w.cloudWarned
    decreases |hs|
  {
    if hs != [] {
      TfHandlersOutputNothing(o, w, hs[..|hs| - 1], msg);
    }
  }

  /** What toMrpt returns and leaves behind. */
  datatype Dispatched = Dispatched(unhandled: set<string>, world: World, result: Result<seq<Observation>>, warned: bool)

  /** Transcriber::toMrpt. A registered topic runs its handlers in order and
      leaves the unhandled-topic set alone; an unregistered topic yields nothing,
      touches none of the handlers' state, is added to the set, and is warned
      about exactly when it was not in the set yet. */
  function Dispatch(o: TfOracle, lookup: map<string, seq<Handler>>, unhandled: set<string>, w: World, msg: BagMessage): (d: Dispatched)
    ensures unhandled <= d.unhandled
    ensures msg.topic in lookup ==>
      d.unhandled == unhandled && !d.warned &&
      (d.world, d.result) == RunHandlers(o, w, lookup[msg.topic], msg)
    ensures msg.topic !in lookup ==>
      d.result == Success([]) && d.world == w &&
      d.unhandled == unhandled + {msg.topic} && (d.warned <==> msg.topic !in unhandled)
  {
    if msg.topic in lookup then
      var r := RunHandlers(o, w, lookup[msg.topic], msg);
      Dispatched(unhandled, r.0, r.1, false)
    else if msg.topic !in unhandled then
      Dispatched(unhandled + {msg.topic}, w, Success([]), true)
    else
      Dispatched(unhandled, w, Success([]), false)
  }
}
