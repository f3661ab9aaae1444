/** RosSynchronizer<Args...> (rosbag2rawlog.cpp:102-215, inside `#if 0`) as an
    object whose methods change its cache and pose bookkeeping in place, each
    proved to follow the corresponding function of module Rendezvous. */
module Synchronizers {
  import opened Wrappers
  import opened BagMessages
  import opened Observations
  import opened TfBuffers
  import opened Rendezvous

  class Synchronizer {
    /** Arity, root frame, fusion callback and pose subtraction. */
    const cfg: SyncConfig
    /** The transform buffer it shares with the /tf handlers (m_tfBuffer). */
    const tf: TfBuffer
    var cache: seq<Option<BagMessage>>
    var poseValid: bool
    var lastPose: Pose3D

    ghost predicate Valid()
      reads this
    {
      cfg.Arity() > 0 && |cache| == cfg.Arity()
    }

    function State(): SyncState
      reads this
    {
      SyncState(cache, poseValid, lastPose)
    }

    constructor (rootFrame: string, tf: TfBuffer, slotTypes: seq<MessageType>,
                 fusion: seq<BagMessage> -> Result<seq<Observation>>,
                 minus: (Pose3D, Pose3D) -> Pose3D)
      requires |slotTypes| > 0
      ensures Valid() && State() == Initial(cfg) && this.tf == tf
      ensures cfg.slotTypes == slotTypes && cfg.rootFrame == rootFrame && cfg.fusion == fusion && cfg.minus == minus
    {
      cfg := SyncConfig(slotTypes, rootFrame, fusion, minus);
      this.tf := tf;
      cache := EmptyCache(|slotTypes|);
      poseValid := false;
      lastPose := ZeroPose;
    }

    /** `check()`: every slot is filled. */
    predicate Check()
      reads this
    {
      Complete(cache)
    }

    /** `signal()`. */
    method Signal() returns (r: Result<seq<Observation>>)
      requires Valid() && Check()
      modifies this
      ensures Valid()
      ensures (State(), r) == Rendezvous.Signal(cfg, tf.oracle, tf.entries, old(State()))
    {
      var first := cache[0].value;
      if tf.CanTransform(cfg.rootFrame, first.header.frameId, first.header.stamp) {
        var currentPose := tf.LookupTransform(cfg.rootFrame, first.header.frameId, first.header.stamp);
        var incOdoPose := ZeroPose;
        if poseValid {
          incOdoPose := cfg.minus(currentPose, lastPose);
        }
        lastPose := currentPose;
        poseValid := true;
        var obs := cfg.fusion(Slots(cache));
        if obs.Failure? {
          return Failure(obs.error);
        }
        cache := EmptyCache(|cache|);
        r := Success([MotionAction(incOdoPose)] + obs.value);
      } else {
        r := Success([]);
      }
    }

    /** `checkAndSignal()`. */
    method CheckAndSignal() returns (r: Result<seq<Observation>>)
      requires Valid()
      modifies this
      ensures Valid()
      ensures (State(), r) == Rendezvous.CheckAndSignal(cfg, tf.oracle, tf.entries, old(State()))
    {
      if Check() {
        r := Signal();
      } else {
        r := Success([]);
      }
    }

    /** The handler returned by `bind<i>()`, applied to one message. */
    method Bind(i: nat, msg: BagMessage) returns (r: Result<seq<Observation>>)
      requires Valid() && i < cfg.Arity()
      modifies this
      ensures Valid()
      ensures (State(), r) == Rendezvous.Bind(cfg, tf.oracle, tf.entries, old(State()), i, msg)
    {
      if cache[i].Some? {
        r := Success([]);
      } else if !SlotDecodes(cfg, i, msg) {
        r := Failure("cannot deserialize the message as the slot's type");
      } else {
        cache := cache[i := Some(msg)];
        r := CheckAndSignal();
      }
    }

    /** The handler returned by `bindTfSync()`, applied to one message. */
    method BindTfSync(msg: BagMessage) returns (r: Result<seq<Observation>>)
      requires Valid()
      modifies this
      ensures Valid()
      ensures (State(), r) == Rendezvous.BindTfSync(cfg, tf.oracle, tf.entries, old(State()))
    {
      r := CheckAndSignal();
    }
  }
}
