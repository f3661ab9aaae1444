/** The N-ary rendezvous of RosSynchronizer (rosbag2rawlog.cpp:102-215, inside
    `#if 0`), as functions on its state. The tuple of K shared_ptr values is a
    sequence of K optional slots; the Synchronizer class follows these
    functions step by step. */
module Rendezvous {
  import opened Wrappers
  import opened BagMessages
  import opened Observations
  import opened TfBuffers

  /** What a synchronizer is built with: the message types Args... of its K
      slots, the root frame, the fusion callback, and the foreign pose
      subtraction (`currentPose - m_lastPose`). */
  datatype SyncConfig = SyncConfig(
    slotTypes: seq<MessageType>,
    rootFrame: string,
    fusion: seq<BagMessage> -> Result<seq<Observation>>,
    minus: (Pose3D, Pose3D) -> Pose3D)
  {
    /** K, `sizeof...(Args)`. */
    function Arity(): nat
    {
      |slotTypes|
    }
  }

  /** `rosmsg.instantiate<T>()` for the type T of slot i succeeds. (A slot
      index past the K types does not occur: a synchronizer's cache has K
      slots.) */
  predicate SlotDecodes(c: SyncConfig, i: nat, msg: BagMessage)
  {
    i < c.Arity() ==> Decodes(msg.body, c.slotTypes[i])
  }

  /** Every message of `msgs` decodes as the type of its slot, in slot order. */
  predicate AllDecode(c: SyncConfig, msgs: seq<BagMessage>)
  {
    forall j :: 0 <= j < |msgs| ==> SlotDecodes(c, j, msgs[j])
  }

  /** The mutable part: m_cache, m_poseValid and m_lastPose. */
  datatype SyncState = SyncState(cache: seq<Option<BagMessage>>, poseValid: bool, lastPose: Pose3D)

  /** A cache of n empty slots (`m_cache = {}`). */
  function EmptyCache(n: nat): (c: seq<Option<BagMessage>>)
    ensures |c| == n && forall i :: 0 <= i < n ==> c[i].None?
  {
    seq(n, _ => None)
  }

  /** The state right after construction. */
  function Initial(c: SyncConfig): SyncState
  {
    SyncState(EmptyCache(c.Arity()), false, ZeroPose)
  }

  /** `check`: every slot holds a message. */
  predicate Complete(cache: seq<Option<BagMessage>>)
  {
    forall i :: 0 <= i < |cache| ==> cache[i].Some?
  }

  /** No slot holds a message. */
  predicate Vacant(cache: seq<Option<BagMessage>>)
  {
    forall i :: 0 <= i < |cache| ==> cache[i].None?
  }

  /** The messages of a complete cache, in slot order. */
  function Slots(cache: seq<Option<BagMessage>>): (r: seq<BagMessage>)
    requires Complete(cache)
    ensures |r| == |cache| && forall i :: 0 <= i < |r| ==> cache[i] == Some(r[i])
  {
    seq(|cache|, i requires 0 <= i < |cache| => cache[i].value)
  }

  /** The odometry increment signal reports: zero on the first resolved fusion,
      otherwise the new pose minus the previous one. */
  function Increment(c: SyncConfig, s: SyncState, current: Pose3D): Pose3D
  {
    if s.poseValid then c.minus(current, s.lastPose) else ZeroPose
  }

  /** `signal()`: look up the root frame to the frame of slot 0's message at its
      stamp. Unresolved: nothing happens. Resolved: the pose bookkeeping is
      updated, the callback runs, the cache is emptied and the motion action is
      put in front of the callback's observations. A callback that throws leaves
      the cache as it was (the exception leaves before `m_cache = {}`). */
  function Signal(c: SyncConfig, o: TfOracle, entries: seq<TfEntry>, s: SyncState): (r: (SyncState, Result<seq<Observation>>))
    requires |s.cache| > 0 && Complete(s.cache)
    ensures |r.0.cache| == |s.cache|
  {
    var first := s.cache[0].value;
    match o.resolve(entries, c.rootFrame, first.header.frameId, first.header.stamp)
    case None => (s, Success([]))
    case Some(current) =>
      var inc := Increment(c, s, current);
      match c.fusion(Slots(s.cache))
      case Failure(e) => (SyncState(s.cache, true, current), Failure(e))
      case Success(obs) => (SyncState(EmptyCache(|s.cache|), true, current), Success([MotionAction(inc)] + obs))
  }

  /** `checkAndSignal()`. */
  function CheckAndSignal(c: SyncConfig, o: TfOracle, entries: seq<TfEntry>, s: SyncState): (r: (SyncState, Result<seq<Observation>>))
    requires |s.cache| > 0
    ensures |r.0.cache| == |s.cache|
    ensures !Complete(s.cache) ==> r == (s, Success([]))
  {
    if Complete(s.cache) then Signal(c, o, entries, s) else (s, Success([]))
  }

  /** The handler `bind<i>()` returns: a message for a full slot is dropped;
      for an empty slot it is deserialized as the slot's type, which throws
      before anything is stored when the body is of another type, and stored,
      then checked. */
  function Bind(c: SyncConfig, o: TfOracle, entries: seq<TfEntry>, s: SyncState, i: nat, msg: BagMessage): (r: (SyncState, Result<seq<Observation>>))
    requires i < |s.cache|
    ensures |r.0.cache| == |s.cache|
    ensures s.cache[i].Some? ==> r == (s, Success([]))
    ensures s.cache[i].None? && !SlotDecodes(c, i, msg) ==> r.0 == s && r.1.Failure?
  {
    if s.cache[i].Some? then (s, Success([]))
    else if !SlotDecodes(c, i, msg) then (s, Failure("cannot deserialize the message as the slot's type"))
    else CheckAndSignal(c, o, entries, s.(cache := s.cache[i := Some(msg)]))
  }

  /** The handler `bindTfSync()` returns: the message itself is ignored, a
      fusion waiting for its transform is retried. */
  function BindTfSync(c: SyncConfig, o: TfOracle, entries: seq<TfEntry>, s: SyncState): (r: (SyncState, Result<seq<Observation>>))
    requires |s.cache| > 0
    ensures |r.0.cache| == |s.cache|
  {
    CheckAndSignal(c, o, entries, s)
  }

  // ---------------------------------------------------------------------------
  // Properties

  /** Signal's two outcomes. When the transform resolves and the callback
      succeeds, the output is the motion action followed by the callback's
      observations, the cache is emptied, the pose becomes valid and is
      remembered; the increment is zero exactly on the first such success. When
      the transform does not resolve, nothing is output and the state, cache
      included, is unchanged. */
  lemma SignalOutcomes(c: SyncConfig, o: TfOracle, entries: seq<TfEntry>, s: SyncState)
    requires |s.cache| > 0 && Complete(s.cache)
    ensures var first := s.cache[0].value;
      var res := o.resolve(entries, c.rootFrame, first.header.frameId, first.header.stamp);
      var r := Signal(c, o, entries, s);
      (res.None? ==> r == (s, Success([]))) &&
      (res.Some? ==>
         (r.0.poseValid && r.0.lastPose == res.value &&
          (r.1.Success? <==> c.fusion(Slots(s.cache)).Success?) &&
          (r.1.Success? ==>
             Vacant(r.0.cache) &&
             r.1.value == [MotionAction(if s.poseValid then c.minus(res.value, s.lastPose) else ZeroPose)]
                          + c.fusion(Slots(s.cache)).value) &&
          (r.1.Failure? ==> r.0.cache == s.cache)))
  {
  }

  /** Output comes only out of a complete cache: if checkAndSignal yields an
      observation, every one of the K slots was filled. */
  lemma OutputNeedsAllSlots(c: SyncConfig, o: TfOracle, entries: seq<TfEntry>, s: SyncState)
    requires |s.cache| > 0
    requires CheckAndSignal(c, o, entries, s).1.Success? && CheckAndSignal(c, o, entries, s).1.value != []
    ensures Complete(s.cache)
  {
  }

  /** A bind never overwrites: every slot that was filled before still holds the
      same message afterwards, unless a fusion fired and emptied the whole cache. */
  lemma BindNeverOverwrites(c: SyncConfig, o: TfOracle, entries: seq<TfEntry>, s: SyncState, i: nat, msg: BagMessage)
    requires i < |s.cache|
    ensures var r := Bind(c, o, entries, s, i, msg);
      Vacant(r.0.cache) ||
      forall j :: 0 <= j < |s.cache| && s.cache[j].Some? ==> r.0.cache[j] == s.cache[j]
  {
  }

  /** A bind into an empty slot of a message that decodes as the slot's type
      stores it there, unless it completed the cache and the fusion fired. */
  lemma BindStoresIntoEmptySlot(c: SyncConfig, o: TfOracle, entries: seq<TfEntry>, s: SyncState, i: nat, msg: BagMessage)
    requires i < |s.cache| && s.cache[i].None? && SlotDecodes(c, i, msg)
    ensures var r := Bind(c, o, entries, s, i, msg);
      r.0.cache == s.cache[i := Some(msg)] || (Vacant(r.0.cache) && r.1.Success? && r.1.value != [])
  {
  }

  /** A message for an empty slot whose body is not of the slot's type throws
      at once: nothing is stored, nothing is output and the state is unchanged. */
  lemma WrongTypeFailsAtBind(c: SyncConfig, o: TfOracle, entries: seq<TfEntry>, s: SyncState, i: nat, msg: BagMessage)
    requires i < |s.cache| == c.Arity() && s.cache[i].None?
    requires !Decodes(msg.body, c.slotTypes[i])
    ensures var r := Bind(c, o, entries, s, i, msg);
      r.0 == s && r.1.Failure?
  {
  }

  /** The /tf handler never fills a slot: every slot it leaves filled was filled
      before, with the same message. */
  lemma TfSyncNeverFills(c: SyncConfig, o: TfOracle, entries: seq<TfEntry>, s: SyncState)
    requires |s.cache| > 0
    ensures var r := BindTfSync(c, o, entries, s);
      forall j :: 0 <= j < |s.cache| && r.0.cache[j].Some? ==> s.cache[j] == r.0.cache[j]
  {
  }

  /** A fusion fires at most once per complete fill: right after it fired, the
      cache is empty, so neither a /tf retry nor anything short of filling all
      K slots again produces output. */
  lemma FiresOncePerFill(c: SyncConfig, o: TfOracle, entries: seq<TfEntry>, entries': seq<TfEntry>, s: SyncState)
    requires |s.cache| > 0 && Complete(s.cache)
    requires Signal(c, o, entries, s).1.Success? && Signal(c, o, entries, s).1.value != []
    ensures var s' := Signal(c, o, entries, s).0;
      Vacant(s'.cache) && BindTfSync(c, o, entries', s') == (s', Success([]))
  {
    var s' := Signal(c, o, entries, s).0;
    assert !Complete(s'.cache) by {
      assert s'.cache[0].None?;
    }
  }

  /** Filling the slots 0 .. n-1 of an empty cache, one message each, in order,
      yields nothing as long as n < K, and leaves exactly those n slots filled. */
  function BindAll(c: SyncConfig, o: TfOracle, entries: seq<TfEntry>, s: SyncState, msgs: seq<BagMessage>): (r: (SyncState, Result<seq<Observation>>))
    requires |msgs| <= |s.cache|
    ensures |r.0.cache| == |s.cache|
    decreases |msgs|
  {
    if msgs == [] then (s, Success([]))
    else
      var prev := BindAll(c, o, entries, s, msgs[..|msgs| - 1]);
      var step := Bind(c, o, entries, prev.0, |msgs| - 1, msgs[|msgs| - 1]);
      (step.0, if prev.1.Success? && step.1.Success? then Success(prev.1.value + step.1.value) else Failure("fusion failed"))
  }

  lemma {:induction false} PartialFillIsSilent(c: SyncConfig, o: TfOracle, entries: seq<TfEntry>, s: SyncState, msgs: seq<BagMessage>)
    requires Vacant(s.cache) && |msgs| < |s.cache| && AllDecode(c, msgs)
    ensures var r := BindAll(c, o, entries, s, msgs);
      r.1 == Success([]) && r.0.poseValid == s.poseValid && r.0.lastPose == s.lastPose &&
      (forall j :: 0 <= j < |msgs| ==> r.0.cache[j] == Some(msgs[j])) &&
      (forall j :: |msgs| <= j < |s.cache| ==> r.0.cache[j].None?)
    decreases |msgs|
  {
    if msgs != [] {
      var pre := msgs[..|msgs| - 1];
      PartialFillIsSilent(c, o, entries, s, pre);
      var prev := BindAll(c, o, entries, s, pre);
      var filled := prev.0.cache[|msgs| - 1 := Some(msgs[|msgs| - 1])];
      assert filled[|s.cache| - 1].None?;
      assert !Complete(filled);
      assert forall j :: 0 <= j < |msgs| ==> filled[j] == Some(msgs[j]);
      var step := Bind(c, o, entries, prev.0, |msgs| - 1, msgs[|msgs| - 1]);
      assert step == (prev.0.(cache := filled), Success([]));
      assert prev.1.value + step.1.value == [];
    }
  }

  /** Filling all K slots of an empty cache in order fires the fusion exactly at
      the last message, when the transform resolves there: the whole output is
      the motion action and the callback's observations for those K messages. */
  lemma FullFillFiresOnce(c: SyncConfig, o: TfOracle, entries: seq<TfEntry>, s: SyncState, msgs: seq<BagMessage>)
    requires Vacant(s.cache) && |msgs| == |s.cache| > 0 && AllDecode(c, msgs)
    requires o.resolve(entries, c.rootFrame, msgs[0].header.frameId, msgs[0].header.stamp).Some?
    requires c.fusion(msgs).Success?
    ensures var current := o.resolve(entries, c.rootFrame, msgs[0].header.frameId, msgs[0].header.stamp).value;
      BindAll(c, o, entries, s, msgs)
        == (SyncState(EmptyCache(|s.cache|), true, current),
            Success([MotionAction(Increment(c, s, current))] + c.fusion(msgs).value))
  {
    var pre := msgs[..|msgs| - 1];
    PartialFillIsSilent(c, o, entries, s, pre);
    var prev := BindAll(c, o, entries, s, pre);
    var filled := prev.0.cache[|msgs| - 1 := Some(msgs[|msgs| - 1])];
    assert forall j :: 0 <= j < |msgs| ==> filled[j] == Some(msgs[j]);
    assert Complete(filled);
    assert Slots(filled) == msgs;
    assert filled[0].value == msgs[0];
    var current := o.resolve(entries, c.rootFrame, msgs[0].header.frameId, msgs[0].header.stamp).value;
    var step := Bind(c, o, entries, prev.0, |msgs| - 1, msgs[|msgs| - 1]);
    assert step == Signal(c, o, entries, prev.0.(cache := filled));
    assert step.1 == Success([MotionAction(Increment(c, s, current))] + c.fusion(msgs).value);
    assert prev.1.value + step.1.value == step.1.value;
  }

  /** The depth-image example: a synchronizer over (image, camera_info) on its
      first resolved fusion outputs a zero-increment motion action followed by
      what the callback made of the two messages. */
  lemma ImageThenCameraInfo(c: SyncConfig, o: TfOracle, entries: seq<TfEntry>, image: BagMessage, info: BagMessage)
    requires c.Arity() == 2 && AllDecode(c, [image, info])
    requires o.resolve(entries, c.rootFrame, image.header.frameId, image.header.stamp).Some?
    requires c.fusion([image, info]).Success?
    ensures var s1 := Bind(c, o, entries, Initial(c), 0, image);
      s1.1 == Success([]) &&
      Bind(c, o, entries, s1.0, 1, info).1 == Success([MotionAction(ZeroPose)] + c.fusion([image, info]).value)
  {
    assert SlotDecodes(c, 0, image) && SlotDecodes(c, 1, info) by {
      assert [image, info][0] == image && [image, info][1] == info;
    }
    var s0 := Initial(c);
    var first := s0.cache[0 := Some(image)];
    assert first[1].None?;
    assert !Complete(first);
    var s1 := Bind(c, o, entries, s0, 0, image);
    assert s1.0.cache == first;
    var filled := s1.0.cache[1 := Some(info)];
    assert filled == [Some(image), Some(info)];
    assert Complete(filled);
    assert Slots(filled) == [image, info];
  }
}
