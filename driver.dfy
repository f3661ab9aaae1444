/** The transcription loop of main (rosbag2rawlog.cpp:580-702): open checks,
    then every message read from the bag is handed to Transcriber::toMrpt and
    whatever it returns is appended to the archive, in order. */
module Driver {
  import opened Wrappers
  import opened BagMessages
  import opened Observations
  import opened TfBuffers
  import opened DispatchTable
  import opened SensorConfig
  import opened Transcribers

  /** What has happened after reading a prefix of the bag: the transcriber's
      state, the records written, the topics warned about (in order), the value
      of curEntry, and the error that ended the run, if one did. */
  datatype Trace = Trace(unhandled: set<string>, world: World, archive: seq<Observation>,
                         warnings: seq<string>, entries: nat, failure: Option<string>)

  function Start(w: World): Trace
  {
    Trace({}, w, [], [], 0, None)
  }

  /** What one toMrpt call `d` on `msg` does to the trace: a thrown exception
      ends the run, otherwise the records are written and curEntry goes up. */
  function Advance(t: Trace, msg: BagMessage, d: Dispatched): (r: Trace)
  {
    var t' := t.(unhandled := d.unhandled, world := d.world,
                 warnings := t.warnings + (if d.warned then [msg.topic] else []));
    if d.result.Failure? then t'.(failure := Some(d.result.error))
    else t'.(archive := t.archive + d.result.value, entries := t.entries + 1)
  }

  /** One turn of the read loop. Once a handler has thrown, the loop is over and
      nothing changes any more. */
  function Feed(o: TfOracle, lookup: map<string, seq<Handler>>, t: Trace, msg: BagMessage): (r: Trace)
  {
    if t.failure.Some? then t
    else
      var d := Dispatch(o, lookup, t.unhandled, t.world, msg);
      Advance(t, msg, d)
  }

  /** The loop over the messages `msgs`, in read order. */
  function Transcribe(o: TfOracle, lookup: map<string, seq<Handler>>, t: Trace, msgs: seq<BagMessage>): (r: Trace)
    decreases |msgs|
  {
    if msgs == [] then t
    else Feed(o, lookup, Transcribe(o, lookup, t, msgs[..|msgs| - 1]), msgs[|msgs| - 1])
  }

  /** The values of curEntry at which a progress line is printed, as
      showProgressCnt reaches 101 and is reset: every 101st message. */
  function Marks(n: nat): (r: seq<nat>)
  {
    if n == 0 then []
    else Marks(n - 1) + (if n % 101 == 0 then [n] else [])
  }

  /** The archive, the read count and the outcome of main. */
  datatype Outcome = Outcome(exitCode: int, archive: seq<Observation>, warnings: seq<string>,
                             entries: nat, progress: seq<nat>)

  /** main as a whole. The bag is read in full as `msgs`; whether the output
      file exists and whether it can be opened are given. */
  method Rosbag2Rawlog(outputExists: bool, overwrite: bool, outputOpens: bool,
                       rootFrame: string, sensors: seq<SensorEntry>, oracle: TfOracle,
                       msgs: seq<BagMessage>) returns (out: Outcome)
    ensures outputExists && !overwrite ==> out == Outcome(1, [], [], 0, [])
    ensures !(outputExists && !overwrite) && (!outputOpens || FirstUntypedSensor(sensors).Some?) ==>
      out == Outcome(1, [], [], 0, [])
    ensures !(outputExists && !overwrite) && outputOpens && FirstUntypedSensor(sensors).None? ==>
      var tr := Transcribe(oracle, LiveLookup(), Start(World([], map[], false)), msgs);
      out == Outcome(if tr.failure.Some? then 1 else 0, tr.archive, tr.warnings, tr.entries, Marks(tr.entries))
    ensures out.archive == []
    ensures forall i, j :: 0 <= i < j < |out.warnings| ==> out.warnings[i] != out.warnings[j]
    ensures forall x :: x in out.warnings ==> x != TfTopic && x != TfStaticTopic
  {
    if outputExists && !overwrite {
      return Outcome(1, [], [], 0, []);
    }
    if !outputOpens {
      return Outcome(1, [], [], 0, []);
    }
    if FirstUntypedSensor(sensors).Some? {
      return Outcome(1, [], [], 0, []);
    }
    var t := new Transcriber(rootFrame, sensors, oracle);
    var l := TranscribeAll(t, msgs);
    LiveBuildWritesNothing(oracle, Start(World([], map[], false)), msgs);
    TranscribeWarnsOnce(oracle, LiveLookup(), Start(World([], map[], false)), msgs);
    out := Outcome(if l.failure.Some? then 1 else 0, l.archive, l.warnings, l.curEntry, l.progress);
  }

  /** The local variables of main's read loop: the records written, the
      warnings printed, curEntry, showProgressCnt, the values of curEntry at
      which progress was printed, and the exception that ended the loop. */
  datatype Locals = Locals(archive: seq<Observation>, warnings: seq<string>, curEntry: nat,
                           showProgressCnt: nat, progress: seq<nat>, failure: Option<string>)

  /** The trace the loop's locals and the transcriber's state stand for. */
  ghost function TraceOf(t: Transcriber, l: Locals): Trace
    reads t`unhandledTopics, t`cloudWarned, t.buffer`entries, t.syncs
  {
    Trace(t.unhandledTopics, t.WorldOf(), l.archive, l.warnings, l.curEntry, l.failure)
  }

  /** The progress counter agrees with curEntry. */
  predicate Counting(l: Locals)
  {
    l.showProgressCnt == l.curEntry % 101 && l.progress == Marks(l.curEntry)
  }

  /** The `while (reader.has_next())` loop of main, on a transcriber `t`. */
  method TranscribeAll(t: Transcriber, msgs: seq<BagMessage>) returns (l: Locals)
    requires t.Valid()
    modifies t`unhandledTopics, t`cloudWarned, t.buffer, t.syncs
    ensures t.Valid() && Counting(l)
    ensures Transcribe(t.buffer.oracle, t.lookup, Trace(old(t.unhandledTopics), old(t.WorldOf()), [], [], 0, None), msgs)
         == TraceOf(t, l)
  {
    l := Locals([], [], 0, 0, [], None);
    ghost var t0 := TraceOf(t, l);
    var i := 0;
    while i < |msgs| && l.failure.None?
      invariant 0 <= i <= |msgs|
      invariant t.Valid() && Counting(l)
      invariant Transcribe(t.buffer.oracle, t.lookup, t0, msgs[..i]) == TraceOf(t, l)
    {
      ghost var d := Dispatch(t.buffer.oracle, t.lookup, t.unhandledTopics, t.WorldOf(), msgs[i]);
      TranscribeSnoc(t.buffer.oracle, t.lookup, t0, msgs, i, d);
      l := Turn(t, msgs[i], l);
      i := i + 1;
    }
    if l.failure.Some? {
      FailureIsFinal(t.buffer.oracle, t.lookup, t0, msgs[..i], msgs[i..]);
      assert msgs[..i] + msgs[i..] == msgs;
    } else {
      assert msgs[..i] == msgs;
    }
  }

  /** One turn of the read loop: toMrpt, the writes, the counters. */
  method Turn(t: Transcriber, msg: BagMessage, l: Locals) returns (l': Locals)
    requires t.Valid() && Counting(l) && l.failure.None?
    modifies t`unhandledTopics, t`cloudWarned, t.buffer, t.syncs
    ensures t.Valid() && Counting(l')
    ensures TraceOf(t, l') == Advance(old(TraceOf(t, l)), msg,
      Dispatch(t.buffer.oracle, t.lookup, old(t.unhandledTopics), old(t.WorldOf()), msg))
  {
    var ptrs, warned := t.ToMrpt(msg);
    l' := l;
    if warned {
      l' := l'.(warnings := l'.warnings + [msg.topic]);
    }
    if ptrs.Failure? {
      l' := l'.(failure := Some(ptrs.error));
    } else {
      var archive := Write(l'.archive, ptrs.value);
      var curEntry, showProgressCnt, progress := Tick(l'.curEntry, l'.showProgressCnt, l'.progress);
      l' := l'.(archive := archive, curEntry := curEntry, showProgressCnt := showProgressCnt, progress := progress);
    }
  }

  /** The loop invariant's step: the trace after `i + 1` messages is the trace
      after `i` advanced by what toMrpt did with message `i`. */
  lemma TranscribeSnoc(o: TfOracle, lookup: map<string, seq<Handler>>, t: Trace, msgs: seq<BagMessage>, i: nat, d: Dispatched)
    requires i < |msgs|
    requires Transcribe(o, lookup, t, msgs[..i]).failure.None?
    requires d == Dispatch(o, lookup, Transcribe(o, lookup, t, msgs[..i]).unhandled, Transcribe(o, lookup, t, msgs[..i]).world, msgs[i])
    ensures Transcribe(o, lookup, t, msgs[..i + 1]) == Advance(Transcribe(o, lookup, t, msgs[..i]), msgs[i], d)
  {
    assert msgs[..i + 1][..i] == msgs[..i];
  }

  /** The records toMrpt returned, written to the archive one after another. */
  method Write(archive: seq<Observation>, ptrs: seq<Observation>) returns (archive': seq<Observation>)
    ensures archive' == archive + ptrs
  {
    archive' := archive;
    for k := 0 to |ptrs|
      invariant archive' == archive + ptrs[..k]
    {
      archive' := archive' + [ptrs[k]];
    }
    assert ptrs[..|ptrs|] == ptrs;
  }

  /** The end of one loop turn: `curEntry++`, then `++showProgressCnt > 100`
      prints a progress line and resets the counter. */
  method Tick(curEntry: nat, showProgressCnt: nat, progress: seq<nat>)
    returns (curEntry': nat, showProgressCnt': nat, progress': seq<nat>)
    requires showProgressCnt == curEntry % 101 && progress == Marks(curEntry)
    ensures curEntry' == curEntry + 1
    ensures showProgressCnt' == curEntry' % 101 && progress' == Marks(curEntry')
  {
    curEntry' := curEntry + 1;
    showProgressCnt' := showProgressCnt + 1;
    progress' := progress;
    if showProgressCnt' > 100 {
      progress' := progress' + [curEntry'];
      showProgressCnt' := 0;
    }
  }

  /** After a handler has thrown, later messages change nothing. */
  lemma {:induction false} FailureIsFinal(o: TfOracle, lookup: map<string, seq<Handler>>, t: Trace,
                                          a: seq<BagMessage>, b: seq<BagMessage>)
    requires Transcribe(o, lookup, t, a).failure.Some?
    ensures Transcribe(o, lookup, t, a + b) == Transcribe(o, lookup, t, a)
    decreases |b|
  {
    if b == [] {
      assert a + b == a;
    } else {
      FailureIsFinal(o, lookup, t, a, b[..|b| - 1]);
      assert (a + b)[..|a + b| - 1] == a + b[..|b| - 1];
    }
  }

  // ---------------------------------------------------------------------------
  // Properties

  /** Reading `a` and then `b` is reading `a + b`: the loop keeps no state
      besides the trace. */
  lemma {:induction false} TranscribeAppend(o: TfOracle, lookup: map<string, seq<Handler>>, t: Trace,
                                            a: seq<BagMessage>, b: seq<BagMessage>)
    ensures Transcribe(o, lookup, t, a + b) == Transcribe(o, lookup, Transcribe(o, lookup, t, a), b)
    decreases |b|
  {
    if b == [] {
      assert a + b == a;
    } else {
      TranscribeAppend(o, lookup, t, a, b[..|b| - 1]);
      assert (a + b)[..|a + b| - 1] == a + b[..|b| - 1];
    }
  }

  /** The archive and the unhandled set only grow, curEntry counts the messages
      handled, and it reaches the number of messages read unless a handler threw. */
  lemma {:induction false} TranscribeGrows(o: TfOracle, lookup: map<string, seq<Handler>>, t: Trace, msgs: seq<BagMessage>)
    requires t.failure.None?
    ensures var r := Transcribe(o, lookup, t, msgs);
      t.archive <= r.archive && t.unhandled <= r.unhandled && t.warnings <= r.warnings &&
      t.entries <= r.entries <= t.entries + |msgs| &&
      (r.failure.None? ==> r.entries == t.entries + |msgs|)
    decreases |msgs|
  {
    if msgs != [] {
      TranscribeGrows(o, lookup, t, msgs[..|msgs| - 1]);
    }
  }

  /** Each unregistered topic is warned about once, the first time it is read:
      the warnings are distinct, are exactly the unhandled topics, and none of
      them is registered. */
  ghost predicate WarnedOnce(t: Trace, lookup: map<string, seq<Handler>>)
  {
    (forall i, j :: 0 <= i < j < |t.warnings| ==> t.warnings[i] != t.warnings[j]) &&
    (forall x :: x in t.unhandled <==> x in t.warnings) &&
    (forall x :: x in t.unhandled ==> x !in lookup)
  }

  lemma {:induction false} TranscribeWarnsOnce(o: TfOracle, lookup: map<string, seq<Handler>>, t: Trace, msgs: seq<BagMessage>)
    requires WarnedOnce(t, lookup)
    ensures WarnedOnce(Transcribe(o, lookup, t, msgs), lookup)
    decreases |msgs|
  {
    if msgs != [] {
      var prev := Transcribe(o, lookup, t, msgs[..|msgs| - 1]);
      TranscribeWarnsOnce(o, lookup, t, msgs[..|msgs| - 1]);
      var m := msgs[|msgs| - 1];
      if prev.failure.None? {
        var d := Dispatch(o, lookup, prev.unhandled, prev.world, m);
        if d.warned {
          assert m.topic !in prev.warnings;
        }
      }
    }
  }

  /** Every unregistered topic that was read before the run ended has been
      warned about. */
  lemma {:induction false} UnregisteredTopicsWarned(o: TfOracle, lookup: map<string, seq<Handler>>, t: Trace, msgs: seq<BagMessage>)
    requires WarnedOnce(t, lookup) && t.failure.None?
    ensures var r := Transcribe(o, lookup, t, msgs);
      r.failure.None? ==> forall k :: 0 <= k < |msgs| && msgs[k].topic !in lookup ==> msgs[k].topic in r.warnings
    decreases |msgs|
  {
    if msgs != [] {
      var pre := msgs[..|msgs| - 1];
      UnregisteredTopicsWarned(o, lookup, t, pre);
      TranscribeWarnsOnce(o, lookup, t, pre);
      var r := Transcribe(o, lookup, t, msgs);
      if r.failure.None? {
        assert Transcribe(o, lookup, t, pre).warnings <= r.warnings;
        TranscribeWarnsOnce(o, lookup, t, msgs);
        forall k | 0 <= k < |msgs| && msgs[k].topic !in lookup ensures msgs[k].topic in r.warnings {
          if k < |pre| { assert msgs[k] == pre[k]; }
        }
      }
    }
  }

  /** In the build as compiled no record is ever written, the synchronizer
      state and the warning flag never change, and a run only fails on a
      `/tf` or `/tf_static` message that is not a TFMessage. */
  lemma {:induction false} LiveBuildWritesNothing(o: TfOracle, t: Trace, msgs: seq<BagMessage>)
    ensures var r := Transcribe(o, LiveLookup(), t, msgs);
      r.archive == t.archive && r.world.syncs == t.world.syncs && r.world.cloudWarned == t.world.cloudWarned &&
      (r.failure.Some? && t.failure.None? ==>
        exists k :: 0 <= k < |msgs| && msgs[k].topic in {TfTopic, TfStaticTopic} && !msgs[k].body.TfMessage?)
    decreases |msgs|
  {
    if msgs != [] {
      var pre := msgs[..|msgs| - 1];
      var m := msgs[|msgs| - 1];
      LiveBuildWritesNothing(o, t, pre);
      var prev := Transcribe(o, LiveLookup(), t, pre);
      if prev.failure.None? && m.topic in LiveLookup() {
        var hs := LiveLookup()[m.topic];
        TfHandlersOutputNothing(o, prev.world, hs, m);
        var d := Dispatch(o, LiveLookup(), prev.unhandled, prev.world, m);
        if d.result.Failure? {
          assert hs == [TfHandler(m.topic == TfStaticTopic)];
          assert hs[..0] == [];
          assert !m.body.TfMessage?;
          assert msgs[|msgs| - 1] == m;
        }
      }
      var r := Transcribe(o, LiveLookup(), t, msgs);
      if r.failure.Some? && t.failure.None? && prev.failure.Some? {
        var k :| 0 <= k < |pre| && pre[k].topic in {TfTopic, TfStaticTopic} && !pre[k].body.TfMessage?;
        assert msgs[k] == pre[k];
      }
    }
  }

  /** Progress is printed at every 101st message and nowhere else: the marks up
      to n are 101, 202, ... up to n, in increasing order. */
  lemma {:induction false} MarksAreEvery101st(n: nat)
    ensures |Marks(n)| == n / 101
    ensures forall k :: 0 <= k < |Marks(n)| ==> Marks(n)[k] == 101 * (k + 1)
  {
    if n > 0 {
      MarksAreEvery101st(n - 1);
      if n % 101 == 0 {
        assert n / 101 == (n - 1) / 101 + 1;
      } else {
        assert n / 101 == (n - 1) / 101;
      }
    }
  }
}
