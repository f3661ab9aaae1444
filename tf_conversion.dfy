/** toTf: a /tf or /tf_static message only feeds the transform buffer. */
module TfConversion {
  import opened Wrappers
  import opened BagMessages
  import opened Observations
  import opened TfBuffers

  /** The authority string toTf passes to every setTransform call. */
  const BagAuthority: string := "bagfile"

  /** The error a body that is not a TFMessage raises. */
  const TfDecodeError: string := "cannot deserialize a TFMessage"

  /** What the buffer holds after toTf attempted the transforms `tfs` in order,
      starting from `entries`. */
  function InsertAll(o: TfOracle, entries: seq<TfEntry>, tfs: seq<TransformStamped>, isStatic: bool): (r: seq<TfEntry>)
    ensures |entries| <= |r| <= |entries| + |tfs|
    ensures r[..|entries|] == entries
    decreases |tfs|
  {
    if tfs == [] then entries
    else Insert(o, InsertAll(o, entries, tfs[..|tfs| - 1], isStatic), tfs[|tfs| - 1], BagAuthority, isStatic)
  }

  /** The transforms whose insertion failed (and were logged), in order. */
  function Rejected(o: TfOracle, entries: seq<TfEntry>, tfs: seq<TransformStamped>, isStatic: bool): (r: seq<TransformStamped>)
    ensures |r| + |InsertAll(o, entries, tfs, isStatic)| == |entries| + |tfs|
    ensures forall t :: t in r ==> t in tfs
    decreases |tfs|
  {
    if tfs == [] then []
    else
      var pre := tfs[..|tfs| - 1];
      var last := tfs[|tfs| - 1];
      Rejected(o, entries, pre, isStatic)
        + (if o.accepts(InsertAll(o, entries, pre, isStatic), last, isStatic) then [] else [last])
  }

  /** The entries toTf adds when every insertion succeeds. */
  function Entries(tfs: seq<TransformStamped>, isStatic: bool): (r: seq<TfEntry>)
  {
    seq(|tfs|, i requires 0 <= i < |tfs| => TfEntry(tfs[i], BagAuthority, isStatic))
  }

  /** Attempting `a` then `b` is attempting `a + b`: the loop has no hidden state. */
  lemma {:induction false} InsertAllAppend(o: TfOracle, e: seq<TfEntry>, a: seq<TransformStamped>, b: seq<TransformStamped>, isStatic: bool)
    ensures InsertAll(o, e, a + b, isStatic) == InsertAll(o, InsertAll(o, e, a, isStatic), b, isStatic)
    decreases |b|
  {
    if b == [] {
      assert a + b == a;
    } else {
      var b' := b[..|b| - 1];
      assert (a + b)[..|a + b| - 1] == a + b';
      assert (a + b)[|a + b| - 1] == b[|b| - 1];
      InsertAllAppend(o, e, a, b', isStatic);
    }
  }

  /** A failed insertion does not stop the later ones, and leaves no trace:
      the result is as if the failing transform had not been in the message. */
  lemma FailureDoesNotStopLater(o: TfOracle, e: seq<TfEntry>, a: seq<TransformStamped>, t: TransformStamped, b: seq<TransformStamped>, isStatic: bool)
    requires !o.accepts(InsertAll(o, e, a, isStatic), t, isStatic)
    ensures InsertAll(o, e, a + [t] + b, isStatic) == InsertAll(o, e, a + b, isStatic)
  {
    InsertAllAppend(o, e, a + [t], b, isStatic);
    InsertAllAppend(o, e, a, b, isStatic);
    assert (a + [t])[..|a + [t]| - 1] == a;
  }

  /** When nothing was rejected, every transform was inserted, in message order. */
  lemma {:induction false} NoRejectionInsertsAll(o: TfOracle, e: seq<TfEntry>, tfs: seq<TransformStamped>, isStatic: bool)
    requires Rejected(o, e, tfs, isStatic) == []
    ensures InsertAll(o, e, tfs, isStatic) == e + Entries(tfs, isStatic)
    decreases |tfs|
  {
    if tfs != [] {
      var pre := tfs[..|tfs| - 1];
      NoRejectionInsertsAll(o, e, pre, isStatic);
      assert Entries(tfs, isStatic) == Entries(pre, isStatic) + [TfEntry(tfs[|tfs| - 1], BagAuthority, isStatic)];
    }
  }

  /** toTf<isStatic>. Every transform of the message is attempted in order; a
      failed insertion is logged (returned in `failures`) and the loop goes on.
      It never produces an observation. A body that does not deserialize as a
      TFMessage throws. */
  method ToTf(buf: TfBuffer, msg: BagMessage, isStatic: bool) returns (r: Result<seq<Observation>>, failures: seq<TransformStamped>)
    modifies buf
    ensures r.Success? <==> msg.body.TfMessage?
    ensures r.Success? ==> r.value == []
    ensures msg.body.TfMessage? ==>
      buf.entries == InsertAll(buf.oracle, old(buf.entries), msg.body.transforms, isStatic) &&
      failures == Rejected(buf.oracle, old(buf.entries), msg.body.transforms, isStatic)
    ensures !msg.body.TfMessage? ==> r == Failure(TfDecodeError) && buf.entries == old(buf.entries) && failures == []
  {
    if !msg.body.TfMessage? {
      return Failure(TfDecodeError), [];
    }
    var tfs := msg.body.transforms;
    failures := [];
    var i := 0;
    while i < |tfs|
      invariant 0 <= i <= |tfs|
      invariant buf.entries == InsertAll(buf.oracle, old(buf.entries), tfs[..i], isStatic)
      invariant failures == Rejected(buf.oracle, old(buf.entries), tfs[..i], isStatic)
    {
      assert tfs[..i + 1][..i] == tfs[..i];
      var ok := buf.SetTransform(tfs[i], BagAuthority, isStatic);
      if !ok {
        failures := failures + [tfs[i]];
      }
      i := i + 1;
    }
    assert tfs[..i] == tfs;
    r := Success([]);
  }
}
