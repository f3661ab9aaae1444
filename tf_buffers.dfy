/** The transform buffer, tf2::BufferCore. It is a foreign library: whether it
    accepts an observation and what it answers to a query are given by an oracle,
    so the model only records which observations it was given and kept. */
module TfBuffers {
  import opened Wrappers
  import opened BagMessages

  /** One observation the buffer kept, with the authority string and the static
      flag it was inserted with. */
  datatype TfEntry = TfEntry(transform: TransformStamped, authority: string, isStatic: bool)

  /** The behaviour of BufferCore. `accepts` says whether setTransform keeps an
      observation (false covers both a rejection and a thrown TransformException),
      given the observations already kept. `resolve` answers lookupTransform from a
      target frame to a source frame at a time, and is None exactly when
      canTransform is false. */
  datatype TfOracle = TfOracle(
    accepts: (seq<TfEntry>, TransformStamped, bool) -> bool,
    resolve: (seq<TfEntry>, string, string, Time) -> Option<Pose3D>)

  /** The observations kept after one setTransform call. */
  function Insert(o: TfOracle, entries: seq<TfEntry>, tf: TransformStamped, authority: string, isStatic: bool): (r: seq<TfEntry>)
    ensures r == entries || r == entries + [TfEntry(tf, authority, isStatic)]
    ensures r != entries <==> o.accepts(entries, tf, isStatic)
  {
    if o.accepts(entries, tf, isStatic) then entries + [TfEntry(tf, authority, isStatic)] else entries
  }

  class TfBuffer {
    const oracle: TfOracle
    var entries: seq<TfEntry>

    constructor (oracle: TfOracle)
      ensures this.oracle == oracle && entries == []
    {
      this.oracle := oracle;
      entries := [];
    }

    /** BufferCore::setTransform. */
    method SetTransform(tf: TransformStamped, authority: string, isStatic: bool) returns (ok: bool)
      modifies this
      ensures ok == oracle.accepts(old(entries), tf, isStatic)
      ensures entries == Insert(oracle, old(entries), tf, authority, isStatic)
    {
      ok := oracle.accepts(entries, tf, isStatic);
      if ok {
        entries := entries + [TfEntry(tf, authority, isStatic)];
      }
    }

    /** BufferCore::canTransform. */
    predicate CanTransform(target: string, source: string, stamp: Time)
      reads this
    {
      oracle.resolve(entries, target, source, stamp).Some?
    }

    /** BufferCore::lookupTransform, called only after canTransform succeeded. */
    function LookupTransform(target: string, source: string, stamp: Time): Pose3D
      reads this
      requires CanTransform(target, source, stamp)
    {
      oracle.resolve(entries, target, source, stamp).value
    }
  }
}
