/** One concrete pair of data-version gates: a read is skipped when the
    caller already holds the current version, and a write carrying a version
    other than the current one is refused. The cluster's properties do not
    depend on these; they serve a start-to-finish example. */
module DataverFilter {
  import opened Wrappers
  import opened Objects
  import opened ContactSensor

  /** A read encoder for a caller that may already know a version. */
  function ReadFilter(known: Option<Version>): (e: AttrDataEncoder) {
    AttrDataEncoder(v => if known == Some(v) then Ok(Skip) else Ok(Proceed))
  }

  /** A write payload from a caller that may state the version it assumes. */
  function WriteFilter(known: Option<Version>, payload: Tlv): (d: AttrData) {
    AttrData(v => if known.Some? && known.value != v then Err(DataVersionMismatch) else Ok(payload))
  }

  const StateAttr: AttrDetails := AttrDetails(AttributeId(State), false)

  /** A new sensor at version 0 takes a write of `true` that names version
      0: the state becomes `true`, the version moves on by two (`set` and the
      bump after it) and a change is pending. A read naming the new version
      writes nothing, and a second write still naming version 0 is refused
      with the cluster untouched. */
  lemma BooleanSensorExample(codec: BoolCodec, on: Tlv, off: Tlv, clusterRead: AttrId -> Result<Tlv, Error>)
    requires codec.decode(on) == Ok(true)
    requires codec.decode(off) == Ok(false)
    ensures var c0 := New(Dataver(0, 0, false));
            var w := Write(c0, StateAttr, WriteFilter(Some(c0.dataVer.Get()), on), codec);
            && w.result == Ok(())
            && Get(w.cluster)
            && w.cluster.dataVer.Get() == Version(0, 2)
            && ConsumeChange(w.cluster).1 == Some(())
            && Read(w.cluster, StateAttr, ReadFilter(Some(w.cluster.dataVer.Get())), codec, clusterRead) == Ok(None)
            && Write(w.cluster, StateAttr, WriteFilter(Some(c0.dataVer.Get()), off), codec)
               == Outcome(w.cluster, Err(DataVersionMismatch))
  {
  }
}
