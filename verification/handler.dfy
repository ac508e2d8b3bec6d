/** The handler face of the contact sensor cluster: the calls a single
    serialized caller makes (the data model's read, write and invoke, the
    application's `set`, the subscription engine's `consume_change`) and
    what any sequence of them does to the cluster. */
module ContactSensorHandler {
  import opened Wrappers
  import opened Objects
  import opened ContactSensor

  /** One call made on the cluster. */
  datatype Call =
    | ReadCall(attr: AttrDetails, encoder: AttrDataEncoder, clusterRead: AttrId -> Result<Tlv, Error>)
    | WriteCall(attr: AttrDetails, data: AttrData)
    | InvokeCall(cmd: CmdDetails, payload: Tlv)
    | SetCall(on: bool)
    | ConsumeCall

  /** The cluster after one call. A read's reply is computed and dropped:
      `Read` returns no cluster, so a read leaves the cluster as it was.
      Every call keeps the version from going back, no call changes the state without moving the version, and every
      call but a consume leaves a change pending exactly when it moved the
      version or one was pending already. */
  function Step(c: ContactSensorCluster, call: Call, codec: BoolCodec): (next: ContactSensorCluster)
    ensures call.ReadCall? ==> next == c
    ensures next.dataVer.base == c.dataVer.base
    ensures next.dataVer.changes >= c.dataVer.changes
    ensures next.state != c.state ==> next.dataVer.changes > c.dataVer.changes
    ensures !call.ConsumeCall? ==>
      (next.dataVer.pending <==> c.dataVer.pending || next.dataVer.changes > c.dataVer.changes)
    ensures call.ConsumeCall? ==>
      !next.dataVer.pending && next.dataVer.changes == c.dataVer.changes && next.state == c.state
  {
    match call
    case ReadCall(attr, encoder, clusterRead) =>
      var _ := Read(c, attr, encoder, codec, clusterRead);
      c
    case WriteCall(attr, data) => Write(c, attr, data, codec).cluster
    case InvokeCall(cmd, payload) => Invoke(c, cmd, payload).cluster
    case SetCall(on) => Set(c, on)
    case ConsumeCall => ConsumeChange(c).0
  }

  /** The cluster after a sequence of calls; its version never goes back. */
  function Run(c: ContactSensorCluster, calls: seq<Call>, codec: BoolCodec): (last: ContactSensorCluster)
    ensures last.dataVer.base == c.dataVer.base
    ensures last.dataVer.changes >= c.dataVer.changes
    decreases |calls|
  {
    if calls == [] then c else Run(Step(c, calls[0], codec), calls[1..], codec)
  }

  predicate ReadsOnly(calls: seq<Call>) {
    forall i :: 0 <= i < |calls| ==> calls[i].ReadCall?
  }

  predicate ConsumeFree(calls: seq<Call>) {
    forall i :: 0 <= i < |calls| ==> !calls[i].ConsumeCall?
  }

  /** Any number of reads leaves the cluster exactly as it was, because
      `Read` hands back only a reply and never a cluster. */
  lemma {:induction false} ReadsLeaveClusterUnchanged(c: ContactSensorCluster, calls: seq<Call>, codec: BoolCodec)
    requires ReadsOnly(calls)
    ensures Run(c, calls, codec) == c
    decreases |calls|
  {
    if calls != [] {
      assert calls[0].ReadCall?;
      ReadsLeaveClusterUnchanged(c, calls[1..], codec);
    }
  }

  /** A caller that sees the same data version before and after any sequence
      of calls may trust its cached state: it has not changed. */
  lemma {:induction false} UnchangedVersionMeansUnchangedState(c: ContactSensorCluster, calls: seq<Call>, codec: BoolCodec)
    ensures Run(c, calls, codec).dataVer.Get() == c.dataVer.Get() ==> Get(Run(c, calls, codec)) == Get(c)
    decreases |calls|
  {
    if calls != [] {
      var next := Step(c, calls[0], codec);
      UnchangedVersionMeansUnchangedState(next, calls[1..], codec);
    }
  }

  /** Without a consume in between, a change is pending after a sequence of
      calls exactly when one was pending before or the version moved. */
  lemma {:induction false} PendingTracksVersion(c: ContactSensorCluster, calls: seq<Call>, codec: BoolCodec)
    requires ConsumeFree(calls)
    ensures Run(c, calls, codec).dataVer.pending <==>
      c.dataVer.pending || Run(c, calls, codec).dataVer.changes > c.dataVer.changes
    decreases |calls|
  {
    if calls != [] {
      assert !calls[0].ConsumeCall?;
      var next := Step(c, calls[0], codec);
      PendingTracksVersion(next, calls[1..], codec);
    }
  }

  /** Change notification is edge-triggered and coalescing: after one
      consume, the next consume yields a token exactly when the version has
      moved in between, however many changes there were, and a consume right
      after it yields nothing. */
  lemma ConsumeReportsChangesOnce(c: ContactSensorCluster, calls: seq<Call>, codec: BoolCodec)
    requires ConsumeFree(calls)
    ensures var after := Run(ConsumeChange(c).0, calls, codec);
            && (ConsumeChange(after).1.Some? <==> after.dataVer.Get() != c.dataVer.Get())
            && ConsumeChange(ConsumeChange(after).0).1 == None
  {
    PendingTracksVersion(ConsumeChange(c).0, calls, codec);
  }

  /** The number of times a sequence of values differs from the value
      before it, starting from `from`. */
  function Flips(from: bool, values: seq<bool>): (n: nat)
    decreases |values|
  {
    if values == [] then 0 else (if values[0] != from then 1 else 0) + Flips(values[0], values[1..])
  }

  /** The application setting each of `values` in turn. */
  function SetCalls(values: seq<bool>): (calls: seq<Call>) {
    seq(|values|, i requires 0 <= i < |values| => SetCall(values[i]))
  }

  /** Over any sequence of `set` calls the version moves by exactly one for
      each value that differs from the one before it, and the state is the
      last value set. */
  lemma {:induction false} SetsAdvanceOncePerFlip(c: ContactSensorCluster, values: seq<bool>, codec: BoolCodec)
    ensures Run(c, SetCalls(values), codec).dataVer.changes == c.dataVer.changes + Flips(Get(c), values)
    ensures Get(Run(c, SetCalls(values), codec)) == if values == [] then Get(c) else values[|values| - 1]
    decreases |values|
  {
    if values != [] {
      var next := Set(c, values[0]);
      assert SetCalls(values)[1..] == SetCalls(values[1..]);
      assert Run(c, SetCalls(values), codec) == Run(next, SetCalls(values[1..]), codec);
      SetsAdvanceOncePerFlip(next, values[1..], codec);
    }
  }
}
