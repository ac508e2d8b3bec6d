/** The Boolean State cluster as a contact sensor: one boolean attribute
    `State` (id 0) guarded by the cluster's data-version handle.

    The cluster is an immutable value; every call that may change it returns
    the next value, and every call that may fail returns a `Result` whose
    error is the one the source propagates with `?`. */
module ContactSensor {
  import opened Wrappers
  import opened Objects

  /** The Boolean State cluster id. */
  const ID: ClusterId := 0x0045

  /** The cluster-specific attributes. */
  datatype Attributes = State

  /** The attribute's discriminant, its id on the wire. */
  function AttributeId(a: Attributes): (id: AttrId) {
    match a
    case State => 0x0
  }

  /** `attr_id.try_into()`: the discriminant's inverse; any other id is not
      an attribute of this cluster. */
  function AttributeFromId(id: AttrId): (r: Result<Attributes, Error>)
    ensures r.Ok? ==> AttributeId(r.value) == id
    ensures r.Err? ==> r.error == AttributeNotFound
  {
    if id == 0x0 then Ok(State) else Err(AttributeNotFound)
  }

  /** Every attribute converts back from its own id, and only from it. */
  lemma AttributeIdRoundTrip(a: Attributes, id: AttrId)
    ensures AttributeFromId(AttributeId(a)) == Ok(a)
    ensures AttributeFromId(id).Ok? <==> id == AttributeId(State)
  {
  }

  /** The cluster descriptor: two global attributes and `State`, readable
      only, with no commands. */
  const CLUSTER: Cluster := Cluster(
    ID,
    0,
    [FEATURE_MAP, ATTRIBUTE_LIST, Attribute(AttributeId(State), RV, SN)],
    [])

  /** The descriptor is well formed, declares no feature and no command, and
      the id conversion succeeds exactly for its non-global attributes. */
  lemma ClusterDescriptor()
    ensures WellFormed(CLUSTER)
    ensures CLUSTER.id == ID && CLUSTER.featureMap == 0 && CLUSTER.commands == []
    ensures forall i :: 0 <= i < |CLUSTER.attributes| ==>
      (AttributeFromId(CLUSTER.attributes[i].id).Ok? <==> !IsGlobalAttribute(CLUSTER.attributes[i].id))
    ensures Writable !in CLUSTER.attributes[2].access
  {
    assert CLUSTER.attributes[0] == FEATURE_MAP;
    assert CLUSTER.attributes[1] == ATTRIBUTE_LIST;
  }

  /** A call's effect on the cluster together with its reply. */
  datatype Outcome<T> = Outcome(cluster: ContactSensorCluster, result: Result<T, Error>)

  /** What a read hands to the writer, if anything. */
  function Written(w: Result<Tlv, Error>): (r: Result<Option<Tlv>, Error>) {
    match w
    case Ok(t) => Ok(Some(t))
    case Err(e) => Err(e)
  }

  /** `ContactSensorCluster`: the data-version handle and the sensor state. */
  datatype ContactSensorCluster = ContactSensorCluster(dataVer: Dataver, state: bool)

  /** A new cluster starts with the state off and the given handle as is. */
  function New(dataVer: Dataver): (c: ContactSensorCluster)
    ensures !Get(c)
    ensures c.dataVer == dataVer
  {
    ContactSensorCluster(dataVer, false)
  }

  /** The current state. */
  function Get(c: ContactSensorCluster): (on: bool) {
    c.state
  }

  /** Stores `on`; the data version moves on only when the state changes. */
  function Set(c: ContactSensorCluster, on: bool): (next: ContactSensorCluster)
    ensures Get(next) == on
    ensures next.dataVer.base == c.dataVer.base
    ensures next.dataVer.changes == c.dataVer.changes + (if on != Get(c) then 1 else 0)
    ensures next.dataVer.pending == (c.dataVer.pending || on != Get(c))
    ensures on == Get(c) ==> next == c
  {
    if c.state != on then
      ContactSensorCluster(c.dataVer.Changed(), on)
    else
      c
  }

  /** Reads attribute `attr` into the writer the encoder's data-version gate
      grants. Nothing is written exactly when the gate skips (the caller
      already holds this version); global attributes are encoded by the
      descriptor (`clusterRead`), `State` by the codec, and any other id is
      not found. The result carries no cluster: reading changes nothing. */
  function Read(c: ContactSensorCluster, attr: AttrDetails, encoder: AttrDataEncoder, codec: BoolCodec,
                clusterRead: AttrId -> Result<Tlv, Error>): (r: Result<Option<Tlv>, Error>)
    ensures encoder.withDataver(c.dataVer.Get()).Err? ==>
      r == Err(encoder.withDataver(c.dataVer.Get()).error)
    ensures r == Ok(None) <==> encoder.withDataver(c.dataVer.Get()) == Ok(Skip)
    ensures encoder.withDataver(c.dataVer.Get()) == Ok(Proceed) && attr.system ==>
      r == Written(clusterRead(attr.attrId))
    ensures encoder.withDataver(c.dataVer.Get()) == Ok(Proceed) && !attr.system ==>
      r == if attr.attrId == AttributeId(State) then Written(codec.encode(Get(c))) else Err(AttributeNotFound)
  {
    match encoder.withDataver(c.dataVer.Get())
    case Err(e) => Err(e)
    case Ok(Skip) => Ok(None)
    case Ok(Proceed) =>
      if attr.system then
        Written(clusterRead(attr.attrId))
      else
        match AttributeFromId(attr.attrId)
        case Err(e) => Err(e)
        case Ok(State) => Written(codec.encode(c.state))
  }

  /** Writes attribute `attr`. The data-version gate, the id conversion and
      the decode are checked in that order, and the first failure is
      returned with the cluster untouched. On success the state is the
      decoded value, `Set` has signalled a change if the value differed,
      and the version is advanced once more unconditionally. */
  function Write(c: ContactSensorCluster, attr: AttrDetails, data: AttrData, codec: BoolCodec): (r: Outcome<()>)
    ensures r.result.Err? ==> r.cluster == c
    ensures data.withDataver(c.dataVer.Get()).Err? ==>
      r.result == Err(data.withDataver(c.dataVer.Get()).error)
    ensures data.withDataver(c.dataVer.Get()).Ok? && attr.attrId != AttributeId(State) ==>
      r.result == Err(AttributeNotFound)
    ensures data.withDataver(c.dataVer.Get()).Ok? && attr.attrId == AttributeId(State) ==>
      var decoded := codec.decode(data.withDataver(c.dataVer.Get()).value);
      && (decoded.Err? ==> r.result == Err(decoded.error))
      && (decoded.Ok? ==>
            && r.result == Ok(())
            && Get(r.cluster) == decoded.value
            && r.cluster.dataVer.base == c.dataVer.base
            && r.cluster.dataVer.changes == c.dataVer.changes + (if decoded.value != Get(c) then 2 else 1)
            && r.cluster.dataVer.pending)
  {
    match data.withDataver(c.dataVer.Get())
    case Err(e) => Outcome(c, Err(e))
    case Ok(payload) =>
      match AttributeFromId(attr.attrId)
      case Err(e) => Outcome(c, Err(e))
      case Ok(State) =>
        match codec.decode(payload)
        case Err(e) => Outcome(c, Err(e))
        case Ok(on) =>
          var next := Set(c, on);
          Outcome(next.(dataVer := next.dataVer.Changed()), Ok(()))
  }

  /** Accepts every command: the state stays, the version advances once. */
  function Invoke(c: ContactSensorCluster, cmd: CmdDetails, payload: Tlv): (r: Outcome<()>)
    ensures r.result == Ok(())
    ensures Get(r.cluster) == Get(c)
    ensures r.cluster.dataVer.base == c.dataVer.base
    ensures r.cluster.dataVer.changes == c.dataVer.changes + 1
    ensures r.cluster.dataVer.pending
  {
    Outcome(c.(dataVer := c.dataVer.Changed()), Ok(()))
  }

  /** `consume_change`: a token exactly when a change is pending; the flag
      is cleared and nothing else moves. */
  function ConsumeChange(c: ContactSensorCluster): (r: (ContactSensorCluster, Option<()>))
    ensures r.1.Some? <==> c.dataVer.pending
    ensures !r.0.dataVer.pending
    ensures Get(r.0) == Get(c) && r.0.dataVer.Get() == c.dataVer.Get()
  {
    var (d, token) := c.dataVer.ConsumeChange(());
    (c.(dataVer := d), token)
  }

  /** Setting a value twice is the same as setting it once, and the state
      reads back as set. */
  lemma SetIdempotent(c: ContactSensorCluster, on: bool)
    ensures Set(Set(c, on), on) == Set(c, on)
    ensures Get(Set(c, on)) == on
  {
  }

  /** Writing the value the cluster already holds leaves the state as it was
      but still moves the version on, once. */
  lemma WriteOfSameValueAdvancesVersion(c: ContactSensorCluster, attr: AttrDetails, data: AttrData, codec: BoolCodec)
    requires attr.attrId == AttributeId(State)
    requires data.withDataver(c.dataVer.Get()).Ok?
    requires codec.decode(data.withDataver(c.dataVer.Get()).value) == Ok(Get(c))
    ensures Write(c, attr, data, codec).result == Ok(())
    ensures Get(Write(c, attr, data, codec).cluster) == Get(c)
    ensures Write(c, attr, data, codec).cluster.dataVer.Get() != c.dataVer.Get()
  {
  }

  /** Writing a different value signals two changes: one from `Set`, one
      from the unconditional bump after it. */
  lemma WriteOfNewValueAdvancesTwice(c: ContactSensorCluster, attr: AttrDetails, data: AttrData, codec: BoolCodec)
    requires attr.attrId == AttributeId(State)
    requires data.withDataver(c.dataVer.Get()).Ok?
    requires codec.decode(data.withDataver(c.dataVer.Get()).value) == Ok(!Get(c))
    ensures Write(c, attr, data, codec).result == Ok(())
    ensures Get(Write(c, attr, data, codec).cluster) == !Get(c)
    ensures Write(c, attr, data, codec).cluster.dataVer.changes == c.dataVer.changes + 2
  {
  }

  /** `State` is declared readable only, yet a write to it goes through:
      the handler itself never consults the declared access rights. */
  lemma WriteIgnoresDeclaredAccess(c: ContactSensorCluster, attr: AttrDetails, data: AttrData, codec: BoolCodec)
    requires attr.attrId == AttributeId(State)
    requires data.withDataver(c.dataVer.Get()).Ok?
    requires codec.decode(data.withDataver(c.dataVer.Get()).value).Ok?
    ensures CLUSTER.attributes[2].id == attr.attrId && Writable !in CLUSTER.attributes[2].access
    ensures Write(c, attr, data, codec).result.Ok?
  {
  }

  /** Read after write: once a write succeeds, a read of `State` that the
      gate lets through encodes the written value (for a codec whose
      encodings decode back), unless the encoder itself fails. */
  lemma WriteThenReadObservesWrite(c: ContactSensorCluster, attr: AttrDetails, data: AttrData, codec: BoolCodec,
                                   encoder: AttrDataEncoder, clusterRead: AttrId -> Result<Tlv, Error>)
    requires RoundTrips(codec)
    requires !attr.system
    requires Write(c, attr, data, codec).result.Ok?
    requires encoder.withDataver(Write(c, attr, data, codec).cluster.dataVer.Get()) == Ok(Proceed)
    ensures data.withDataver(c.dataVer.Get()).Ok?
    ensures var r := Read(Write(c, attr, data, codec).cluster, attr, encoder, codec, clusterRead);
            && r != Ok(None)
            && (r.Ok? ==> codec.decode(r.value.value) == codec.decode(data.withDataver(c.dataVer.Get()).value))
  {
  }
}
