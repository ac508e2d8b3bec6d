/** The parts of rs-matter's data-model objects that the contact sensor
    cluster uses but does not define: the data-version handle, the
    data-version gates of the read encoder and of the write payload, the
    boolean attribute codec and the cluster descriptor shapes.

    Only what the cluster can observe of them is modelled. Their behaviour
    is left open: the gates and the codec are function-valued fields, so
    every property proved about the cluster holds for all of them. */
module Objects {
  import opened Wrappers

  type u8 = x: int | 0 <= x < 0x100
  type u16 = x: int | 0 <= x < 0x1_0000
  type u32 = x: int | 0 <= x < 0x1_0000_0000

  type AttrId = u16
  type CmdId = u32
  type ClusterId = u32

  /** The error codes this cluster produces itself, plus any code a
      collaborator may report. */
  datatype Error = AttributeNotFound | DataVersionMismatch | Other(code: nat)

  /** An encoded TLV element. Its bytes are never inspected here. */
  datatype Tlv = Tlv(bytes: seq<u8>)

  /** What `Dataver::get()` reports: the handle's starting value and how many
      times `changed()` has run since. */
  datatype Version = Version(base: u32, changes: nat)

  /** The cluster's data-version handle, abstracted to the number of
      `changed()` calls it has seen and the pending-change flag that the
      subscription engine consumes. */
  datatype Dataver = Dataver(base: u32, changes: nat, pending: bool) {

    function Get(): (v: Version) {
      Version(base, changes)
    }

    /** `Dataver::changed()`: the version moves on and a change is pending. */
    function Changed(): (d: Dataver)
      ensures d.Get() != Get()
    {
      Dataver(base, changes + 1, true)
    }

    /** `Dataver::consume_change(token)`: hands out the token once per run of
        changes and clears the flag. */
    function ConsumeChange<T>(token: T): (r: (Dataver, Option<T>))
    {
      (Dataver(base, changes, false), if pending then Some(token) else None)
    }
  }

  /** Outcome of a read encoder's data-version gate: `Skip` when the caller
      already holds this version, `Proceed` with a writer otherwise. */
  datatype Gate = Skip | Proceed

  /** `AttrDataEncoder`: only its `with_dataver` gate is observable here. */
  datatype AttrDataEncoder = AttrDataEncoder(withDataver: Version -> Result<Gate, Error>)

  /** `AttrData`: `with_dataver` either rejects the write or yields the payload. */
  datatype AttrData = AttrData(withDataver: Version -> Result<Tlv, Error>)

  /** `AttrDetails`: the requested attribute id and whether the data model
      classifies it as a global (system) attribute. */
  datatype AttrDetails = AttrDetails(attrId: AttrId, system: bool)

  /** `CmdDetails`: the requested command id. */
  datatype CmdDetails = CmdDetails(cmdId: CmdId)

  /** `AttrType<bool>`: encoding into a writer may fail (for instance when the
      writer is full), decoding fails on malformed data. */
  datatype BoolCodec = BoolCodec(encode: bool -> Result<Tlv, Error>, decode: Tlv -> Result<bool, Error>)

  /** Whatever the codec manages to encode, it decodes back unchanged. */
  ghost predicate RoundTrips(codec: BoolCodec) {
    forall v: bool :: codec.encode(v).Ok? ==> codec.decode(codec.encode(v).value) == Ok(v)
  }

  /** Access rights an attribute declares (`Access` bit flags). */
  datatype AccessFlag = Readable | Writable | NeedView

  /** Quality flags an attribute declares (`Quality` bit flags). */
  datatype QualityFlag = Scene | NonVolatile

  /** `Access::RV`: readable, with view privilege. */
  const RV: set<AccessFlag> := {Readable, NeedView}

  /** `Quality::SN`: part of scenes, non-volatile. */
  const SN: set<QualityFlag> := {Scene, NonVolatile}

  /** One attribute descriptor of a cluster. */
  datatype Attribute = Attribute(id: AttrId, access: set<AccessFlag>, quality: set<QualityFlag>)

  /** A cluster descriptor: id, feature map, attributes and accepted commands. */
  datatype Cluster = Cluster(id: ClusterId, featureMap: u32, attributes: seq<Attribute>, commands: seq<CmdId>)

  /** The global attribute ids of the Matter data model used by every cluster. */
  const FEATURE_MAP_ID: AttrId := 0xFFFC
  const ATTRIBUTE_LIST_ID: AttrId := 0xFFFB

  const FEATURE_MAP: Attribute := Attribute(FEATURE_MAP_ID, RV, {})
  const ATTRIBUTE_LIST: Attribute := Attribute(ATTRIBUTE_LIST_ID, RV, {})

  predicate IsGlobalAttribute(id: AttrId) {
    id == FEATURE_MAP_ID || id == ATTRIBUTE_LIST_ID
  }

  /** A descriptor is well formed when its attribute ids are unique and it
      declares both global attributes. */
  ghost predicate WellFormed(c: Cluster) {
    && (forall i, j :: 0 <= i < j < |c.attributes| ==> c.attributes[i].id != c.attributes[j].id)
    && (exists i :: 0 <= i < |c.attributes| && c.attributes[i] == FEATURE_MAP)
    && (exists i :: 0 <= i < |c.attributes| && c.attributes[i] == ATTRIBUTE_LIST)
  }
}
