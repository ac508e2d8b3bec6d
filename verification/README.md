# Contact sensor cluster (rs-matter Boolean State) in Dafny

This project models rs-matter's contact sensor cluster, the Matter Boolean State cluster.
It holds one boolean attribute, `State` (id 0). A data-version handle (`Dataver`) guards it.
The model covers the operations of `ContactSensorCluster`:

- `new` and `get`;
- `set`, which signals a change only when the value differs;
- `read` and `write`, both gated on the caller's data version;
- `invoke`;
- `consume_change`, the pull-based change signal for the subscription engine.

It also covers the `CLUSTER` descriptor.

The cluster is an immutable value, `ContactSensorCluster(dataVer, state)`. Each call that can change
the cluster returns the next value, and each call that can fail returns a `Result`. The
data-version handle is modelled by what the cluster can observe of it:

- `changes` counts the `changed()` calls;
- `pending` is the flag that `consume_change` hands out once and clears;
- `Get()` yields `Version(base, changes)`.

Modules:

- `Wrappers`: `Option` and `Result`.
- `Objects`: the collaborators the cluster uses but does not define. These are the data-version
  handle, the gates of the read encoder and of the write payload (`with_dataver`), the `AttrType<bool>`
  codec, attribute details and the descriptor shapes. The gates and the codec are function-valued
  fields, so every property holds for every behaviour they may have.
- `ContactSensor`: the cluster itself, in the order of the source file.
- `ContactSensorHandler`: the calls a single serialized caller makes, and lemmas about any
  sequence of them.
- `DataverFilter`: one concrete pair of gates (skip a read when the caller already holds the
  current version; refuse a write that names another version). It is used only for a
  start-to-finish example.

Behaviour of the source that the model exposes:

- A successful `write` calls `changed()` once inside `set` when the value differs, then once more
  unconditionally. A write of a new value therefore moves the version by two, and a write of the
  same value moves it by one (`WriteOfNewValueAdvancesTwice`, `WriteOfSameValueAdvancesVersion`).
  So through `write` the version does not move only on change, unlike through `set`. Writing
  `true` to a new sensor ends at two changes (`BooleanSensorExample`).
- `State` is declared with `Access::RV`, which has no write flag, yet `write` never checks access
  (`WriteIgnoresDeclaredAccess`).
- The descriptor declares no commands, yet `invoke` accepts every command id. It always succeeds
  and always moves the version (`Invoke`).
- The three early exits of `write` all happen before any mutation, in this order: data-version gate,
  attribute-id conversion, decode. A failed write leaves the cluster exactly as it was (`Write`).

## Model

| member | source | states |
|---|---|---|
| ContactSensor.AttributeFromId | rs-matter/src/data_model/cluster_contact_sensor.rs:35-41 | a successful conversion returns the attribute whose discriminant is the id; any failure is AttributeNotFound |
| ContactSensor.AttributeIdRoundTrip | rs-matter/src/data_model/cluster_contact_sensor.rs:35-41 | converting an attribute's own id gives that attribute back, and the conversion succeeds for id 0 and for no other id |
| ContactSensor.ClusterDescriptor | rs-matter/src/data_model/cluster_contact_sensor.rs:43-56 | the descriptor's attribute ids are unique and include FeatureMap and AttributeList; feature map 0 and no commands; the id conversion succeeds for exactly the declared non-global attributes; `State` carries no write access |
| ContactSensor.New | rs-matter/src/data_model/cluster_contact_sensor.rs:65-70 | a new cluster reads `false` through `get` and keeps the given data-version handle unchanged |
| ContactSensor.Set | rs-matter/src/data_model/cluster_contact_sensor.rs:76-81 | afterwards the state is `on`; the change count grows by one exactly when `on` differed, and otherwise the cluster is unchanged; a change is pending if one was before or the value differed |
| ContactSensor.SetIdempotent | rs-matter/src/data_model/cluster_contact_sensor.rs:72-81 | setting a value twice equals setting it once, and `get` then returns it (`get` returns the stored state and returns no cluster, so it changes nothing) |
| ContactSensor.Read | rs-matter/src/data_model/cluster_contact_sensor.rs:83-100 | a gate error is returned as is; nothing is written exactly when the gate skips; when it proceeds, a system id goes to the descriptor's reader, id 0 gives the codec's encoding of the state, and any other id is AttributeNotFound; no cluster is returned, so nothing changes |
| ContactSensor.Write | rs-matter/src/data_model/cluster_contact_sensor.rs:102-117 | errors come from the gate, then the id conversion, then the decode, in that order, and each leaves the cluster unchanged; on success the state is the decoded value, the change count grows by 2 if the value differed and by 1 if not, and a change is pending |
| ContactSensor.WriteOfSameValueAdvancesVersion | rs-matter/src/data_model/cluster_contact_sensor.rs:108-116 | writing the value already held succeeds, keeps the state and still moves the version |
| ContactSensor.WriteOfNewValueAdvancesTwice | rs-matter/src/data_model/cluster_contact_sensor.rs:76-117 | writing the other value flips the state and adds two `changed()` calls: one inside `set`, one after it |
| ContactSensor.WriteIgnoresDeclaredAccess | rs-matter/src/data_model/cluster_contact_sensor.rs:102-117 | `State` is declared without write access, yet a write that passes the gate and decodes succeeds |
| ContactSensor.WriteThenReadObservesWrite | rs-matter/src/data_model/cluster_contact_sensor.rs:89-117 | after a successful write, a read of `State` that the gate lets through either fails in the encoder or writes an encoding that decodes to the written value, given a codec whose encodings decode back |
| ContactSensor.Invoke | rs-matter/src/data_model/cluster_contact_sensor.rs:119-129 | every command succeeds, keeps the state, adds exactly one `changed()` call and leaves a change pending |
| ContactSensor.ConsumeChange | rs-matter/src/data_model/cluster_contact_sensor.rs:160-163 | a token is returned exactly when a change was pending; the flag is then clear, and the state and version are unchanged |
| ContactSensorHandler.Step | rs-matter/src/data_model/cluster_contact_sensor.rs:132-163 | one call of any kind: reads leave the cluster as is; the version never goes back; the state never changes without the version moving; every call except a consume leaves a change pending exactly when one was pending before or the version moved; a consume clears the flag and changes nothing else |
| ContactSensorHandler.Run | rs-matter/src/data_model/cluster_contact_sensor.rs:132-163 | over any sequence of calls the version's base stays and its change count never decreases |
| ContactSensorHandler.SetsAdvanceOncePerFlip | rs-matter/src/data_model/cluster_contact_sensor.rs:76-81 | over any sequence of `set` calls, the change count grows by exactly the number of values that differ from the value before them (counted independently by `Flips`), and the state is the last value set |
| ContactSensorHandler.ReadsLeaveClusterUnchanged | rs-matter/src/data_model/cluster_contact_sensor.rs:83-100 | any sequence of reads leaves the cluster exactly as it was |
| ContactSensorHandler.UnchangedVersionMeansUnchangedState | rs-matter/src/data_model/cluster_contact_sensor.rs:76-129 | if the version is the same after a sequence of calls as before, the state is the same too, so a version-based cache is never stale |
| ContactSensorHandler.PendingTracksVersion | rs-matter/src/data_model/cluster_contact_sensor.rs:76-129 | with no consume in between, a change is pending after a sequence of calls exactly when one was pending before or the version moved |
| ContactSensorHandler.ConsumeReportsChangesOnce | rs-matter/src/data_model/cluster_contact_sensor.rs:160-163 | after one consume, the next consume returns a token exactly when the version moved in between (however many changes there were), and a consume right after that returns nothing |
| DataverFilter.BooleanSensorExample | rs-matter/src/data_model/cluster_contact_sensor.rs:89-117 | with version-comparing gates: writing `true` to a new sensor succeeds and leaves two changes and a pending token; a read naming the new version writes nothing; a later write naming the old version fails with DataVersionMismatch and leaves the cluster untouched |

## Left out

- `Exchange` is a parameter of `read`, `write` and `invoke` that the source never uses, so it is not modelled. The same holds for `invoke`'s `CmdDataEncoder`.
- TLV wire encoding is not modelled. A payload is an opaque `Tlv`. The `AttrType<bool>` codec is a pair of functions that can fail.
- `AttrDataEncoder::with_dataver` and `AttrData::with_dataver` are abstract gates. Their comparison logic is defined outside this file. `DataverFilter` gives one instance, used only for the start-to-finish example.
- `CLUSTER.read` for global attributes is a parameter, `clusterRead`. Encoding the feature map and the attribute list is defined outside this file.
- `AttrDetails::is_system` classifies the attribute id in code outside this file. In the model, the classification is a free flag on the request. This allows combinations the source cannot reach, such as id 0 marked as system.
- The error for an unknown attribute id is `AttributeNotFound`, as the `attribute_enum!` conversion reports it. That macro's file is not part of this model.
- `Dataver` is modelled only as a change count, a pending flag and a starting value. Its real version is a `u32` that wraps around, so after 2^32 changes a version could repeat. The model treats versions as never repeating.
- The bit values of `Access` and `Quality` are not modelled. Only the flags that `RV` and `SN` name are kept, and the handler checks none of them.
- The `Handler` and `NonBlockingHandler` impls only forward their calls. They appear only as the dispatch in `ContactSensorHandler.Step`, which drops a read's reply because a read changes nothing.
- `Cell` interior mutability, the `Clone` derive and any cross-thread use of the change flag are not modelled. A single serialized caller is assumed.
- `idl_import!` and the strum derives are compile-time code generation. Their output appears as the constants `ID` (0x0045), `State` with id 0, and the global attribute ids 0xFFFC and 0xFFFB.
