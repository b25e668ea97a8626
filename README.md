# Persisted node record of the storage control plane

This project models how the control plane persists a storage node's
specification. The specification (`NodeSpec`) holds three things: the node's
identity (`NodeId`), the gRPC endpoint of its storage service, and free-form
labels. The project also models the key the store files it under
(`NodeSpecKey`: a category tag plus an identity string) and the two
conversions to and from the REST API's narrower `NodeSpec` shape, which has
no labels.

Modules:

- `MessageBus` (`message_bus.dfy`): `NodeId` and its three string conversions.
- `StoreDefinitions` (`store_definitions.dfy`): the store's category tag
  `StorableObjectType`.
- `OpenApiModels` (`openapi_models.dfy`): the API shape
  `{grpc_endpoint, id}` and its generated constructor.
- `StoreNode` (`store_node.dfy`): the record, its key, the conversions and the
  lemmas about them.

`NodeSpec` is a value in the source. It derives `Clone` and `PartialEq`, and
`set_endpoint` updates a value the caller owns exclusively through
`&mut self`. So the record is a datatype with structural equality, and
`set_endpoint` is `SetEndpoint`: a function that returns the updated record.
Its contract names the one field that changes and the two that do not.

`NodeId` is defined in the message-bus types, which are not part of this
model. This model assumes it is a string newtype. `to_string()`,
`Into<String>` and `From<String>` are kept as three separate functions, and
each is assumed to read or wrap the underlying string unchanged. The lemmas
`MessageBus.RenderingsAgree` and `StoreNode.UuidMatchesKey` rest on that
assumption.

The generated API constructor `models::NodeSpec::new` is not part of this
model either. Two more assumptions cover it:
- it stores its first argument, the gRPC endpoint, unchanged;
- its second argument is the node id, which it turns into the id string with
  `Into<String>`. In the model, `StoreNode.ToModel` does that conversion at
  the call site (`IntoString`) and passes the result to
  `OpenApiModels.NodeSpec.New`, which then stores it unchanged.
`StoreNode.ToModel` and `StoreNode.ExternalRoundTrip` rest on these
assumptions.

`NodeSpecKey` derives no equality in the source. The store sees only a
key's address, the pair (category tag, identity string). Where a lemma
compares two keys with `==`, that is the model's datatype equality. Equal
keys always have equal addresses, and `StoreNode.KeyDependsOnlyOnId` states
the result for both forms.

## Model

| member | source | states |
|---|---|---|
| `StoreNode.NodeSpec.New` | common/src/types/v0/store/node.rs:40-46 | the id, endpoint and labels are stored verbatim for every input: `Id()` and `Endpoint()` give back what was passed in |
| `StoreNode.NodeSpec.Id` | common/src/types/v0/store/node.rs:48-50 | the accessor returns the stored id: writing it back leaves the spec unchanged |
| `StoreNode.NodeSpec.Endpoint` | common/src/types/v0/store/node.rs:52-54 | the accessor returns the stored endpoint: writing it back leaves the spec unchanged |
| `StoreNode.NodeSpec.SetEndpoint` | common/src/types/v0/store/node.rs:56-58 | afterwards `Endpoint()` is exactly the new string, unvalidated; the id and labels are unchanged |
| `StoreNode.SetEndpointIdempotent` | common/src/types/v0/store/node.rs:56-58 | setting the same endpoint twice gives the same spec as setting it once |
| `StoreNode.SetEndpointLastWins` | common/src/types/v0/store/node.rs:56-58 | of two endpoint updates in a row only the second is visible |
| `StoreNode.SetEndpointKeepsKey` | common/src/types/v0/store/node.rs:56-58 | an endpoint update never changes the store key of the record |
| `StoreNode.NodeSpec.UuidAsString` | common/src/types/v0/store/node.rs:72-76 | the identity string converts back to the spec's own id |
| `StoreNode.NodeSpec.Key` | common/src/types/v0/store/node.rs:97-102 | the key derived from a spec has the NodeSpec category and the spec id's string form as its identity |
| `StoreNode.NodeSpecKey.FromId` | common/src/types/v0/store/node.rs:81-85 | a key built from a borrowed id has the NodeSpec category and that id's string form |
| `StoreNode.NodeSpecKey.KeyType` | common/src/types/v0/store/node.rs:88-90 | the category tag of every node key is `NodeSpec` |
| `StoreNode.NodeSpecKey.KeyUuid` | common/src/types/v0/store/node.rs:92-94 | the key's identity string converts back to the id the key wraps |
| `StoreNode.NodeSpecKey.Address` | common/src/types/v0/store/node.rs:87-95 | the store address of a node key has the NodeSpec category, and its identity string converts back to the wrapped id |
| `StoreNode.KeyDependsOnlyOnId` | common/src/types/v0/store/node.rs:87-102 | two specs have equal keys, and equal (category, identity) store addresses, if and only if their ids are equal |
| `StoreNode.KeyIgnoresEndpointAndLabels` | common/src/types/v0/store/node.rs:100-102 | two different specs can share a key: the key does not identify the whole record |
| `StoreNode.KeyPathsAgree` | common/src/types/v0/store/node.rs:81-102 | building a key from a spec's id and asking the spec for its key give the same key |
| `StoreNode.UuidMatchesKey` | common/src/types/v0/store/node.rs:72-94 | the spec's `uuid_as_string` equals its key's `key_uuid` |
| `StoreNode.ToModel` | common/src/types/v0/store/node.rs:61-65 | the API value carries the spec's endpoint as `grpc_endpoint` and the spec's id as `id` |
| `StoreNode.FromModel` | common/src/types/v0/store/node.rs:66-70 | the spec takes its endpoint from `grpc_endpoint` and its id from `id`, and its labels are empty |
| `StoreNode.InternalRoundTrip` | common/src/types/v0/store/node.rs:61-70 | internal to API and back gives the same spec with its labels emptied, so it restores the spec if and only if the labels were empty |
| `StoreNode.InternalRoundTripIsLossy` | common/src/types/v0/store/node.rs:61-70 | some spec, one that has labels, does not survive internal to API and back |
| `StoreNode.ExternalRoundTrip` | common/src/types/v0/store/node.rs:61-70 | API to internal and back reproduces every API value exactly |
| `StoreNode.LabelledNodeScenario` | common/src/types/v0/store/node.rs:40-102 | the node `node-1` at `10.0.0.5:10124` with label `zone=a`: key identity `node-1`, API value `{10.0.0.5:10124, node-1}`, and it comes back with no labels |
| `OpenApiModels.NodeSpec.New` | common/src/types/v0/store/node.rs:63 | the generated API constructor takes the endpoint first and the id second, as the call shows; that it stores both unchanged is the assumption stated above, not something the call shows |
| `MessageBus.NodeIdFromString` | common/src/types/v0/store/node.rs:68 | the id built from a string wraps exactly that string |
| `MessageBus.IntoString` | common/src/types/v0/store/node.rs:74 | the string an id converts into converts back to the same id |
| `MessageBus.ToString` | common/src/types/v0/store/node.rs:93 | the displayed string of an id converts back to the same id |
| `MessageBus.StringRoundTrip` | common/src/types/v0/store/node.rs:68 | wrapping a string into an id and converting back gives the same string |
| `MessageBus.RenderingsAgree` | common/src/types/v0/store/node.rs:74 | the newtype assumption stated above, written as a lemma: `to_string()` and `into::<String>()` give the same string for every id |
| `MessageBus.ToStringInjective` | common/src/types/v0/store/node.rs:93 | two ids have the same string form if and only if they are the same id |

## Left out

- Serialization: the `Serialize`/`Deserialize` derives (node.rs lines 16 and 29) use an external encoding library whose format is not part of this model. No byte encoding is modelled, so there is no store round-trip lemma.
- The `Debug` and `Default` derives on `NodeSpec`: no behaviour to state beyond the datatype's own equality.
- `Node` and `NodeState` (node.rs lines 17-27): they only wrap the message-bus node state, which is not part of this model, and they have no behaviour.
- `NodeId`, the `ObjectKey`, `StorableObject` and `UuidString` trait definitions, and the generated API constructor live in files that are not part of this model. The model relies on the assumptions stated above: the newtype assumption for `NodeId`, and the two assumptions for `models::NodeSpec::new`.
- `StorableObjectType`: only its `NodeSpec` tag appears in the node record. The other tags (`PoolSpec`, `VolumeSpec`, `ReplicaSpec`) stand for the other persisted entity kinds. They are not the source's complete list.
- `StoreNode.NodeSpec.SetEndpoint`: modelled as a value update, not as an in-place write. This matches Rust's exclusive `&mut self` borrow, which rules out aliasing.
- The storage backend (put, get, delete), the message bus and the REST transport: none of them is implemented in the node record.
- tests/bdd/common.py: it builds REST clients and starts and stops containers. That is all I/O with no logic to model.
- Strings are sequences of characters. UTF-8 encoding is not modelled.
