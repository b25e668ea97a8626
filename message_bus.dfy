/** Node identity from the message bus, assumed to be a string newtype (its
    definition is not part of this model). Only the three conversions the
    persisted node record uses are modelled here. */
module MessageBus {

  /** Opaque identifier of a storage node; it wraps the node's name. */
  datatype NodeId = NodeId(name: string)

  /** `String::into::<NodeId>()`: wraps the string unchanged. */
  function NodeIdFromString(s: string): (id: NodeId)
    ensures id.name == s
  {
    NodeId(s)
  }

  /** `NodeId::into::<String>()`: the wrapped string. */
  function IntoString(id: NodeId): (s: string)
    ensures NodeIdFromString(s) == id
  {
    id.name
  }

  /** `NodeId::to_string()` (its `Display`): the wrapped string. */
  function ToString(id: NodeId): (s: string)
    ensures NodeIdFromString(s) == id
  {
    id.name
  }

  /** Wrapping a string and taking it back out gives the same string. */
  lemma StringRoundTrip(s: string)
    ensures IntoString(NodeIdFromString(s)) == s
  {
  }

  /** By the newtype assumption, both string renderings of an id agree, so an
      id has one string form. This states the assumption; it is not a fact
      shown by the node record. */
  lemma RenderingsAgree(id: NodeId)
    ensures ToString(id) == IntoString(id)
  {
  }

  /** The string form distinguishes ids: equal strings come from equal ids. */
  lemma ToStringInjective(a: NodeId, b: NodeId)
    ensures ToString(a) == ToString(b) <==> a == b
  {
  }
}
