/** Categories under which the persistent store namespaces its keys. */
module StoreDefinitions {

  /** The category tag of a store key. Only `NodeSpec` is used by the node
      record; the other categories stand for the remaining persisted entity
      kinds that share the same backend. */
  datatype StorableObjectType = NodeSpec | PoolSpec | VolumeSpec | ReplicaSpec
}
