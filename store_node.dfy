/** The persisted node record: the node specification, the key under which
    the store files it, and its conversions to and from the REST API model. */
module StoreNode {
  import opened MessageBus
  import StoreDefinitions
  import OpenApiModels

  /** Operator-assigned metadata: label name to label value. */
  type NodeLabels = map<string, string>

  /** The durable specification of a storage node. Equality is structural. */
  datatype NodeSpec = NodeSpec(id: NodeId, endpoint: string, labels: NodeLabels)
  {
    /** Builds a spec from its three parts; every input is accepted as given. */
    static function New(id: NodeId, endpoint: string, labels: NodeLabels): (r: NodeSpec)
      ensures r.Id() == id && r.Endpoint() == endpoint && r.labels == labels
    {
      NodeSpec(id, endpoint, labels)
    }

    /** The node's identity: the stored id, so putting it back changes nothing. */
    function Id(): (r: NodeId)
      ensures this.(id := r) == this
    {
      id
    }

    /** The node's gRPC endpoint: the stored string, so putting it back
        changes nothing. */
    function Endpoint(): (r: string)
      ensures this.(endpoint := r) == this
    {
      endpoint
    }

    /** The spec after `set_endpoint`: the endpoint is replaced by the given
        string, unvalidated, and nothing else changes. */
    function SetEndpoint(newEndpoint: string): (r: NodeSpec)
      ensures r.Endpoint() == newEndpoint
      ensures r.Id() == Id() && r.labels == labels
    {
      this.(endpoint := newEndpoint)
    }

    /** The spec's identity as a string (`UuidString`). */
    function UuidAsString(): (s: string)
      ensures NodeIdFromString(s) == id
    {
      IntoString(id)
    }

    /** The store key of this spec (`StorableObject::key`): it holds a copy
        of the id and nothing else. */
    function Key(): (k: NodeSpecKey)
      ensures k.KeyType() == StoreDefinitions.StorableObjectType.NodeSpec
      ensures k.KeyUuid() == ToString(id)
    {
      NodeSpecKey(id)
    }
  }

  /** The key under which the store files a `NodeSpec`. */
  datatype NodeSpecKey = NodeSpecKey(nodeId: NodeId)
  {
    /** `From<&NodeId>`: a key holding a copy of the given id. */
    static function FromId(id: NodeId): (k: NodeSpecKey)
      ensures k.KeyType() == StoreDefinitions.StorableObjectType.NodeSpec
      ensures k.KeyUuid() == ToString(id)
    {
      NodeSpecKey(id)
    }

    /** `ObjectKey::key_type`: the category tag, fixed for node specs. */
    function KeyType(): (t: StoreDefinitions.StorableObjectType)
      ensures t.NodeSpec?
    {
      StoreDefinitions.StorableObjectType.NodeSpec
    }

    /** `ObjectKey::key_uuid`: the wrapped id rendered as a string. */
    function KeyUuid(): (s: string)
      ensures NodeIdFromString(s) == nodeId
    {
      ToString(nodeId)
    }

    /** The fully qualified store address: category tag and identity string.
        This pair is all the store sees of a key. */
    function Address(): (a: (StoreDefinitions.StorableObjectType, string))
      ensures a.0.NodeSpec?
      ensures NodeIdFromString(a.1) == nodeId
    {
      (KeyType(), KeyUuid())
    }
  }

  /** Internal to external: keeps the endpoint and the id, drops the labels. */
  function ToModel(src: NodeSpec): (r: OpenApiModels.NodeSpec)
    ensures r.grpc_endpoint == src.Endpoint()
    ensures NodeIdFromString(r.id) == src.Id()
  {
    OpenApiModels.NodeSpec.New(src.endpoint, IntoString(src.id))
  }

  /** External to internal: takes the id and the gRPC endpoint; the labels,
      absent from the API shape, become empty. */
  function FromModel(src: OpenApiModels.NodeSpec): (r: NodeSpec)
    ensures r.Endpoint() == src.grpc_endpoint
    ensures IntoString(r.Id()) == src.id
    ensures r.labels == map[]
  {
    NodeSpec.New(NodeIdFromString(src.id), src.grpc_endpoint, map[])
  }

  /** Setting the endpoint twice to the same value is setting it once. */
  lemma SetEndpointIdempotent(s: NodeSpec, e: string)
    ensures s.SetEndpoint(e).SetEndpoint(e) == s.SetEndpoint(e)
  {
  }

  /** Only the last of two endpoint updates is visible. */
  lemma SetEndpointLastWins(s: NodeSpec, e1: string, e2: string)
    ensures s.SetEndpoint(e1).SetEndpoint(e2) == s.SetEndpoint(e2)
  {
  }

  /** Changing the endpoint never moves the record to another store key. */
  lemma SetEndpointKeepsKey(s: NodeSpec, e: string)
    ensures s.SetEndpoint(e).Key() == s.Key()
  {
  }

  /** Key derivation reads only the id: two specs share a key exactly when
      they share an id, whatever their endpoints and labels. */
  lemma KeyDependsOnlyOnId(a: NodeSpec, b: NodeSpec)
    ensures a.Key() == b.Key() <==> a.Id() == b.Id()
    ensures a.Key().Address() == b.Key().Address() <==> a.Id() == b.Id()
  {
  }

  /** A key is not an identity of the whole record: distinct specs can share
      one when they differ only in endpoint or labels. */
  lemma {:induction false} KeyIgnoresEndpointAndLabels()
    ensures exists a: NodeSpec, b: NodeSpec :: a != b && a.Key() == b.Key()
  {
    var a := NodeSpec.New(NodeId("node-1"), "10.0.0.5:10124", map[]);
    var b := a.SetEndpoint("10.0.0.6:10124");
    assert a.endpoint != b.endpoint;
    assert a != b && a.Key() == b.Key();
  }

  /** The two ways of building a key agree: from the spec, or from its id. */
  lemma KeyPathsAgree(s: NodeSpec)
    ensures NodeSpecKey.FromId(s.Id()) == s.Key()
  {
  }

  /** The spec's identity string is the one its store key carries (by the
      assumption that a `NodeId`'s two string renderings agree). */
  lemma UuidMatchesKey(s: NodeSpec)
    ensures s.UuidAsString() == s.Key().KeyUuid()
  {
  }

  /** Internal to external to internal restores the spec exactly when it had
      no labels; otherwise the labels come back empty. */
  lemma InternalRoundTrip(s: NodeSpec)
    ensures FromModel(ToModel(s)) == s <==> s.labels == map[]
    ensures FromModel(ToModel(s)) == s.(labels := map[])
  {
  }

  /** The internal to external to internal round trip is lossy: a spec with
      labels does not survive it. */
  lemma {:induction false} InternalRoundTripIsLossy()
    ensures exists s: NodeSpec :: FromModel(ToModel(s)) != s
  {
    var s := NodeSpec.New(NodeId("node-1"), "10.0.0.5:10124", map["zone" := "a"]);
    assert "zone" in s.labels;
    assert FromModel(ToModel(s)).labels != s.labels;
  }

  /** External to internal to external reproduces the API value exactly. */
  lemma ExternalRoundTrip(m: OpenApiModels.NodeSpec)
    ensures ToModel(FromModel(m)) == m
  {
  }

  /** The concrete scenario of a labelled node crossing the API boundary. */
  lemma {:induction false} LabelledNodeScenario()
    ensures var s := NodeSpec.New(NodeId("node-1"), "10.0.0.5:10124", map["zone" := "a"]);
            s.Key().KeyUuid() == "node-1"
            && ToModel(s) == OpenApiModels.NodeSpec("10.0.0.5:10124", "node-1")
            && FromModel(ToModel(s)) == NodeSpec(NodeId("node-1"), "10.0.0.5:10124", map[])
  {
  }
}
