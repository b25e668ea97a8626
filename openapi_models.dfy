/** The REST API's view of a node specification: the generated `models::NodeSpec`. */
module OpenApiModels {

  /** The API shape has only the gRPC endpoint and the id; it has no labels. */
  datatype NodeSpec = NodeSpec(grpc_endpoint: string, id: string)
  {
    /** The generated constructor, taking the endpoint first and the id second.
        Its body is not part of this model: it is assumed to store both
        strings unchanged. */
    static function New(grpc_endpoint: string, id: string): (r: NodeSpec)
      ensures r.grpc_endpoint == grpc_endpoint && r.id == id
    {
      NodeSpec(grpc_endpoint, id)
    }
  }
}
