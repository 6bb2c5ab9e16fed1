/**
  The composite client of graphql_client.go: an HTTP sub-client for one-shot
  requests and a legacy WebSocket sub-client, both built from one endpoint.
*/
module Facade {
  import Endpoint
  import WebSocketClient

  /** The HTTP sub-client keeps only its endpoint; its request path is not part of this model. */
  datatype HttpClient = HttpClient(endpoint: string)

  /** The struct embedding both sub-clients; it is never updated after construction. */
  datatype GraphQLClient = GraphQLClient(http: HttpClient, ws: WebSocketClient.GraphQLWebSocketClient)

  /**
    NewClient: the HTTP sub-client gets the endpoint unchanged, and a new
    WebSocket sub-client gets the rewritten endpoint, with no socket and an
    empty registry.
  */
  method NewClient(endpoint: string) returns (c: GraphQLClient)
    requires |endpoint| >= 4
    ensures c.http.endpoint == endpoint
    ensures fresh(c.ws)
    ensures c.ws.wsEndpoint == Endpoint.WsEndpoint(endpoint)
    ensures c.ws.Valid() && c.ws.State() == WebSocketClient.Initial
  {
    var wsEndpoint := Endpoint.WsEndpoint(endpoint);
    var ws := new WebSocketClient.GraphQLWebSocketClient(wsEndpoint);
    c := GraphQLClient(HttpClient(endpoint), ws);
  }
}
