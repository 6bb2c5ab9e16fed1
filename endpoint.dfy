/**
  The WebSocket endpoint derived from the HTTP endpoint: a leading "http"
  becomes "ws", so "http://" turns into "ws://" and "https://" into "wss://";
  any other endpoint is used as it is.
*/
module Endpoint {

  /**
    The rewrite. Go slices `endpoint[:4]` unconditionally, which panics on a
    shorter string, so at least four characters are required.
  */
  function WsEndpoint(endpoint: string): (ws: string)
    requires |endpoint| >= 4
    ensures |ws| == if endpoint[..4] == "http" then |endpoint| - 2 else |endpoint|
    ensures ws[|ws| - (|endpoint| - 4)..] == endpoint[4..]
    ensures endpoint[..4] == "http" ==> ws == "ws" + endpoint[4..]
    ensures endpoint[..4] != "http" ==> ws == endpoint
  {
    if endpoint[..4] == "http" then "ws" + endpoint[4..] else endpoint
  }

  /** Undoes the rewrite of an endpoint that started with "http". */
  function HttpEndpoint(ws: string): string
    requires |ws| >= 2
  {
    "http" + ws[2..]
  }

  /** The rewrite loses nothing: "http" + what follows "ws" is the original. */
  lemma RewriteIsInvertible(endpoint: string)
    requires |endpoint| >= 4 && endpoint[..4] == "http"
    ensures WsEndpoint(endpoint)[..2] == "ws"
    ensures HttpEndpoint(WsEndpoint(endpoint)) == endpoint
  {
    var ws := WsEndpoint(endpoint);
    assert ws[2..] == endpoint[4..];
    assert endpoint == endpoint[..4] + endpoint[4..];
  }

  /** A scheme starting with "http" keeps everything after its first four characters. */
  lemma HttpSchemeRewrite(scheme: string, rest: string)
    requires |scheme| >= 4 && scheme[..4] == "http"
    ensures WsEndpoint(scheme + rest) == "ws" + scheme[4..] + rest
  {
    assert (scheme + rest)[..4] == scheme[..4];
    assert (scheme + rest)[4..] == scheme[4..] + rest;
  }

  /** The two schemes the rewrite is meant for. */
  lemma SchemeRewrite(rest: string)
    ensures WsEndpoint("http://" + rest) == "ws://" + rest
    ensures WsEndpoint("https://" + rest) == "wss://" + rest
  {
    HttpSchemeRewrite("http://", rest);
    assert "ws" + "http://"[4..] == "ws://";
    HttpSchemeRewrite("https://", rest);
    assert "ws" + "https://"[4..] == "wss://";
  }

  /** An endpoint that is already a WebSocket URL is left alone. */
  lemma WebSocketSchemesUnchanged(rest: string)
    ensures WsEndpoint("ws://" + rest) == "ws://" + rest
    ensures WsEndpoint("wss://" + rest) == "wss://" + rest
  {
    assert ("ws://" + rest)[..4] == "ws:/";
    assert ("wss://" + rest)[..4] == "wss:";
  }
}
