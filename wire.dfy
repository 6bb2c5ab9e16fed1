/**
  What travels over the duplex socket and what a subscriber receives:
  JSON values, frames, read results and per-subscription channels.
*/
module Wire {

  /** A JSON value, as `encoding/json` reads it into `interface{}`. */
  datatype Json =
    | Null
    | Bool(b: bool)
    | Number(n: int)
    | Str(s: string)
    | Array(items: seq<Json>)
    | Object(fields: map<string, Json>)

  /**
    One text frame: its "type", its "id" ("" when the field is omitted)
    and its "payload" (Null when the field is omitted).
  */
  datatype Frame = Frame(kind: string, id: string, payload: Json)

  /** The payload of a subscribe or start frame. */
  function QueryPayload(query: string, variables: Json): Json {
    Object(map["query" := Str(query), "variables" := variables])
  }

  /** A frame carrying only a type. */
  function Bare(kind: string): Frame {
    Frame(kind, "", Null)
  }

  /** The error a socket read returns. */
  datatype ReadError =
    | CloseError(code: int)  // the peer closed the socket with this close code
    | OtherError             // any other read or decode failure

  /** One result of reading the socket. */
  datatype Read = Received(frame: Frame) | ReadFailed(cause: ReadError)

  /** `websocket.IsCloseError(err, codes...)`: a close error whose code is listed. */
  predicate IsCloseError(e: ReadError, codes: set<int>) {
    e.CloseError? && e.code in codes
  }

  /** Close codes of section 7.4.1 of RFC 6455. */
  const CloseNormalClosure: int := 1000
  const CloseGoingAway: int := 1001

  /**
    The sending side of a Go channel as the consumer sees it: every value
    sent so far, in order, and whether it has been closed.
  */
  datatype Channel<T> = Channel(items: seq<T>, closed: bool)

  const EmptyChannel: Channel<Json> := Channel([], false)

  /** Sends `v` on channel `id`, if that channel exists. */
  function Send<T>(chs: map<string, Channel<T>>, id: string, v: T): (r: map<string, Channel<T>>)
    ensures r.Keys == chs.Keys
    ensures forall k :: k in chs && k != id ==> r[k] == chs[k]
    ensures id in chs ==> r[id] == Channel(chs[id].items + [v], chs[id].closed)
  {
    if id in chs then chs[id := Channel(chs[id].items + [v], chs[id].closed)] else chs
  }

  /** Closes channel `id`, if that channel exists. */
  function CloseChannel<T>(chs: map<string, Channel<T>>, id: string): (r: map<string, Channel<T>>)
    ensures r.Keys == chs.Keys
    ensures forall k :: k in chs && k != id ==> r[k] == chs[k]
    ensures id in chs ==> r[id] == Channel(chs[id].items, true)
  {
    if id in chs then chs[id := Channel(chs[id].items, true)] else chs
  }

  /** The errors the engines return, one per `fmt.Errorf` site. */
  datatype Error =
    | DialFailed(attempts: nat)  // "failed to dial WebSocket [after %d attempts]"
    | InitFailed                 // "failed to send init message"
    | SendFailed                 // "failed to send start message" / "failed to send stop message"
    | NoConnection               // "no active WebSocket connection"
}
