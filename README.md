# graphqltogo subscription engines, modelled in Dafny

This project models the client side of graphqltogo's WebSocket engines as
sequential state machines. graphqltogo is a Go client library for GraphQL.
The engines covered are the subscription registry, the id generator, the
per-frame dispatcher of the listen loop, reconnection with resubscription,
and shutdown. The snapshot holds three generations of the engine, and each
one is modelled on its own:

- `WebSocket` (websocket.go) is the current engine. It speaks the
  `graphql-transport-ws` subprotocol of the graphql-ws library, with frames
  `subscribe`, `next`, `error`, `complete`, `ping`, `pong`,
  `connection_init`, `connection_ack` and `connection_terminate`. It also
  classifies read errors by close code, following sections 7.4.1 and 7.4.2
  of RFC 6455.
- `WebSocketClient` (websocket_client.go) is the legacy engine. It speaks
  the `graphql-ws` subprotocol of Apollo's subscriptions-transport-ws, with
  frames `start`, `stop`, `data`, `error`, `complete` and
  `connection_keep_alive`, and it keeps a `closing` flag.
- `Client` (client.go) is the earliest engine. It keeps only the counters
  `subID` and `subCount`.
- `Facade` (graphql_client.go) builds an HTTP sub-client and a legacy
  WebSocket sub-client from one endpoint.
- `Endpoint` holds the http→ws endpoint rewrite, which client.go and
  graphql_client.go write out identically.

Shared modules:

- `Decimal`: id rendering (`strconv.FormatInt`, `fmt.Sprintf("%d")`) and its inverse.
- `Wire`: JSON values, frames, channels, read errors.
- `Wrappers`: Option, Result and Outcome.

Each engine has four parts:

- a value datatype `Engine` holding its abstract state: socket present,
  registry, id counter, every frame handed to the socket, and each
  subscription's channel as the consumer sees it (values sent, closed or not);
- one step function per source operation;
- lemmas stating what those steps promise;
- a class whose fields hold the same state. Each of its methods has the
  postcondition `State() == XStep(old(State()), …)`, so the method is proved
  to perform exactly that step. Where it matters, the method also keeps the
  invariant `Valid()`.

The environment's decisions are explicit inputs:

- whether each dial attempt and each socket write succeeds;
- what a payload decodes to;
- what the next read returns;
- the order in which Go's map iteration visits the registry.

The frame log `written` records every frame handed to `WriteJSON`, whether
or not that write succeeded.

Where the code and the design intent differ, the model follows the code, except for the concurrency defects listed under Findings:

- websocket.go's `unsubscribe` returns before deleting the record when the stop write fails.
- websocket_client.go's `Unsubscribe` never touches the registry.
- `unsubscribe` closes neither the subscription's channel nor the socket.
- In both newer engines, a failed `connection_init` write leaves the socket recorded.
- websocket.go reads each frame into a message whose payload is a JSON object (websocket.go:18-22). A frame whose payload is anything else fails to read and takes the read-error path, which drops the socket and reconnects. A graphql-transport-ws `error` frame carries an array of errors, so it reaches no subscriber; the reconnect replays the subscription that failed.
- The legacy listen loop only stops on a read error. It neither clears the socket nor reconnects.
- client.go's `Unsubscribe` decrements `subCount` for any id it is given.

## Model

| member | source | states |
|---|---|---|
| Decimal.ParseFormatNat | websocket.go:275-277 | parsing the decimal rendering of the counter gives back the counter |
| Decimal.FormatNatInjective | websocket.go:275-277 | two counter values render to the same id exactly when they are equal |
| Decimal.FormatIntInjective | client.go:183 | `fmt.Sprintf("%d", n)` renders distinct integers, negative ones included, to distinct ids |
| Decimal.ParseFormatInt | client.go:209 | the signed rendering is read back to the same integer |
| Decimal.IssuedIdsStep | websocket.go:275-277 | one more increment adds exactly one new id to the set of issued ids, and that id was not issued before |
| WebSocket.NextIdFresh | websocket.go:275-277 | generateUniqueID increments the counter by one and returns its decimal rendering, which no channel or registry entry carries yet |
| WebSocket.GraphQLClient.GenerateUniqueId | websocket.go:275-277 | increments the counter field and returns its rendering (the NextId step) |
| WebSocket.GraphQLClient.DialWebSocket | websocket.go:53-75 | at most `maxRetries` = 5 attempts, stopping at the first success; it succeeds exactly when one of the first five attempts does |
| WebSocket.GraphQLClient.OpenWebSocket | websocket.go:24-51 | no-op with a socket present; a dial failure changes nothing; otherwise the socket is recorded and connection_init carrying the authorization header is written, and a failed init write is reported |
| WebSocket.RegisterFresh | websocket.go:289-296 | subscribe inserts under an id never issued before and keeps the registry invariant: every key issued, every registered channel open |
| WebSocket.SubscribeOpenFails | websocket.go:280-285 | without a socket, a failed open is returned with registry, counter and channels unchanged |
| WebSocket.SubscribeSucceeds | websocket.go:289-324 | a successful subscribe adds exactly one record, holding the given query, variables and factory, under a fresh id; it gives the id a new open channel and writes one subscribe frame with that id; nothing else changes |
| WebSocket.CleanupUndoesRegister | websocket.go:326-335 | cleanupSubscription after registering restores the registry and closes the socket exactly when the registry is empty |
| WebSocket.SubscribeSendFails | websocket.go:298-335 | a failed subscribe send removes the new id again: the registry is as before, the id is used up, the socket is gone iff the registry is empty, and connection_terminate is written then |
| WebSocket.SubscribePreservesInv | websocket.go:279-308 | subscribe, whatever its outcome, keeps every registry key an issued id with an open channel |
| WebSocket.GraphQLClient.Subscribe | websocket.go:279-308 | performs the subscribe step on the fields and keeps the invariant |
| WebSocket.GraphQLClient.SendSubscribeMessage | websocket.go:310-324 | writes one subscribe frame with the id, query and variables; reports the write's failure |
| WebSocket.GraphQLClient.CleanupSubscription | websocket.go:326-335 | deletes the id and closes the socket when the registry becomes empty |
| WebSocket.UnsubscribeEffect | websocket.go:337-361 | without a socket: error, no change. Otherwise one complete frame for the id is written. A failed write leaves the registry unchanged; a successful one deletes exactly that id. Channel and socket stay |
| WebSocket.UnsubscribePreservesInv | websocket.go:337-361 | unsubscribe keeps the registry invariant |
| WebSocket.GraphQLClient.Unsubscribe | websocket.go:337-361 | performs the unsubscribe step on the fields |
| WebSocket.DataFrameRouting | websocket.go:162-187 | a next or error frame for an unknown id, or with an undecodable payload, changes nothing; otherwise exactly one value is appended to that id's channel and no other state changes |
| WebSocket.DeliveryInOrder | websocket.go:145-187 | two next frames for one subscription reach its channel in the order they were read |
| WebSocket.GraphQLClient.HandleDataMessage | websocket.go:162-187 | performs the data step on the fields |
| WebSocket.CompleteFrameEffect | websocket.go:189-202 | complete closes the channel of a registered id and deletes only that entry. When the registry is then empty the socket is closed, even for an unknown id; otherwise the socket and the frame log are untouched |
| WebSocket.GraphQLClient.HandleCompleteMessage | websocket.go:189-202 | performs the complete step on the fields |
| WebSocket.PingWritesPong | websocket.go:204-215 | a ping frame writes exactly one pong and changes nothing else |
| WebSocket.GraphQLClient.SendPong | websocket.go:204-215 | appends one pong frame to the log |
| WebSocket.IgnoredFramesChangeNothing | websocket.go:145-160 | pong, connection_ack and unknown types change nothing |
| WebSocket.HandleMessagePreservesInv | websocket.go:145-160 | dispatch keeps the invariant and never inserts into the registry |
| WebSocket.GraphQLClient.HandleMessage | websocket.go:145-160 | dispatches by frame type as the switch does |
| WebSocket.ReadErrorClassification | websocket.go:124-143 | the socket is dropped first. Close codes 1000/1001 stop with no recovery; every other error asks for a reconnect. Codes 4401/4403 run the auth hook once if one is set. Registry, channels and log are untouched |
| WebSocket.GraphQLClient.HandleReadError | websocket.go:124-143 | performs the read-error step on the fields |
| WebSocket.ListenPreservesInv | websocket.go:100-122 | one listen iteration keeps the invariant |
| WebSocket.GraphQLClient.ListenOnce | websocket.go:100-122 | one listen iteration: stop without a socket; a read error, or a frame whose payload is neither an object nor null, goes to the read-error path; any other frame is dispatched |
| WebSocket.UnreadableFrameReconnects | websocket.go:18-22 | a frame whose payload is neither an object nor null is not delivered: the socket is dropped and the loop asks for a reconnect, with nothing else changed |
| WebSocket.ProtocolErrorFrameReconnects | websocket.go:112-116 | an `error` frame with an array payload leaves every channel and the registry unchanged, drops the socket and asks for a reconnect |
| WebSocket.ClosedSocketReadStops | websocket.go:104-116 | a read that fails after the client dropped its own socket ends the loop with no recovery; with the socket present, a failed read is handled as handleReadError does |
| WebSocket.CloseDuringReadReconnects | websocket.go:124-143 | as written, a read blocked when the client closes its own socket fails with a non-close error, so handleReadError asks for a reconnect; one successful open then restores a socket |
| WebSocket.CompleteSelfWait | websocket.go:256-273 | as written, the listen goroutine that handles a complete ending the last subscription blocks for good in closeWebSocket's wait, although the state it leaves is the model's |
| WebSocket.CompleteThenListenEnds | websocket.go:189-202 | in the model, a complete ending the last subscription closes the socket, the iteration returns, and the next iteration ends the loop |
| WebSocket.ResubscribeWrites | websocket.go:236-254 | resubscribeAll writes, in visiting order, one subscribe frame per record built from its stored query and variables |
| WebSocket.ResubscribeSurvivors | websocket.go:236-254 | exactly the records whose resend failed are removed; the others keep their contents |
| WebSocket.ResubscribeChannels | websocket.go:236-254 | the channel of each removed record is closed, and no other channel changes |
| WebSocket.ResubscribeReplaysEveryRecord | websocket.go:236-254 | every registered record gets exactly one replayed subscribe frame with its stored query and variables, and the surviving ids are a subset of the prior ids |
| WebSocket.ResubscribePreservesInv | websocket.go:236-254 | resubscription keeps the invariant |
| WebSocket.GraphQLClient.ResubscribeAll | websocket.go:236-254 | the loop over the registry performs the resubscribe step |
| WebSocket.ReconnectReplays | websocket.go:217-234 | when an open attempt succeeds, the socket is present and the log ends with the replay of every record; while none succeeds, registry and channels are unchanged |
| WebSocket.RetryOpenPreservesInv | websocket.go:217-234 | reconnecting keeps the invariant |
| WebSocket.GraphQLClient.Reconnect | websocket.go:217-234 | no-op with a socket present; otherwise open attempts in turn, then resubscribeAll after the first success |
| WebSocket.CloseIdempotent | websocket.go:256-273 | closing always leaves no socket, writes connection_terminate exactly when there was one, changes nothing else, and twice is the same as once |
| WebSocket.GraphQLClient.CloseWebSocket | websocket.go:256-273 | performs the close step on the fields |
| WebSocket.GraphQLClient.Close | websocket.go:363-371 | delegates to closeWebSocket only with a socket present; same close step |
| WebSocketClient.GraphQLWebSocketClient.constructor | websocket_client.go:24-29 | a new client has no socket, is not closing, has an empty registry and counter 0 |
| WebSocketClient.RegisterFresh | websocket_client.go:186-188 | the new id was never issued and the registry invariant holds after registering |
| WebSocketClient.GraphQLWebSocketClient.GenerateUniqueId | websocket_client.go:31-33 | increments the counter and returns its decimal rendering |
| WebSocketClient.GraphQLWebSocketClient.OpenWebSocket | websocket_client.go:35-73 | no-op with a socket present; one dial attempt; then connection_init, whose failure is reported with the socket left recorded |
| WebSocketClient.SubscribeOpenFails | websocket_client.go:177-184 | a failed open is returned with registry, counter and channels unchanged |
| WebSocketClient.SubscribeSucceeds | websocket_client.go:186-213 | a successful Subscribe adds exactly one fresh id with a new open channel and writes one start frame with that id, the query and the variables |
| WebSocketClient.SubscribeStartFails | websocket_client.go:201-211 | a failed start write removes the new id, and the socket is closed iff the registry is then empty |
| WebSocketClient.SubscribePreservesInv | websocket_client.go:176-214 | Subscribe keeps the registry invariant |
| WebSocketClient.GraphQLWebSocketClient.Subscribe | websocket_client.go:176-214 | reopens when there is no socket or a close is in progress, then performs the subscribe step |
| WebSocketClient.UnsubscribeEffect | websocket_client.go:216-236 | without a socket: error. Otherwise one stop frame for the id is written. Never changes the registry or a channel |
| WebSocketClient.GraphQLWebSocketClient.Unsubscribe | websocket_client.go:216-236 | performs the unsubscribe step on the fields |
| WebSocketClient.DataFrameRouting | websocket_client.go:102-118 | data appends its payload, and error appends the wrapped error, to the matching id's channel only; unknown ids change nothing |
| WebSocketClient.CompleteFrameEffect | websocket_client.go:120-133 | complete closes and deletes only the matching id, and closes the socket when the registry is then empty; the loop goes on and no close stays marked |
| WebSocketClient.CompleteSelfWait | websocket_client.go:153-174 | as written, a complete ending the last subscription leaves the listen goroutine blocked in closeWebSocket's wait and the `closing` mark set for good, which breaks the invariant |
| WebSocketClient.KeepAliveAcknowledged | websocket_client.go:141-145 | connection_keep_alive writes exactly one connection_ack; a failed reply ends the loop |
| WebSocketClient.IgnoredFramesChangeNothing | websocket_client.go:135-148 | connection_ack, connection_error and unknown types change nothing |
| WebSocketClient.ReadErrorOnlyStops | websocket_client.go:90-97 | a read error ends the loop and changes no state: the socket stays and nothing reconnects |
| WebSocketClient.ListenPreservesInv | websocket_client.go:75-151 | a listen iteration keeps the invariant and never inserts into the registry |
| WebSocketClient.GraphQLWebSocketClient.ListenOnce | websocket_client.go:79-150 | one iteration of the listen loop with its per-frame switch |
| WebSocketClient.CloseEffect | websocket_client.go:153-174 | afterwards there is no socket and no close in progress. Without a socket it is a no-op; otherwise exactly one connection_terminate is written. Idempotent |
| WebSocketClient.GraphQLWebSocketClient.CloseWebSocket | websocket_client.go:153-174 | sets closing, writes terminate, drops the socket, clears closing |
| WebSocketClient.GraphQLWebSocketClient.Close | websocket_client.go:238-246 | delegates to closeWebSocket with a socket present |
| Client.GraphQLClient.constructor | client.go:27-33 | the endpoint is kept and the ws endpoint is derived by the http→ws rewrite; no socket, counters 0 |
| Client.SubscribeTakesNextId | client.go:179-197 | past connection setup, Subscribe takes subID + 1 and writes one start frame under an id no earlier one carried. On success subCount grows by one and that id is returned. On a failed write the socket is closed, subCount is unchanged and the id stays used |
| Client.SubscribeOpenFails | client.go:173-177 | a failed open returns the error with both counters unchanged |
| Client.GraphQLClient.OpenWebSocket | client.go:81-104 | a failed dial changes nothing; otherwise the socket is recorded and connection_init is written, and a failed init write is reported with the socket left recorded |
| Client.GraphQLClient.CloseWebSocket | client.go:163-167 | forgets the socket and writes no frame |
| Client.GraphQLClient.Subscribe | client.go:169-198 | performs the subscribe step on the fields |
| Client.UnsubscribeEffect | client.go:200-223 | without a socket: error, no change. Otherwise one stop frame is written. If it succeeds, subCount drops by one and the socket closes exactly when subCount reaches 0 |
| Client.GraphQLClient.Unsubscribe | client.go:200-223 | performs the unsubscribe step on the fields |
| Client.CloseIdempotent | client.go:225-232 | Close leaves no socket, writes nothing, and is idempotent |
| Client.GraphQLClient.Close | client.go:225-232 | closes the socket only when one is present |
| Client.StepsPreserveInv | client.go:179-217 | subID never goes below 0 and subCount never exceeds subID |
| Endpoint.WsEndpoint | graphql_client.go:9-12 | an "http" prefix is replaced by "ws" (the result is two shorter), any other endpoint is kept, and what follows the first four characters is always preserved; at least four characters are required, as the slice panics otherwise |
| Endpoint.RewriteIsInvertible | graphql_client.go:9-12 | the rewrite of an http endpoint starts with "ws", and putting "http" back gives the original |
| Endpoint.SchemeRewrite | client.go:28-31 | `http://x` becomes `ws://x` and `https://x` becomes `wss://x` |
| Endpoint.WebSocketSchemesUnchanged | graphql_client.go:9-11 | `ws://` and `wss://` endpoints are left as they are |
| Facade.NewClient | graphql_client.go:8-17 | the HTTP sub-client gets the endpoint unchanged; a new WebSocket sub-client gets the rewritten endpoint, no socket and an empty registry |

## Left out

- Dialing, the handshake headers, JSON encoding and decoding, and socket I/O are inputs: a success flag per dial attempt and per write, a decoded value or `None` per data frame, and a frame or error per read.
- The HTTP request path (`Execute` in client.go and http_client.go) is not part of this model. The HTTP sub-client is reduced to its endpoint.
- Goroutines, `sync.Mutex`, `sync.WaitGroup` and channel blocking are not modelled; every operation is one atomic step. Two consequences of the concurrency are stated by separate as-written lemmas (see Findings), not by the step functions:
  - A complete frame that ends the last subscription makes the listen goroutine call `closeWebSocket` itself. That function waits on a wait group counting the caller, so the goroutine hangs for good. In websocket_client.go the `closing` mark it set is never cleared; in both engines every later close of a socket opened afterwards waits for ever. The step functions instead let that loop iteration finish and clear `closing`.
  - In websocket.go, a `Close`, or a `cleanupSubscription` that empties the registry, closes the socket under a read that is blocked in `ReadJSON`. That read fails with an error that is not a close frame, so `handleReadError` reconnects and the socket comes back. The model's listen loop consumes a read only while the socket is present.
- The typed forwarding goroutine of `Subscribe[T]` (websocket.go:373-390) and client.go's signal-handling reader with its callbacks (client.go:106-158) are not part of this model.
- `time.Sleep` and the retry interval are not modelled.
- WebSocket.GraphQLClient.Reconnect: the source retries forever. The model tries the open attempts it is given and returns false when they run out.
- Listening is one call per read (`ListenOnce`). The new listen goroutine that a successful open starts is not tracked.
- The authorization-error hook's own effect (for instance refreshing the credential) is unknown code. The model counts its calls.
- websocket.go's `GraphQLClient` declaration and constructor are not part of the snapshot. The model's constructor starts with no socket and an empty registry. It takes the authorization header and whether a hook is set as parameters.
- Go's `int`/`int64` counters are unbounded integers here; wrap-around after 2^63 increments is not modelled.
- Type assertions in the legacy listen loop (`result["type"].(string)`, `result["id"].(string)`) panic on malformed frames. The model's frames always carry a string type and id, so these panics are not modelled.
- Console logging is not modelled.
- Strings stand for Go strings, which are byte sequences; `endpoint[:4]` takes four bytes. Endpoints and ids are ASCII, so bytes and characters agree there.

## Findings

| source | as written | input that shows it | evidently intended | confidence | as-written member | corrected member |
|---|---|---|---|---|---|---|
| websocket_client.go:153-174 | the listen goroutine (counted in `wg` at websocket_client.go:76-77) calls `closeWebSocket` when a complete frame empties the registry, and that function waits on `wg` | one live subscription "1"; the server sends `{"type":"complete","id":"1"}` | close the socket, clear `closing`, and let the loop end | high, not executed | WebSocketClient.CompleteSelfWait | WebSocketClient.CompleteFrameEffect |
| websocket.go:256-273 | `handleCompleteMessage`, run by the listen goroutine counted in `wg` (websocket.go:101-102), calls `closeWebSocket`, whose deferred `wg.Wait` counts that goroutine | one live subscription "1"; the server sends `{"type":"complete","id":"1"}` | close the socket and let the loop end at its next nil check | high, not executed | WebSocket.CompleteSelfWait | WebSocket.CompleteThenListenEnds |
| websocket.go:124-143 | a read that fails because this client closed its own socket is handled like a dropped connection and reconnects | one live subscription, the listen goroutine blocked in `ReadJSON`, then the user calls `Close()` | a read that fails after the client's own close stops the loop | medium, not executed | WebSocket.CloseDuringReadReconnects | WebSocket.ClosedSocketReadStops |
