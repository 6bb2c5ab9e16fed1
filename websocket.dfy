/**
  The current engine of websocket.go: the "graphql-transport-ws" protocol
  (the "GraphQL over WebSocket" protocol of the graphql-ws library).

  The abstract state of a client is the value `Engine`: whether a socket is
  open, the registry of subscriptions, the id counter, every frame handed to
  the socket, the channel of every subscription ever created, and how often
  the authorization-error hook ran. Each operation of the source is a step
  function on `Engine`; lemmas state what the steps promise; the class
  `GraphQLClient` holds the same state in fields and its methods are proved
  to perform exactly those steps.

  Inputs stand for what the environment decides: whether each dial attempt
  and each socket write succeeds, what a data frame's payload decodes to,
  the frame or error the next read returns, and the order in which Go's map
  iteration visits the registry.
*/
module WebSocket {
  import opened Wrappers
  import opened Wire
  import opened Decimal

  /** The subprotocol requested in the handshake. */
  const Subprotocol: string := "graphql-transport-ws"

  /** Dial attempts made by one open before it gives up. */
  const MaxRetries: nat := 5

  /** Private-use close codes (section 7.4.2 of RFC 6455) that signal an authorization failure. */
  const AuthFailureCodes: set<int> := {4401, 4403}

  /** The `NewTarget` factory of a subscription, named by the result type it manufactures. */
  datatype Factory = Factory(resultType: string)

  /** A registry record; its channel lives in `Engine.channels` under the same id. */
  datatype Subscription = Subscription(query: string, variables: Json, factory: Factory)

  datatype Engine = Engine(
    authHeader: string,
    hasAuthErrorHandler: bool,
    connected: bool,
    subs: map<string, Subscription>,
    counter: nat,
    written: seq<Frame>,
    channels: map<string, Channel<Json>>,
    authErrorHandlerCalls: nat)

  /** The state after an operation, and what the operation returned. */
  datatype Step<R> = Step(next: Engine, out: R)

  /** What a read error leads to. */
  datatype Recovery = Stop | Reconnect

  /**
    Whether the listen loop goes on after one iteration, has returned (with
    the recovery its read error asked for), or is blocked for good.
  */
  datatype Pump = Running | Exited(recovery: Recovery) | Stuck

  /** The environment's answers for one `openWebSocket`: the dial attempts, then the init write. */
  datatype OpenAttempt = OpenAttempt(dial: seq<bool>, initOk: bool)

  // ---------------------------------------------------------------------
  // Frames the client writes

  function InitFrame(authHeader: string): Frame {
    Frame("connection_init", "", Object(map["Authorization" := Str(authHeader)]))
  }

  function SubscribeFrame(id: string, query: string, variables: Json): Frame {
    Frame("subscribe", id, QueryPayload(query, variables))
  }

  function CompleteFrame(id: string): Frame {
    Frame("complete", id, Null)
  }

  const PongFrame: Frame := Bare("pong")

  const TerminateFrame: Frame := Bare("connection_terminate")

  // ---------------------------------------------------------------------
  // The invariant

  /**
    Every issued id has a channel and nothing else has one; every registered
    id is issued and its channel is still open.
  */
  ghost predicate Inv(s: Engine) {
    && s.channels.Keys == IssuedIds(s.counter)
    && (forall id :: id in s.subs ==> id in s.channels && !s.channels[id].closed)
  }

  function Initial(authHeader: string, hasAuthErrorHandler: bool): Engine {
    Engine(authHeader, hasAuthErrorHandler, false, map[], 0, [], map[], 0)
  }

  lemma InitialInv(authHeader: string, hasAuthErrorHandler: bool)
    ensures Inv(Initial(authHeader, hasAuthErrorHandler))
  {
  }

  // ---------------------------------------------------------------------
  // Id generation (generateUniqueID)

  function NextId(s: Engine): Step<string> {
    Step(s.(counter := s.counter + 1), FormatNat(s.counter + 1))
  }

  /**
    An id is the decimal rendering of the incremented counter, and it was
    never issued before: no channel, and so no registry entry, carries it.
  */
  lemma NextIdFresh(s: Engine)
    requires Inv(s)
    ensures NextId(s).next.counter == s.counter + 1
    ensures ParseNat(NextId(s).out) == s.counter + 1
    ensures NextId(s).out !in s.channels && NextId(s).out !in s.subs
    ensures IssuedIds(s.counter + 1) == s.channels.Keys + {NextId(s).out}
  {
    ParseFormatNat(s.counter + 1);
    IssuedIdsStep(s.counter);
  }

  // ---------------------------------------------------------------------
  // Opening and closing the socket

  predicate AttemptSucceeds(dial: seq<bool>, i: nat) {
    i < |dial| && dial[i]
  }

  /** One of the first MaxRetries dial attempts succeeds. */
  predicate DialSucceeds(dial: seq<bool>) {
    exists i | 0 <= i < MaxRetries :: AttemptSucceeds(dial, i)
  }

  /**
    openWebSocket: nothing to do with a socket present; otherwise dial, and
    on success record the socket and write connection_init carrying the
    authorization header. A failed init write is returned as an error but
    leaves the socket recorded.
  */
  function OpenStep(s: Engine, dial: seq<bool>, initOk: bool): Step<Outcome<Error>> {
    if s.connected then Step(s, Pass)
    else if !DialSucceeds(dial) then Step(s, Fail(DialFailed(MaxRetries)))
    else
      var s' := s.(connected := true, written := s.written + [InitFrame(s.authHeader)]);
      Step(s', if initOk then Pass else Fail(InitFailed))
  }

  /** closeWebSocket: with a socket, write connection_terminate and drop the socket. */
  function CloseStep(s: Engine): Engine {
    if s.connected then s.(connected := false, written := s.written + [TerminateFrame]) else s
  }

  /**
    Closing is idempotent and always leaves no socket; connection_terminate
    is written exactly when there was a socket, and nothing else changes.
  */
  lemma CloseIdempotent(s: Engine)
    ensures !CloseStep(s).connected
    ensures CloseStep(CloseStep(s)) == CloseStep(s)
    ensures CloseStep(s).written == s.written + (if s.connected then [TerminateFrame] else [])
    ensures CloseStep(s).(connected := s.connected, written := s.written) == s
  {
  }

  // ---------------------------------------------------------------------
  // subscribe, cleanupSubscription, unsubscribe

  /** cleanupSubscription: drop the record; with the registry empty, close the socket. */
  function CleanupStep(s: Engine, id: string): Engine {
    var s' := s.(subs := s.subs - {id});
    if s'.subs == map[] then CloseStep(s') else s'
  }

  /**
    The middle of subscribe: take a new id, register the record under it
    with a new open channel, and write its subscribe frame.
  */
  function RegisterStep(s: Engine, query: string, variables: Json, factory: Factory): Step<string> {
    var g := NextId(s);
    var id := g.out;
    Step(g.next.(
      subs := g.next.subs[id := Subscription(query, variables, factory)],
      channels := g.next.channels[id := EmptyChannel],
      written := g.next.written + [SubscribeFrame(id, query, variables)]), id)
  }

  function SubscribeStep(
    s: Engine, query: string, variables: Json, factory: Factory,
    dial: seq<bool>, initOk: bool, sendOk: bool): Step<Result<string, Error>>
  {
    var o := if s.connected then Step(s, Pass) else OpenStep(s, dial, initOk);
    if o.out.Fail? then Step(o.next, Failure(o.out.error))
    else
      var a := RegisterStep(o.next, query, variables, factory);
      if sendOk then Step(a.next, Success(a.out)) else Step(CleanupStep(a.next, a.out), Failure(SendFailed))
  }

  /** Registering keeps the invariant and uses an id that was free. */
  lemma RegisterFresh(s: Engine, query: string, variables: Json, factory: Factory)
    requires Inv(s)
    ensures var a := RegisterStep(s, query, variables, factory);
      && Inv(a.next)
      && a.out == FormatNat(s.counter + 1) && a.out !in s.channels && a.out !in s.subs
      && ParseNat(a.out) == s.counter + 1
  {
    NextIdFresh(s);
  }

  /** The frames written before the subscribe frame: the init frame, if subscribing opened the socket. */
  function OpeningFrames(s: Engine): seq<Frame> {
    if s.connected then [] else [InitFrame(s.authHeader)]
  }

  /**
    Without a socket, a failed open makes subscribe return that error with
    the registry, the counter and the channels unchanged.
  */
  lemma SubscribeOpenFails(
    s: Engine, query: string, variables: Json, factory: Factory,
    dial: seq<bool>, initOk: bool, sendOk: bool)
    requires !s.connected && OpenStep(s, dial, initOk).out.Fail?
    ensures var r := SubscribeStep(s, query, variables, factory, dial, initOk, sendOk);
      && r.out == Failure(OpenStep(s, dial, initOk).out.error)
      && r.next.subs == s.subs && r.next.counter == s.counter && r.next.channels == s.channels
  {
  }

  /**
    A subscribe whose send succeeds adds exactly one record, under an id
    never issued before, holding the given query, variables and factory,
    gives it a fresh open channel, and writes one subscribe frame carrying
    that id; no other record or channel changes.
  */
  lemma SubscribeSucceeds(
    s: Engine, query: string, variables: Json, factory: Factory,
    dial: seq<bool>, initOk: bool)
    requires Inv(s)
    requires s.connected || OpenStep(s, dial, initOk).out.Pass?
    ensures var r := SubscribeStep(s, query, variables, factory, dial, initOk, true);
      && r.out.Success?
      && var id := r.out.value;
      && id !in s.channels && id !in s.subs
      && ParseNat(id) == s.counter + 1 && r.next.counter == s.counter + 1
      && r.next.subs == s.subs[id := Subscription(query, variables, factory)]
      && r.next.channels == s.channels[id := Channel([], false)]
      && r.next.written == s.written + OpeningFrames(s) + [SubscribeFrame(id, query, variables)]
      && r.next.connected
      && r.next.authErrorHandlerCalls == s.authErrorHandlerCalls
  {
    var o := if s.connected then Step(s, Pass) else OpenStep(s, dial, initOk);
    RegisterFresh(o.next, query, variables, factory);
  }

  /** Cleaning up a just-registered id leaves the registry as it was before registering. */
  lemma CleanupUndoesRegister(t: Engine, query: string, variables: Json, factory: Factory)
    requires Inv(t)
    ensures var a := RegisterStep(t, query, variables, factory);
      var u := t.(counter := t.counter + 1, channels := a.next.channels,
                  written := t.written + [SubscribeFrame(a.out, query, variables)]);
      CleanupStep(a.next, a.out) == if t.subs == map[] then CloseStep(u) else u
  {
    RegisterFresh(t, query, variables, factory);
    var a := RegisterStep(t, query, variables, factory);
    assert a.next.subs - {a.out} == t.subs;
  }

  /**
    A subscribe whose send fails removes the new id again: the registry is
    as before, the id is used up, the socket is closed exactly when the
    registry is empty, and the frames written are the init frame if it opened
    the socket, the subscribe frame under the used-up id, and
    connection_terminate when the registry is left empty.
  */
  lemma SubscribeSendFails(
    s: Engine, query: string, variables: Json, factory: Factory,
    dial: seq<bool>, initOk: bool)
    requires Inv(s)
    requires s.connected || OpenStep(s, dial, initOk).out.Pass?
    ensures var r := SubscribeStep(s, query, variables, factory, dial, initOk, false);
      && r.out == Failure(SendFailed)
      && r.next.subs == s.subs
      && r.next.counter == s.counter + 1
      && (r.next.connected <==> s.subs != map[])
      && r.next.written ==
           s.written + OpeningFrames(s)
           + [SubscribeFrame(FormatNat(s.counter + 1), query, variables)]
           + (if s.subs == map[] then [TerminateFrame] else [])
  {
    var o := if s.connected then Step(s, Pass) else OpenStep(s, dial, initOk);
    CleanupUndoesRegister(o.next, query, variables, factory);
  }

  lemma SubscribePreservesInv(
    s: Engine, query: string, variables: Json, factory: Factory,
    dial: seq<bool>, initOk: bool, sendOk: bool)
    requires Inv(s)
    ensures Inv(SubscribeStep(s, query, variables, factory, dial, initOk, sendOk).next)
  {
    var o := if s.connected then Step(s, Pass) else OpenStep(s, dial, initOk);
    if o.out.Pass? {
      RegisterFresh(o.next, query, variables, factory);
    }
  }

  function UnsubscribeStep(s: Engine, id: string, writeOk: bool): Step<Outcome<Error>> {
    if !s.connected then Step(s, Fail(NoConnection))
    else
      var s' := s.(written := s.written + [CompleteFrame(id)]);
      if !writeOk then Step(s', Fail(SendFailed))
      else Step(s'.(subs := s'.subs - {id}), Pass)
  }

  /**
    unsubscribe: without a socket it fails and changes nothing; otherwise it
    writes one complete frame for the id; if that write fails the registry
    is left as it was, else exactly that id is removed. It closes neither the
    socket nor the subscription's channel.
  */
  lemma UnsubscribeEffect(s: Engine, id: string, writeOk: bool)
    ensures var r := UnsubscribeStep(s, id, writeOk);
      && (!s.connected ==> r == Step(s, Fail(NoConnection)))
      && (s.connected ==>
            && r.next.written == s.written + [CompleteFrame(id)]
            && r.next.connected && r.next.channels == s.channels && r.next.counter == s.counter
            && (writeOk ==> r.out == Pass && r.next.subs == s.subs - {id})
            && (!writeOk ==> r.out == Fail(SendFailed) && r.next.subs == s.subs))
  {
  }

  lemma UnsubscribePreservesInv(s: Engine, id: string, writeOk: bool)
    requires Inv(s)
    ensures Inv(UnsubscribeStep(s, id, writeOk).next)
  {
  }

  // ---------------------------------------------------------------------
  // Inbound frames (handleMessage and the handlers it calls)

  /**
    handleDataMessage, for "next" and "error": an unknown id, or a payload
    that does not decode into the factory's target, is dropped; otherwise the
    decoded value is sent on that subscription's channel.
  */
  function HandleDataStep(s: Engine, id: string, decoded: Option<Json>): Engine {
    if id !in s.subs || decoded.None? then s
    else s.(channels := Send(s.channels, id, decoded.value))
  }

  /**
    handleCompleteMessage: close and drop a registered id; whenever the
    registry is then empty, close the socket, even for an unknown id.
  */
  function HandleCompleteStep(s: Engine, id: string): Engine {
    var s' := if id in s.subs
      then s.(channels := CloseChannel(s.channels, id), subs := s.subs - {id})
      else s;
    if s'.subs == map[] then CloseStep(s') else s'
  }

  function SendPongStep(s: Engine): Engine {
    s.(written := s.written + [PongFrame])
  }

  function HandleMessageStep(s: Engine, f: Frame, decoded: Option<Json>): Engine {
    if f.kind == "next" || f.kind == "error" then HandleDataStep(s, f.id, decoded)
    else if f.kind == "complete" then HandleCompleteStep(s, f.id)
    else if f.kind == "ping" then SendPongStep(s)
    else s  // "connection_ack", "pong" and unknown types are only logged
  }

  /**
    A "next" or "error" frame is never misrouted: for a registered id whose
    payload decodes, exactly one value is appended to that id's channel and
    to no other; otherwise nothing changes at all.
  */
  lemma DataFrameRouting(s: Engine, f: Frame, decoded: Option<Json>)
    requires Inv(s)
    requires f.kind == "next" || f.kind == "error"
    ensures var r := HandleMessageStep(s, f, decoded);
      && (f.id !in s.subs || decoded.None? ==> r == s)
      && (f.id in s.subs && decoded.Some? ==>
            && r.subs == s.subs && r.connected == s.connected && r.written == s.written
            && r.counter == s.counter
            && r.channels.Keys == s.channels.Keys
            && r.channels[f.id] == Channel(s.channels[f.id].items + [decoded.value], false)
            && forall id :: id in s.channels && id != f.id ==> r.channels[id] == s.channels[id])
  {
  }

  /** Two decodable frames for one subscription reach its channel in the order they were read. */
  lemma {:induction false} DeliveryInOrder(s: Engine, id: string, v1: Json, v2: Json)
    requires Inv(s) && id in s.subs
    ensures var r := HandleMessageStep(
              HandleMessageStep(s, Frame("next", id, Null), Some(v1)),
              Frame("next", id, Null), Some(v2));
      r.channels[id].items == s.channels[id].items + [v1, v2]
  {
    var s1 := HandleMessageStep(s, Frame("next", id, Null), Some(v1));
    DataFrameRouting(s, Frame("next", id, Null), Some(v1));
    HandleMessagePreservesInv(s, Frame("next", id, Null), Some(v1));
    DataFrameRouting(s1, Frame("next", id, Null), Some(v2));
  }

  /**
    A "complete" frame closes the channel of a registered id and removes
    exactly that entry; when the registry is left empty the socket is closed,
    whether or not the id was registered; otherwise the socket stays.
  */
  lemma CompleteFrameEffect(s: Engine, id: string, payload: Json)
    requires Inv(s)
    ensures var r := HandleMessageStep(s, Frame("complete", id, payload), None);
      && r.subs == s.subs - {id}
      && r.counter == s.counter
      && r.channels.Keys == s.channels.Keys
      && (id in s.subs ==> r.channels[id] == Channel(s.channels[id].items, true))
      && (forall k :: k in s.channels && k != id ==> r.channels[k] == s.channels[k])
      && (r.subs == map[] ==> !r.connected)
      && (r.subs != map[] ==> r.connected == s.connected && r.written == s.written)
  {
    assert id !in s.subs ==> s.subs - {id} == s.subs;
  }

  /** A "ping" writes exactly one pong; nothing else changes. */
  lemma PingWritesPong(s: Engine, f: Frame, decoded: Option<Json>)
    requires f.kind == "ping"
    ensures HandleMessageStep(s, f, decoded) == s.(written := s.written + [PongFrame])
  {
  }

  /**
    handleCompleteMessage as written, run by the listen goroutine: when the
    registry is left empty it calls closeWebSocket, whose deferred wait on
    the wait group counts the listen goroutine itself, so the wait never
    returns and the loop never reads again.
  */
  function HandleCompleteAsWritten(s: Engine, id: string): Step<Pump> {
    var s' := if id in s.subs
      then s.(channels := CloseChannel(s.channels, id), subs := s.subs - {id})
      else s;
    if s'.subs == map[] then Step(CloseStep(s'), Stuck) else Step(s', Running)
  }

  /**
    The listen goroutine blocks on its own wait when a complete frame ends
    the last subscription, although it leaves the same state as the model's
    loop.
  */
  lemma CompleteSelfWait(s: Engine, id: string)
    requires s.connected && s.subs.Keys <= {id}
    ensures HandleCompleteAsWritten(s, id).out == Stuck
    ensures HandleCompleteAsWritten(s, id).next == HandleCompleteStep(s, id)
  {
    assert (s.subs - {id}) == map[];
  }

  /**
    In the model's loop, a complete frame that ends the last subscription
    closes the socket and the iteration returns; the next iteration finds no
    socket and ends the loop.
  */
  lemma CompleteThenListenEnds(s: Engine, id: string, r: Read, decoded: Option<Json>)
    requires s.connected && s.subs.Keys <= {id}
    ensures var l := ListenStep(s, Received(Frame("complete", id, Null)), None);
      && l.out == Running && !l.next.connected && l.next.subs == map[]
      && ListenStep(l.next, r, decoded) == Step(l.next, Exited(Stop))
  {
    assert (s.subs - {id}) == map[];
  }

  /** "pong", "connection_ack" and any type the switch does not list change nothing. */
  lemma IgnoredFramesChangeNothing(s: Engine, f: Frame, decoded: Option<Json>)
    requires f.kind !in {"next", "error", "complete", "ping"}
    ensures HandleMessageStep(s, f, decoded) == s
  {
  }

  lemma HandleMessagePreservesInv(s: Engine, f: Frame, decoded: Option<Json>)
    requires Inv(s)
    ensures Inv(HandleMessageStep(s, f, decoded))
    ensures HandleMessageStep(s, f, decoded).subs.Keys <= s.subs.Keys
  {
    if f.kind == "next" || f.kind == "error" {
      var r := HandleDataStep(s, f.id, decoded);
      assert r.channels.Keys == s.channels.Keys;
    } else if f.kind == "complete" {
      var s' := if f.id in s.subs
        then s.(channels := CloseChannel(s.channels, f.id), subs := s.subs - {f.id})
        else s;
      assert Inv(s');
    }
  }

  // ---------------------------------------------------------------------
  // Read failures, reconnection and resubscription

  /**
    handleReadError: the socket is dropped first; a normal or going-away
    close ends with no recovery; an authorization close runs the hook (when
    one is set) and then reconnects; any other error reconnects directly.
  */
  function HandleReadErrorStep(s: Engine, e: ReadError): Step<Recovery> {
    var s' := s.(connected := false);
    if IsCloseError(e, {CloseNormalClosure, CloseGoingAway}) then Step(s', Stop)
    else if IsCloseError(e, AuthFailureCodes) then
      Step(s'.(authErrorHandlerCalls := s'.authErrorHandlerCalls + if s.hasAuthErrorHandler then 1 else 0), Reconnect)
    else Step(s', Reconnect)
  }

  lemma ReadErrorClassification(s: Engine, e: ReadError)
    ensures var r := HandleReadErrorStep(s, e);
      && !r.next.connected
      && r.next.subs == s.subs && r.next.channels == s.channels && r.next.written == s.written
      && (r.out == Stop <==> e.CloseError? && e.code in {1000, 1001})
      && r.next.authErrorHandlerCalls ==
           s.authErrorHandlerCalls
           + (if e.CloseError? && e.code in {4401, 4403} && s.hasAuthErrorHandler then 1 else 0)
  {
  }

  /**
    Whether `ReadJSON` can fill a `WebSocketMessage` from the frame. The
    message's payload field is a JSON object, so a payload that is neither
    an object nor null (nor omitted) makes the read itself fail.
  */
  predicate Readable(f: Frame) {
    f.payload.Object? || f.payload.Null?
  }

  /**
    A failed read, told apart from the failure this client causes by closing
    its own socket under a blocked read: when the socket is already gone the
    loop stops; otherwise the error goes to handleReadError.
  */
  function ReadFailureStep(s: Engine, e: ReadError): Step<Recovery> {
    if !s.connected then Step(s, Stop) else HandleReadErrorStep(s, e)
  }

  /**
    One iteration of the listen loop: stop without a socket, else read; a
    failed read, or a frame that cannot be read into a message, goes to the
    read-error path, and any other frame is dispatched.
  */
  function ListenStep(s: Engine, r: Read, decoded: Option<Json>): Step<Pump> {
    if !s.connected then Step(s, Exited(Stop))
    else match r
      case ReadFailed(e) =>
        var h := ReadFailureStep(s, e);
        Step(h.next, Exited(h.out))
      case Received(f) =>
        if !Readable(f) then
          var h := ReadFailureStep(s, OtherError);
          Step(h.next, Exited(h.out))
        else Step(HandleMessageStep(s, f, decoded), Running)
  }

  /**
    A frame whose payload is neither an object nor null is not delivered:
    the read fails, the socket is dropped and the loop asks for a reconnect.
  */
  lemma UnreadableFrameReconnects(s: Engine, f: Frame, decoded: Option<Json>)
    requires s.connected && !Readable(f)
    ensures ListenStep(s, Received(f), decoded) == Step(s.(connected := false), Exited(Reconnect))
  {
  }

  /**
    A graphql-transport-ws error frame carries an array of errors, so it
    never reaches the subscriber: no channel changes, the registry stays,
    and the loop leaves the socket dropped and asks for a reconnect, which
    replays the subscription that failed.
  */
  lemma ProtocolErrorFrameReconnects(s: Engine, id: string, errors: seq<Json>, decoded: Option<Json>)
    requires s.connected
    ensures var r := ListenStep(s, Received(Frame("error", id, Array(errors))), decoded);
      && r.next.channels == s.channels && r.next.subs == s.subs && r.next.written == s.written
      && !r.next.connected && r.out == Exited(Reconnect)
  {
    UnreadableFrameReconnects(s, Frame("error", id, Array(errors)), decoded);
  }

  /**
    A read that fails after this client dropped its socket ends the loop
    with no recovery; while the socket is present, a failed read is handled
    as handleReadError does.
  */
  lemma ClosedSocketReadStops(s: Engine, e: ReadError)
    ensures ReadFailureStep(CloseStep(s), e) == Step(CloseStep(s), Stop)
    ensures s.connected ==> ReadFailureStep(s, e) == HandleReadErrorStep(s, e)
  {
  }

  /**
    handleReadError as written, reached by a read that was blocked when this
    client closed its own socket (Close, or cleanupSubscription emptying the
    registry): the failure is not a close frame from the peer, so the
    recovery asked for is a reconnect, and one successful open puts a socket
    back and replays the registry on it.
  */
  lemma CloseDuringReadReconnects(
    s: Engine, e: ReadError, attempt: OpenAttempt, order: seq<string>, failures: set<string>)
    requires s.connected && !IsCloseError(e, {CloseNormalClosure, CloseGoingAway})
    requires Enumerates(order, s.subs.Keys)
    requires DialSucceeds(attempt.dial) && attempt.initOk
    ensures var h := HandleReadErrorStep(CloseStep(s), e);
      && h.out == Reconnect
      && h.next.subs == s.subs
      && ReconnectStep(h.next, [attempt], order, failures).out
      && ReconnectStep(h.next, [attempt], order, failures).next.connected
  {
    var h := HandleReadErrorStep(CloseStep(s), e);
    ReconnectReplays(h.next, [attempt], order, failures);
  }

  lemma ListenPreservesInv(s: Engine, r: Read, decoded: Option<Json>)
    requires Inv(s)
    ensures Inv(ListenStep(s, r, decoded).next)
  {
    if s.connected && r.Received? {
      HandleMessagePreservesInv(s, r.frame, decoded);
    }
  }

  predicate Distinct(order: seq<string>) {
    forall i, j :: 0 <= i < j < |order| ==> order[i] != order[j]
  }

  /** `order` lists every key of `keys` exactly once: one possible map iteration order. */
  predicate Enumerates(order: seq<string>, keys: set<string>) {
    && Distinct(order)
    && (forall i :: 0 <= i < |order| ==> order[i] in keys)
    && (forall k :: k in keys ==> k in order)
  }

  /**
    resubscribeAll, visiting the registry in `order`: write a subscribe frame
    built from each record's stored query and variables; a record whose
    write fails (its id is in `failures`) has its channel closed and is
    removed.
  */
  function ResubscribeStep(s: Engine, order: seq<string>, failures: set<string>): Engine
    requires Distinct(order) && forall i :: 0 <= i < |order| ==> order[i] in s.subs
    decreases |order|
  {
    if order == [] then s
    else
      assert forall i :: 0 <= i < |order[1..]| ==> order[1..][i] == order[i + 1] != order[0];
      ResubscribeStep(ReplayOne(s, order[0], failures), order[1..], failures)
  }

  /** One iteration of resubscribeAll's loop, for the record under `id`. */
  function ReplayOne(s: Engine, id: string, failures: set<string>): (r: Engine)
    requires id in s.subs
    ensures r.subs == if id in failures then s.subs - {id} else s.subs
  {
    var s1 := s.(written := s.written + [SubscribeFrame(id, s.subs[id].query, s.subs[id].variables)]);
    if id in failures
    then s1.(channels := CloseChannel(s1.channels, id), subs := s1.subs - {id})
    else s1
  }

  /** The frames resubscribeAll writes, one per visited id. */
  function ReplayFrames(order: seq<string>, subs: map<string, Subscription>): (fs: seq<Frame>)
    requires forall i :: 0 <= i < |order| ==> order[i] in subs
    ensures |fs| == |order|
  {
    seq(|order|, i requires 0 <= i < |order| =>
      SubscribeFrame(order[i], subs[order[i]].query, subs[order[i]].variables))
  }

  /** resubscribeAll writes one frame per visited id and touches neither the socket nor the counter. */
  lemma {:induction false} ResubscribeWrites(s: Engine, order: seq<string>, failures: set<string>)
    requires Distinct(order) && forall i :: 0 <= i < |order| ==> order[i] in s.subs
    ensures var r := ResubscribeStep(s, order, failures);
      && r.written == s.written + ReplayFrames(order, s.subs)
      && r.connected == s.connected && r.counter == s.counter
      && r.authErrorHandlerCalls == s.authErrorHandlerCalls
    decreases |order|
  {
    if order != [] {
      var s2 := ReplayOne(s, order[0], failures);
      var rest := order[1..];
      assert forall i :: 0 <= i < |rest| ==> rest[i] == order[i + 1] != order[0];
      ResubscribeWrites(s2, rest, failures);
      assert ReplayFrames(order, s.subs) == [s2.written[|s.written|]] + ReplayFrames(rest, s2.subs);
    }
  }

  /** Only records whose resend failed are removed; the rest keep their contents. */
  lemma {:induction false} ResubscribeSurvivors(s: Engine, order: seq<string>, failures: set<string>)
    requires Distinct(order) && forall i :: 0 <= i < |order| ==> order[i] in s.subs
    ensures var r := ResubscribeStep(s, order, failures);
      && (forall id :: id in r.subs <==> id in s.subs && !(id in order && id in failures))
      && (forall id :: id in r.subs ==> r.subs[id] == s.subs[id])
    decreases |order|
  {
    if order != [] {
      var s2 := ReplayOne(s, order[0], failures);
      var rest := order[1..];
      assert forall i :: 0 <= i < |rest| ==> rest[i] == order[i + 1] != order[0];
      ResubscribeSurvivors(s2, rest, failures);
      SeqMembership(order);
    }
  }

  /** The channel of every removed record is closed; no other channel changes. */
  lemma {:induction false} ResubscribeChannels(s: Engine, order: seq<string>, failures: set<string>)
    requires Distinct(order) && forall i :: 0 <= i < |order| ==> order[i] in s.subs
    ensures var r := ResubscribeStep(s, order, failures);
      && r.channels.Keys == s.channels.Keys
      && (forall id :: id in s.channels ==>
            r.channels[id] ==
              if id in order && id in failures then Channel(s.channels[id].items, true)
              else s.channels[id])
    decreases |order|
  {
    if order != [] {
      var s2 := ReplayOne(s, order[0], failures);
      var rest := order[1..];
      assert forall i :: 0 <= i < |rest| ==> rest[i] == order[i + 1] != order[0];
      ResubscribeChannels(s2, rest, failures);
      SeqMembership(order);
    }
  }

  lemma SeqMembership(order: seq<string>)
    requires Distinct(order) && order != []
    ensures forall k :: k in order <==> k == order[0] || k in order[1..]
    ensures order[0] !in order[1..]
  {
    forall k | k in order
      ensures k == order[0] || k in order[1..]
    {
      var i :| 0 <= i < |order| && order[i] == k;
      if i > 0 { assert order[1..][i - 1] == k; }
    }
  }

  /**
    After a reconnect, every record still registered receives exactly one
    replayed subscribe frame with its stored query and variables, and the
    records that survive are a subset of those before: none is dropped
    except the ones whose resend failed.
  */
  lemma ResubscribeReplaysEveryRecord(s: Engine, order: seq<string>, failures: set<string>)
    requires Enumerates(order, s.subs.Keys)
    ensures var r := ResubscribeStep(s, order, failures);
      && |r.written| == |s.written| + |s.subs|
      && var replay := r.written[|s.written|..];
      && (forall id :: id in s.subs ==>
            exists i :: 0 <= i < |replay| &&
              replay[i] == SubscribeFrame(id, s.subs[id].query, s.subs[id].variables))
      && (forall i, j :: 0 <= i < j < |replay| ==> replay[i].id != replay[j].id)
      && r.subs.Keys <= s.subs.Keys
      && (forall id :: id in s.subs && id !in failures ==> id in r.subs)
  {
    ResubscribeWrites(s, order, failures);
    ResubscribeSurvivors(s, order, failures);
    var r := ResubscribeStep(s, order, failures);
    var replay := r.written[|s.written|..];
    assert replay == ReplayFrames(order, s.subs);
    forall id | id in s.subs
      ensures exists i :: 0 <= i < |replay| &&
                replay[i] == SubscribeFrame(id, s.subs[id].query, s.subs[id].variables)
    {
      var i :| 0 <= i < |order| && order[i] == id;
      assert replay[i] == SubscribeFrame(id, s.subs[id].query, s.subs[id].variables);
    }
    DistinctLength(order, s.subs.Keys);
  }

  lemma DistinctLength(order: seq<string>, keys: set<string>)
    requires Enumerates(order, keys)
    ensures |order| == |keys|
  {
    var o := set i | 0 <= i < |order| :: order[i];
    assert o == keys;
    DistinctCard(order);
  }

  lemma {:induction false} DistinctCard(order: seq<string>)
    requires Distinct(order)
    ensures |set i | 0 <= i < |order| :: order[i]| == |order|
  {
    if order != [] {
      var rest := order[1..];
      DistinctCard(rest);
      var o := set i | 0 <= i < |order| :: order[i];
      var r := set i | 0 <= i < |rest| :: rest[i];
      assert o == r + {order[0]} by {
        forall k | k in o ensures k in r + {order[0]} {
          var i :| 0 <= i < |order| && order[i] == k;
          if i > 0 { assert rest[i - 1] == k; }
        }
      }
      assert order[0] !in r;
    }
  }

  lemma {:induction false} ResubscribePreservesInv(s: Engine, order: seq<string>, failures: set<string>)
    requires Inv(s)
    requires Distinct(order) && forall i :: 0 <= i < |order| ==> order[i] in s.subs
    ensures Inv(ResubscribeStep(s, order, failures))
  {
    ResubscribeWrites(s, order, failures);
    ResubscribeSurvivors(s, order, failures);
    ResubscribeChannels(s, order, failures);
  }

  /**
    The body of reconnect's loop over the environment's answers: open, and
    on success resubscribe everything and stop; on failure try the next
    answer. `false` means the answers ran out while the source would still
    be retrying.
  */
  function RetryOpenStep(s: Engine, tries: seq<OpenAttempt>, order: seq<string>, failures: set<string>): Step<bool>
    requires Enumerates(order, s.subs.Keys)
    decreases |tries|
  {
    if tries == [] then Step(s, false)
    else
      var o := OpenStep(s, tries[0].dial, tries[0].initOk);
      if o.out.Pass? then Step(ResubscribeStep(o.next, order, failures), true)
      else RetryOpenStep(o.next, tries[1..], order, failures)
  }

  /** reconnect: nothing to do when a socket is already present. */
  function ReconnectStep(s: Engine, tries: seq<OpenAttempt>, order: seq<string>, failures: set<string>): Step<bool>
    requires Enumerates(order, s.subs.Keys)
  {
    if s.connected then Step(s, true) else RetryOpenStep(s, tries, order, failures)
  }

  /**
    A reconnect that succeeds leaves a socket and replays every record: the
    written frames end with one subscribe frame per registered id, built
    from the stored query and variables.
  */
  lemma {:induction false} ReconnectReplays(s: Engine, tries: seq<OpenAttempt>, order: seq<string>, failures: set<string>)
    requires Enumerates(order, s.subs.Keys) && !s.connected
    ensures var r := RetryOpenStep(s, tries, order, failures);
      && (r.out ==> r.next.connected && |r.next.written| >= |order| && r.next.written[|r.next.written| - |order|..] == ReplayFrames(order, s.subs))
      && (!r.out ==> r.next.subs == s.subs && r.next.channels == s.channels)
    decreases |tries|
  {
    if tries != [] {
      var o := OpenStep(s, tries[0].dial, tries[0].initOk);
      if o.out.Pass? {
        ResubscribeWrites(o.next, order, failures);
        var r := ResubscribeStep(o.next, order, failures);
        assert r.written[|r.written| - |order|..] == ReplayFrames(order, o.next.subs);
      } else if o.next.connected {
        var tail := tries[1..];
        if tail != [] {
          var o2 := OpenStep(o.next, tail[0].dial, tail[0].initOk);
          assert o2.out.Pass? && o2.next == o.next;
          ResubscribeWrites(o.next, order, failures);
          var r := ResubscribeStep(o.next, order, failures);
          assert r.written[|r.written| - |order|..] == ReplayFrames(order, o.next.subs);
        }
      } else {
        ReconnectReplays(o.next, tries[1..], order, failures);
      }
    }
  }

  lemma {:induction false} RetryOpenPreservesInv(s: Engine, tries: seq<OpenAttempt>, order: seq<string>, failures: set<string>)
    requires Inv(s) && Enumerates(order, s.subs.Keys)
    ensures Inv(RetryOpenStep(s, tries, order, failures).next)
    decreases |tries|
  {
    if tries != [] {
      var o := OpenStep(s, tries[0].dial, tries[0].initOk);
      if o.out.Pass? {
        ResubscribePreservesInv(o.next, order, failures);
      } else {
        RetryOpenPreservesInv(o.next, tries[1..], order, failures);
      }
    }
  }

  // ---------------------------------------------------------------------
  // The client object

  class GraphQLClient {
    const wsEndpoint: string
    const authHeader: string
    const hasAuthErrorHandler: bool
    var connected: bool
    var subs: map<string, Subscription>
    var counter: nat
    var written: seq<Frame>
    var channels: map<string, Channel<Json>>
    var authErrorHandlerCalls: nat

    function State(): Engine
      reads this
    {
      Engine(authHeader, hasAuthErrorHandler, connected, subs, counter, written, channels, authErrorHandlerCalls)
    }

    ghost predicate Valid()
      reads this
    {
      Inv(State())
    }

    /** A client with no socket and an empty registry. */
    constructor (wsEndpoint: string, authHeader: string, hasAuthErrorHandler: bool)
      ensures Valid()
      ensures this.wsEndpoint == wsEndpoint
      ensures State() == Initial(authHeader, hasAuthErrorHandler)
    {
      this.wsEndpoint := wsEndpoint;
      this.authHeader := authHeader;
      this.hasAuthErrorHandler := hasAuthErrorHandler;
      connected := false;
      subs := map[];
      counter := 0;
      written := [];
      channels := map[];
      authErrorHandlerCalls := 0;
    }

    /**
      The dial loop: attempt i succeeds when `dial[i]` is true; at most
      MaxRetries attempts, stopping at the first success.
    */
    method DialWebSocket(dial: seq<bool>) returns (ok: bool, attempts: nat)
      ensures ok == DialSucceeds(dial)
      ensures 1 <= attempts <= MaxRetries
      ensures forall i :: 0 <= i < attempts - 1 ==> !AttemptSucceeds(dial, i)
      ensures ok ==> AttemptSucceeds(dial, attempts - 1)
      ensures !ok ==> attempts == MaxRetries
    {
      ok, attempts := false, 0;
      var i := 0;
      while i < MaxRetries
        invariant 0 <= i <= MaxRetries
        invariant attempts == i
        invariant forall j :: 0 <= j < i ==> !AttemptSucceeds(dial, j)
      {
        attempts := attempts + 1;
        if AttemptSucceeds(dial, i) {
          ok := true;
          return;
        }
        i := i + 1;
      }
    }

    method OpenWebSocket(dial: seq<bool>, initOk: bool) returns (r: Outcome<Error>)
      modifies this
      ensures State() == OpenStep(old(State()), dial, initOk).next
      ensures r == OpenStep(old(State()), dial, initOk).out
    {
      if connected {
        return Pass;
      }
      var ok, attempts := DialWebSocket(dial);
      if !ok {
        return Fail(DialFailed(MaxRetries));
      }
      connected := true;
      written := written + [InitFrame(authHeader)];
      if !initOk {
        return Fail(InitFailed);
      }
      return Pass;
    }

    method CloseWebSocket()
      modifies this
      ensures State() == CloseStep(old(State()))
    {
      if connected {
        written := written + [TerminateFrame];
        connected := false;
      }
    }

    /** The public Close: delegates to CloseWebSocket when a socket is present. */
    method Close()
      requires Valid()
      modifies this
      ensures Valid()
      ensures State() == CloseStep(old(State()))
    {
      if connected {
        CloseWebSocket();
      }
    }

    method GenerateUniqueId() returns (id: string)
      modifies this
      ensures State() == NextId(old(State())).next
      ensures id == NextId(old(State())).out
    {
      counter := counter + 1;
      id := FormatNat(counter);
    }

    method SendSubscribeMessage(id: string, query: string, variables: Json, sendOk: bool) returns (r: Outcome<Error>)
      modifies this
      ensures State() == old(State()).(written := old(written) + [SubscribeFrame(id, query, variables)])
      ensures r == if sendOk then Pass else Fail(SendFailed)
    {
      written := written + [SubscribeFrame(id, query, variables)];
      r := if sendOk then Pass else Fail(SendFailed);
    }

    method CleanupSubscription(id: string)
      modifies this
      ensures State() == CleanupStep(old(State()), id)
    {
      subs := subs - {id};
      if |subs| == 0 {
        CloseWebSocket();
      }
    }

    /** Returns the new subscription's id, which names its channel and its unsubscribe handle. */
    method Subscribe(
      query: string, variables: Json, factory: Factory,
      dial: seq<bool>, initOk: bool, sendOk: bool) returns (r: Result<string, Error>)
      requires Valid()
      modifies this
      ensures Valid()
      ensures State() == SubscribeStep(old(State()), query, variables, factory, dial, initOk, sendOk).next
      ensures r == SubscribeStep(old(State()), query, variables, factory, dial, initOk, sendOk).out
    {
      SubscribePreservesInv(State(), query, variables, factory, dial, initOk, sendOk);
      if !connected {
        var o := OpenWebSocket(dial, initOk);
        if o.Fail? {
          return Failure(o.error);
        }
      }
      var id := GenerateUniqueId();
      subs := subs[id := Subscription(query, variables, factory)];
      channels := channels[id := EmptyChannel];
      var sent := SendSubscribeMessage(id, query, variables, sendOk);
      if sent.Fail? {
        CleanupSubscription(id);
        return Failure(sent.error);
      }
      return Success(id);
    }

    method Unsubscribe(id: string, writeOk: bool) returns (r: Outcome<Error>)
      requires Valid()
      modifies this
      ensures Valid()
      ensures State() == UnsubscribeStep(old(State()), id, writeOk).next
      ensures r == UnsubscribeStep(old(State()), id, writeOk).out
    {
      if !connected {
        return Fail(NoConnection);
      }
      written := written + [CompleteFrame(id)];
      if !writeOk {
        return Fail(SendFailed);
      }
      subs := subs - {id};
      return Pass;
    }

    method HandleDataMessage(f: Frame, decoded: Option<Json>)
      modifies this
      ensures State() == HandleDataStep(old(State()), f.id, decoded)
    {
      if f.id !in subs {
        return;
      }
      if decoded.None? {
        return;
      }
      channels := Send(channels, f.id, decoded.value);
    }

    method HandleCompleteMessage(id: string)
      modifies this
      ensures State() == HandleCompleteStep(old(State()), id)
    {
      if id in subs {
        channels := CloseChannel(channels, id);
        subs := subs - {id};
      }
      if |subs| == 0 {
        CloseWebSocket();
      }
    }

    method SendPong()
      modifies this
      ensures State() == SendPongStep(old(State()))
    {
      written := written + [PongFrame];
    }

    method HandleMessage(f: Frame, decoded: Option<Json>)
      requires Valid()
      modifies this
      ensures Valid()
      ensures State() == HandleMessageStep(old(State()), f, decoded)
    {
      HandleMessagePreservesInv(State(), f, decoded);
      if f.kind == "next" || f.kind == "error" {
        HandleDataMessage(f, decoded);
      } else if f.kind == "complete" {
        HandleCompleteMessage(f.id);
      } else if f.kind == "ping" {
        SendPong();
      }
    }

    method HandleReadError(e: ReadError) returns (recovery: Recovery)
      requires Valid()
      modifies this
      ensures Valid()
      ensures State() == HandleReadErrorStep(old(State()), e).next
      ensures recovery == HandleReadErrorStep(old(State()), e).out
    {
      connected := false;
      if IsCloseError(e, {CloseNormalClosure, CloseGoingAway}) {
        return Stop;
      }
      if IsCloseError(e, AuthFailureCodes) {
        if hasAuthErrorHandler {
          authErrorHandlerCalls := authErrorHandlerCalls + 1;
        }
      }
      return Recovery.Reconnect;
    }

    /** One iteration of the listen loop. */
    method ListenOnce(read: Read, decoded: Option<Json>) returns (p: Pump)
      requires Valid()
      modifies this
      ensures Valid()
      ensures State() == ListenStep(old(State()), read, decoded).next
      ensures p == ListenStep(old(State()), read, decoded).out
    {
      if !connected {
        return Exited(Stop);
      }
      match read
      case ReadFailed(e) =>
        var recovery := HandleReadError(e);
        return Exited(recovery);
      case Received(f) =>
        if !Readable(f) {
          var recovery := HandleReadError(OtherError);
          return Exited(recovery);
        }
        HandleMessage(f, decoded);
        return Running;
    }

    method ResubscribeAll(order: seq<string>, failures: set<string>)
      requires Distinct(order) && forall i :: 0 <= i < |order| ==> order[i] in subs
      modifies this
      ensures State() == ResubscribeStep(old(State()), order, failures)
    {
      var i := 0;
      while i < |order|
        invariant 0 <= i <= |order|
        invariant forall j :: i <= j < |order| ==> order[j] in subs
        invariant ResubscribeStep(State(), order[i..], failures) == ResubscribeStep(old(State()), order, failures)
      {
        var id := order[i];
        assert order[i..][0] == id && order[i..][1..] == order[i + 1..];
        written := written + [SubscribeFrame(id, subs[id].query, subs[id].variables)];
        if id in failures {
          channels := CloseChannel(channels, id);
          subs := subs - {id};
        }
        i := i + 1;
      }
    }

    /**
      Reconnect, trying the environment's answers in turn; returns whether
      a socket was recovered (with the registry replayed on it).
    */
    method Reconnect(tries: seq<OpenAttempt>, order: seq<string>, failures: set<string>) returns (done: bool)
      requires Valid() && Enumerates(order, subs.Keys)
      modifies this
      ensures Valid()
      ensures State() == ReconnectStep(old(State()), tries, order, failures).next
      ensures done == ReconnectStep(old(State()), tries, order, failures).out
    {
      if connected {
        return true;
      }
      RetryOpenPreservesInv(State(), tries, order, failures);
      var i := 0;
      while i < |tries|
        invariant 0 <= i <= |tries|
        invariant subs == old(subs)
        invariant RetryOpenStep(State(), tries[i..], order, failures) == RetryOpenStep(old(State()), tries, order, failures)
      {
        assert tries[i..][0] == tries[i] && tries[i..][1..] == tries[i + 1..];
        var o := OpenWebSocket(tries[i].dial, tries[i].initOk);
        if o.Pass? {
          ResubscribeAll(order, failures);
          return true;
        }
        i := i + 1;
      }
      return false;
    }
  }
}
