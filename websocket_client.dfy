/**
  The legacy engine of websocket_client.go: the "graphql-ws" subprotocol of
  Apollo's subscriptions-transport-ws, with frames start, stop, data,
  error, complete and connection_keep_alive.

  As for the current engine, the state is a value (`Engine`), each source
  operation is a step function on it, lemmas state what the steps promise,
  and the class `GraphQLWebSocketClient` performs the same steps on its
  fields. The registry maps an id to nothing but its channel, so it is the
  set of registered ids; the channels themselves are kept in `channels`
  for as long as a consumer may hold them.
*/
module WebSocketClient {
  import opened Wrappers
  import opened Wire
  import opened Decimal

  /** The subprotocol requested in the handshake. */
  const Subprotocol: string := "graphql-ws"

  /** What a subscriber's channel receives: a data payload, or the error built from an error frame. */
  datatype Delivery = Payload(value: Json) | SubscriptionError(payload: Json)

  datatype Engine = Engine(
    connected: bool,
    closing: bool,
    subs: set<string>,
    counter: nat,
    written: seq<Frame>,
    channels: map<string, Channel<Delivery>>)

  datatype Step<R> = Step(next: Engine, out: R)

  /** Whether the listen loop goes on after one iteration, has returned, or is blocked for good. */
  datatype Pump = Running | Exited | Stuck

  function StartFrame(id: string, query: string, variables: Json): Frame {
    Frame("start", id, QueryPayload(query, variables))
  }

  function StopFrame(id: string): Frame {
    Frame("stop", id, Null)
  }

  const InitFrame: Frame := Bare("connection_init")

  const AckFrame: Frame := Bare("connection_ack")

  const TerminateFrame: Frame := Bare("connection_terminate")

  /**
    Every issued id has a channel and nothing else has one; registered ids
    have open channels; between operations no close is in progress.
  */
  ghost predicate Inv(s: Engine) {
    && s.channels.Keys == IssuedIds(s.counter)
    && (forall id :: id in s.subs ==> id in s.channels && !s.channels[id].closed)
    && !s.closing
  }

  /** NewWebSocketClient: no socket, not closing, empty registry, counter 0. */
  const Initial: Engine := Engine(false, false, {}, 0, [], map[])

  lemma InitialInv()
    ensures Inv(Initial)
  {
  }

  // ---------------------------------------------------------------------
  // Ids, opening and closing

  function NextId(s: Engine): Step<string> {
    Step(s.(counter := s.counter + 1), FormatNat(s.counter + 1))
  }

  /** openWebSocket: one dial attempt, then connection_init; a failed init write leaves the socket recorded. */
  function OpenStep(s: Engine, dialOk: bool, initOk: bool): Step<Outcome<Error>> {
    if s.connected then Step(s, Pass)
    else if !dialOk then Step(s, Fail(DialFailed(1)))
    else
      var s' := s.(connected := true, written := s.written + [InitFrame]);
      Step(s', if initOk then Pass else Fail(InitFailed))
  }

  /**
    closeWebSocket: with a socket, mark the close in progress, write
    connection_terminate, drop the socket, wait for the reader, and clear
    the mark again.
  */
  function CloseStep(s: Engine): Engine {
    if s.connected
    then s.(closing := false, connected := false, written := s.written + [TerminateFrame])
    else s
  }

  /**
    After closing there is no socket and no close in progress; without a
    socket closing is a no-op; otherwise exactly one connection_terminate
    is written. Closing twice is closing once.
  */
  lemma CloseEffect(s: Engine)
    ensures !CloseStep(s).connected
    ensures s.connected ==> !CloseStep(s).closing && CloseStep(s).written == s.written + [TerminateFrame]
    ensures !s.connected ==> CloseStep(s) == s
    ensures CloseStep(CloseStep(s)) == CloseStep(s)
    ensures CloseStep(s).subs == s.subs && CloseStep(s).channels == s.channels
  {
  }

  // ---------------------------------------------------------------------
  // Subscribe and Unsubscribe

  /** Take a new id, register it with a new open channel, and write its start frame. */
  function RegisterStep(s: Engine, query: string, variables: Json): Step<string> {
    var g := NextId(s);
    var id := g.out;
    Step(g.next.(
      subs := g.next.subs + {id},
      channels := g.next.channels[id := Channel([], false)],
      written := g.next.written + [StartFrame(id, query, variables)]), id)
  }

  /** Subscribe reopens when there is no socket or a close is in progress. */
  function SubscribeStep(
    s: Engine, query: string, variables: Json,
    dialOk: bool, initOk: bool, startOk: bool): Step<Result<string, Error>>
  {
    var o := if !s.connected || s.closing then OpenStep(s, dialOk, initOk) else Step(s, Pass);
    if o.out.Fail? then Step(o.next, Failure(o.out.error))
    else
      var a := RegisterStep(o.next, query, variables);
      if startOk then Step(a.next, Success(a.out))
      else
        var s' := a.next.(subs := a.next.subs - {a.out});
        Step(if s'.subs == {} then CloseStep(s') else s', Failure(SendFailed))
  }

  lemma RegisterFresh(s: Engine, query: string, variables: Json)
    requires Inv(s)
    ensures var a := RegisterStep(s, query, variables);
      && Inv(a.next)
      && a.out == FormatNat(s.counter + 1) && a.out !in s.channels && a.out !in s.subs
      && ParseNat(a.out) == s.counter + 1
  {
    ParseFormatNat(s.counter + 1);
    IssuedIdsStep(s.counter);
  }

  /** The frames written before the start frame: connection_init, if Subscribe opened the socket. */
  function OpeningFrames(s: Engine): seq<Frame> {
    if s.connected then [] else [InitFrame]
  }

  /** A failed open makes Subscribe return that error and leaves registry, counter and channels alone. */
  lemma SubscribeOpenFails(s: Engine, query: string, variables: Json, dialOk: bool, initOk: bool, startOk: bool)
    requires !s.connected && OpenStep(s, dialOk, initOk).out.Fail?
    ensures var r := SubscribeStep(s, query, variables, dialOk, initOk, startOk);
      && r.out == Failure(OpenStep(s, dialOk, initOk).out.error)
      && r.next.subs == s.subs && r.next.counter == s.counter && r.next.channels == s.channels
  {
  }

  /**
    A Subscribe whose start write succeeds adds exactly one id, never issued
    before, with a new open channel, and writes one start frame carrying
    that id, the query and the variables.
  */
  lemma SubscribeSucceeds(s: Engine, query: string, variables: Json, dialOk: bool, initOk: bool)
    requires Inv(s)
    requires s.connected || OpenStep(s, dialOk, initOk).out.Pass?
    ensures var r := SubscribeStep(s, query, variables, dialOk, initOk, true);
      && r.out.Success?
      && var id := r.out.value;
      && id !in s.channels && id !in s.subs
      && ParseNat(id) == s.counter + 1 && r.next.counter == s.counter + 1
      && r.next.subs == s.subs + {id}
      && r.next.channels == s.channels[id := Channel([], false)]
      && r.next.written == s.written + OpeningFrames(s) + [StartFrame(id, query, variables)]
  {
    var o := if !s.connected || s.closing then OpenStep(s, dialOk, initOk) else Step(s, Pass);
    RegisterFresh(o.next, query, variables);
  }

  /**
    A failed start write removes the new id again, and the socket is closed
    exactly when the registry is then empty.
  */
  lemma SubscribeStartFails(s: Engine, query: string, variables: Json, dialOk: bool, initOk: bool)
    requires Inv(s)
    requires s.connected || OpenStep(s, dialOk, initOk).out.Pass?
    ensures var r := SubscribeStep(s, query, variables, dialOk, initOk, false);
      && r.out == Failure(SendFailed)
      && r.next.subs == s.subs
      && r.next.counter == s.counter + 1
      && (r.next.connected <==> s.subs != {})
  {
    var o := if !s.connected || s.closing then OpenStep(s, dialOk, initOk) else Step(s, Pass);
    RegisterFresh(o.next, query, variables);
    var a := RegisterStep(o.next, query, variables);
    assert a.next.subs - {a.out} == s.subs;
  }

  lemma SubscribePreservesInv(s: Engine, query: string, variables: Json, dialOk: bool, initOk: bool, startOk: bool)
    requires Inv(s)
    ensures Inv(SubscribeStep(s, query, variables, dialOk, initOk, startOk).next)
  {
    var o := if !s.connected || s.closing then OpenStep(s, dialOk, initOk) else Step(s, Pass);
    if o.out.Pass? {
      RegisterFresh(o.next, query, variables);
    }
  }

  function UnsubscribeStep(s: Engine, id: string, writeOk: bool): Step<Outcome<Error>> {
    if !s.connected then Step(s, Fail(NoConnection))
    else Step(s.(written := s.written + [StopFrame(id)]), if writeOk then Pass else Fail(SendFailed))
  }

  /**
    Unsubscribe fails without a socket; otherwise it writes one stop frame
    for the id. It never changes the registry or any channel.
  */
  lemma UnsubscribeEffect(s: Engine, id: string, writeOk: bool)
    ensures var r := UnsubscribeStep(s, id, writeOk);
      && r.next.subs == s.subs && r.next.channels == s.channels && r.next.connected == s.connected
      && (!s.connected ==> r.out == Fail(NoConnection) && r.next.written == s.written)
      && (s.connected ==> r.next.written == s.written + [StopFrame(id)] && (r.out == Pass <==> writeOk))
  {
  }

  // ---------------------------------------------------------------------
  // The listen loop

  /** One pass of the per-frame switch; `writeOk` is the outcome of the keep-alive reply, if one is written. */
  function DispatchStep(s: Engine, f: Frame, writeOk: bool): Step<Pump> {
    if f.kind == "data" then
      Step(if f.id in s.subs then s.(channels := Send(s.channels, f.id, Payload(f.payload))) else s, Running)
    else if f.kind == "error" then
      Step(if f.id in s.subs then s.(channels := Send(s.channels, f.id, SubscriptionError(f.payload))) else s, Running)
    else if f.kind == "complete" then
      var s' := if f.id in s.subs
        then s.(channels := CloseChannel(s.channels, f.id), subs := s.subs - {f.id})
        else s;
      Step(if s'.subs == {} then CloseStep(s') else s', Running)
    else if f.kind == "connection_keep_alive" then
      Step(s.(written := s.written + [AckFrame]), if writeOk then Running else Exited)
    else Step(s, Running)  // "connection_ack", "connection_error" and unknown types are only logged
  }

  /**
    One iteration of listen: stop without a socket; a read error only ends
    the loop (the socket stays recorded and nothing reconnects); a frame is
    dispatched.
  */
  function ListenStep(s: Engine, r: Read, writeOk: bool): Step<Pump> {
    if !s.connected then Step(s, Exited)
    else match r
      case ReadFailed(_) => Step(s, Exited)
      case Received(f) => DispatchStep(s, f, writeOk)
  }

  /**
    A data frame appends its payload, and an error frame the error wrapping
    its payload, to the channel of the matching id and to no other; a frame
    for an unregistered id changes nothing.
  */
  lemma DataFrameRouting(s: Engine, f: Frame, writeOk: bool)
    requires Inv(s)
    requires f.kind == "data" || f.kind == "error"
    ensures var r := DispatchStep(s, f, writeOk);
      && r.out == Running
      && (f.id !in s.subs ==> r.next == s)
      && (f.id in s.subs ==>
            && r.next.subs == s.subs && r.next.written == s.written && r.next.connected == s.connected
            && r.next.channels.Keys == s.channels.Keys
            && r.next.channels[f.id].items ==
                 s.channels[f.id].items + [if f.kind == "data" then Payload(f.payload) else SubscriptionError(f.payload)]
            && !r.next.channels[f.id].closed
            && forall id :: id in s.channels && id != f.id ==> r.next.channels[id] == s.channels[id])
  {
  }

  /**
    A complete frame closes and removes only the matching id, and closes the
    socket when the registry is then empty.
  */
  lemma CompleteFrameEffect(s: Engine, f: Frame, writeOk: bool)
    requires Inv(s) && f.kind == "complete"
    ensures var r := DispatchStep(s, f, writeOk);
      && r.next.subs == s.subs - {f.id}
      && r.next.channels.Keys == s.channels.Keys
      && (f.id in s.subs ==> r.next.channels[f.id] == Channel(s.channels[f.id].items, true))
      && (forall id :: id in s.channels && id != f.id ==> r.next.channels[id] == s.channels[id])
      && (r.next.subs == {} ==> !r.next.connected)
      && (r.next.subs != {} ==> r.next.connected == s.connected)
      && r.out == Running && !r.next.closing
  {
    assert f.id !in s.subs ==> s.subs - {f.id} == s.subs;
  }

  /**
    The complete case of listen as written: when the registry is left empty
    the listen goroutine calls closeWebSocket itself, which marks the close,
    writes connection_terminate and drops the socket, then waits on a wait
    group that counts the listen goroutine. The wait never returns, so the
    mark is never cleared and the loop never resumes.
  */
  function CompleteAsWritten(s: Engine, id: string): Step<Pump> {
    var s' := if id in s.subs
      then s.(channels := CloseChannel(s.channels, id), subs := s.subs - {id})
      else s;
    if s'.subs != {} || !s'.connected then Step(s', Running)
    else Step(s'.(closing := true, connected := false, written := s'.written + [TerminateFrame]), Stuck)
  }

  /**
    When a complete frame ends the last subscription, the listen goroutine
    as written blocks on its own wait and leaves the close mark set for
    good, which the invariant rules out; the model's loop clears it.
  */
  lemma CompleteSelfWait(s: Engine, id: string)
    requires Inv(s) && s.connected && s.subs <= {id}
    ensures CompleteAsWritten(s, id).out == Stuck
    ensures CompleteAsWritten(s, id).next.closing && !Inv(CompleteAsWritten(s, id).next)
    ensures CompleteAsWritten(s, id).next == DispatchStep(s, Frame("complete", id, Null), true).next.(closing := true)
  {
    assert s.subs - {id} == {};
  }

  /**
    A connection_keep_alive frame is answered with exactly one
    connection_ack frame; a failed reply ends the listen loop.
  */
  lemma KeepAliveAcknowledged(s: Engine, f: Frame, writeOk: bool)
    requires f.kind == "connection_keep_alive"
    ensures DispatchStep(s, f, writeOk) == Step(s.(written := s.written + [AckFrame]), if writeOk then Running else Exited)
  {
  }

  /** connection_ack, connection_error and unlisted types change nothing. */
  lemma IgnoredFramesChangeNothing(s: Engine, f: Frame, writeOk: bool)
    requires f.kind !in {"data", "error", "complete", "connection_keep_alive"}
    ensures DispatchStep(s, f, writeOk) == Step(s, Running)
  {
  }

  /** A read error ends the loop without touching the state: unlike the current engine, no recovery. */
  lemma ReadErrorOnlyStops(s: Engine, e: ReadError, writeOk: bool)
    ensures ListenStep(s, ReadFailed(e), writeOk) == Step(s, Exited)
  {
  }

  lemma ListenPreservesInv(s: Engine, r: Read, writeOk: bool)
    requires Inv(s)
    ensures Inv(ListenStep(s, r, writeOk).next)
    ensures ListenStep(s, r, writeOk).next.subs <= s.subs
  {
  }

  // ---------------------------------------------------------------------
  // The client object

  class GraphQLWebSocketClient {
    const wsEndpoint: string
    var connected: bool
    var closing: bool
    var subs: set<string>
    var counter: nat
    var written: seq<Frame>
    var channels: map<string, Channel<Delivery>>

    function State(): Engine
      reads this
    {
      Engine(connected, closing, subs, counter, written, channels)
    }

    ghost predicate Valid()
      reads this
    {
      Inv(State())
    }

    /** NewWebSocketClient */
    constructor (wsEndpoint: string)
      ensures Valid()
      ensures this.wsEndpoint == wsEndpoint
      ensures State() == Initial
    {
      this.wsEndpoint := wsEndpoint;
      connected := false;
      closing := false;
      subs := {};
      counter := 0;
      written := [];
      channels := map[];
    }

    method GenerateUniqueId() returns (id: string)
      modifies this
      ensures State() == NextId(old(State())).next
      ensures id == NextId(old(State())).out
    {
      counter := counter + 1;
      id := FormatNat(counter);
    }

    method OpenWebSocket(dialOk: bool, initOk: bool) returns (r: Outcome<Error>)
      modifies this
      ensures State() == OpenStep(old(State()), dialOk, initOk).next
      ensures r == OpenStep(old(State()), dialOk, initOk).out
    {
      if connected {
        return Pass;
      }
      if !dialOk {
        return Fail(DialFailed(1));
      }
      connected := true;
      written := written + [InitFrame];
      if !initOk {
        return Fail(InitFailed);
      }
      return Pass;
    }

    method CloseWebSocket()
      modifies this
      ensures State() == CloseStep(old(State()))
    {
      if connected {
        closing := true;
        written := written + [TerminateFrame];
        connected := false;
        closing := false;
      }
    }

    method Close()
      requires Valid()
      modifies this
      ensures Valid()
      ensures State() == CloseStep(old(State()))
    {
      if connected {
        CloseWebSocket();
      }
    }

    method Subscribe(query: string, variables: Json, dialOk: bool, initOk: bool, startOk: bool)
      returns (r: Result<string, Error>)
      requires Valid()
      modifies this
      ensures Valid()
      ensures State() == SubscribeStep(old(State()), query, variables, dialOk, initOk, startOk).next
      ensures r == SubscribeStep(old(State()), query, variables, dialOk, initOk, startOk).out
    {
      SubscribePreservesInv(State(), query, variables, dialOk, initOk, startOk);
      if !connected || closing {
        var o := OpenWebSocket(dialOk, initOk);
        if o.Fail? {
          return Failure(o.error);
        }
      }
      var id := GenerateUniqueId();
      subs := subs + {id};
      channels := channels[id := Channel([], false)];
      written := written + [StartFrame(id, query, variables)];
      if !startOk {
        subs := subs - {id};
        if |subs| == 0 {
          CloseWebSocket();
        }
        return Failure(SendFailed);
      }
      return Success(id);
    }

    method Unsubscribe(id: string, writeOk: bool) returns (r: Outcome<Error>)
      requires Valid()
      modifies this
      ensures Valid()
      ensures State() == UnsubscribeStep(old(State()), id, writeOk).next
      ensures r == UnsubscribeStep(old(State()), id, writeOk).out
    {
      if !connected {
        return Fail(NoConnection);
      }
      written := written + [StopFrame(id)];
      if !writeOk {
        return Fail(SendFailed);
      }
      return Pass;
    }

    /** One iteration of the listen loop. */
    method ListenOnce(read: Read, writeOk: bool) returns (p: Pump)
      requires Valid()
      modifies this
      ensures Valid()
      ensures State() == ListenStep(old(State()), read, writeOk).next
      ensures p == ListenStep(old(State()), read, writeOk).out
    {
      ListenPreservesInv(State(), read, writeOk);
      if !connected {
        return Exited;
      }
      if read.ReadFailed? {
        return Exited;
      }
      var f := read.frame;
      if f.kind == "data" {
        if f.id in subs {
          channels := Send(channels, f.id, Payload(f.payload));
        }
      } else if f.kind == "error" {
        if f.id in subs {
          channels := Send(channels, f.id, SubscriptionError(f.payload));
        }
      } else if f.kind == "complete" {
        if f.id in subs {
          channels := CloseChannel(channels, f.id);
          subs := subs - {f.id};
        }
        if |subs| == 0 {
          CloseWebSocket();
        }
      } else if f.kind == "connection_keep_alive" {
        written := written + [AckFrame];
        if !writeOk {
          return Exited;
        }
      }
      return Running;
    }
  }
}
