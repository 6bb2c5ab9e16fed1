/**
  The earliest engine, in client.go: no registry, only a counter of ids
  handed out (`subID`) and a count of live subscriptions (`subCount`); the
  socket is closed when the count drops to zero. Frames are those of the
  "graphql-ws" subprotocol. The callbacks that the reader goroutine feeds
  are not part of this model.
*/
module Client {
  import opened Wrappers
  import opened Wire
  import opened Decimal
  import Endpoint

  datatype Engine = Engine(connected: bool, subCount: int, subID: int, written: seq<Frame>)

  datatype Step<R> = Step(next: Engine, out: R)

  const InitFrame: Frame := Bare("connection_init")

  /** A start frame; the id is `fmt.Sprintf("%d", subID)`. */
  function StartFrame(subID: int, query: string, variables: Json): Frame {
    Frame("start", FormatInt(subID), QueryPayload(query, variables))
  }

  function StopFrame(subID: int): Frame {
    Frame("stop", FormatInt(subID), Null)
  }

  /** openWebSocket: dial once, record the socket, then write connection_init. */
  function OpenStep(s: Engine, dialOk: bool, initOk: bool): Step<Outcome<Error>> {
    if !dialOk then Step(s, Fail(DialFailed(1)))
    else
      var s' := s.(connected := true, written := s.written + [InitFrame]);
      Step(s', if initOk then Pass else Fail(InitFailed))
  }

  /** closeWebSocket: close the socket and forget it; no frame is written. */
  function CloseSocket(s: Engine): Engine {
    s.(connected := false)
  }

  function SubscribeStep(
    s: Engine, query: string, variables: Json,
    dialOk: bool, initOk: bool, startOk: bool): Step<Result<int, Error>>
  {
    var o := if !s.connected then OpenStep(s, dialOk, initOk) else Step(s, Pass);
    if o.out.Fail? then Step(o.next, Failure(o.out.error))
    else
      var id := o.next.subID + 1;
      var s' := o.next.(subID := id, written := o.next.written + [StartFrame(id, query, variables)]);
      if !startOk then Step(CloseSocket(s'), Failure(SendFailed))
      else Step(s'.(subCount := s'.subCount + 1), Success(id))
  }

  function UnsubscribeStep(s: Engine, subID: int, writeOk: bool): Step<Outcome<Error>> {
    if !s.connected then Step(s, Fail(NoConnection))
    else
      var s' := s.(written := s.written + [StopFrame(subID)]);
      if !writeOk then Step(s', Fail(SendFailed))
      else
        var s'' := s'.(subCount := s'.subCount - 1);
        Step(if s''.subCount == 0 then CloseSocket(s'') else s'', Pass)
  }

  /** Close: close the socket if there is one. */
  function CloseStep(s: Engine): Engine {
    if s.connected then CloseSocket(s) else s
  }

  /** Ids are handed out from 1 upward, and never more live subscriptions are counted than ids handed out. */
  ghost predicate Inv(s: Engine) {
    0 <= s.subID && s.subCount <= s.subID
  }

  /**
    A Subscribe that gets past connection setup takes the next id,
    subID + 1, and writes one start frame under its decimal rendering, which
    no earlier start frame carried. The live count grows only when that
    write succeeds; otherwise the socket is closed and the id stays used up.
  */
  lemma SubscribeTakesNextId(
    s: Engine, query: string, variables: Json, dialOk: bool, initOk: bool, startOk: bool)
    requires s.connected || OpenStep(s, dialOk, initOk).out.Pass?
    ensures var r := SubscribeStep(s, query, variables, dialOk, initOk, startOk);
      && r.next.subID == s.subID + 1
      && r.next.written[|r.next.written| - 1] == StartFrame(s.subID + 1, query, variables)
      && (forall k :: k <= s.subID ==> StartFrame(k, query, variables).id != r.next.written[|r.next.written| - 1].id)
      && (startOk ==> r.out == Success(s.subID + 1) && r.next.subCount == s.subCount + 1 && r.next.connected)
      && (!startOk ==> r.out == Failure(SendFailed) && r.next.subCount == s.subCount && !r.next.connected)
  {
    forall k | k <= s.subID
      ensures FormatInt(k) != FormatInt(s.subID + 1)
    {
      FormatIntInjective(k, s.subID + 1);
    }
  }

  /** Without a socket, a failed open makes Subscribe fail with both counters unchanged. */
  lemma SubscribeOpenFails(
    s: Engine, query: string, variables: Json, dialOk: bool, initOk: bool, startOk: bool)
    requires !s.connected && OpenStep(s, dialOk, initOk).out.Fail?
    ensures var r := SubscribeStep(s, query, variables, dialOk, initOk, startOk);
      && r.out == Failure(OpenStep(s, dialOk, initOk).out.error)
      && r.next.subID == s.subID && r.next.subCount == s.subCount
  {
  }

  /**
    Unsubscribe fails without a socket and changes nothing. Otherwise it
    writes one stop frame; if that write succeeds the live count drops by
    one and the socket is closed exactly when the count reaches zero.
  */
  lemma UnsubscribeEffect(s: Engine, subID: int, writeOk: bool)
    ensures var r := UnsubscribeStep(s, subID, writeOk);
      && (!s.connected ==> r == Step(s, Fail(NoConnection)))
      && (s.connected ==>
            && r.next.written == s.written + [StopFrame(subID)]
            && r.next.subID == s.subID
            && (!writeOk ==> r.out == Fail(SendFailed) && r.next.subCount == s.subCount && r.next.connected)
            && (writeOk ==> r.out == Pass && r.next.subCount == s.subCount - 1
                            && (r.next.connected <==> s.subCount != 1)))
  {
  }

  /** Close leaves no socket, writes nothing, and closing twice is closing once. */
  lemma CloseIdempotent(s: Engine)
    ensures !CloseStep(s).connected
    ensures CloseStep(CloseStep(s)) == CloseStep(s)
    ensures CloseStep(s).(connected := s.connected) == s
  {
  }

  lemma StepsPreserveInv(
    s: Engine, query: string, variables: Json, dialOk: bool, initOk: bool, startOk: bool,
    subID: int, writeOk: bool)
    requires Inv(s)
    ensures Inv(SubscribeStep(s, query, variables, dialOk, initOk, startOk).next)
    ensures Inv(UnsubscribeStep(s, subID, writeOk).next)
    ensures Inv(CloseStep(s))
  {
  }

  class GraphQLClient {
    const endpoint: string
    const wsEndpoint: string
    var connected: bool
    var subCount: int
    var subID: int
    var written: seq<Frame>

    function State(): Engine
      reads this
    {
      Engine(connected, subCount, subID, written)
    }

    ghost predicate Valid()
      reads this
    {
      Inv(State())
    }

    /** NewClient: the endpoint as given, and the WebSocket endpoint derived from it. */
    constructor (endpoint: string)
      requires |endpoint| >= 4
      ensures Valid()
      ensures this.endpoint == endpoint && wsEndpoint == Endpoint.WsEndpoint(endpoint)
      ensures State() == Engine(false, 0, 0, [])
    {
      this.endpoint := endpoint;
      wsEndpoint := Endpoint.WsEndpoint(endpoint);
      connected := false;
      subCount := 0;
      subID := 0;
      written := [];
    }

    method OpenWebSocket(dialOk: bool, initOk: bool) returns (r: Outcome<Error>)
      modifies this
      ensures State() == OpenStep(old(State()), dialOk, initOk).next
      ensures r == OpenStep(old(State()), dialOk, initOk).out
    {
      if !dialOk {
        return Fail(DialFailed(1));
      }
      connected := true;
      written := written + [InitFrame];
      if !initOk {
        return Fail(InitFailed);
      }
      return Pass;
    }

    method CloseWebSocket()
      requires connected
      modifies this
      ensures State() == CloseSocket(old(State()))
    {
      connected := false;
    }

    method Subscribe(query: string, variables: Json, dialOk: bool, initOk: bool, startOk: bool)
      returns (r: Result<int, Error>)
      requires Valid()
      modifies this
      ensures Valid()
      ensures State() == SubscribeStep(old(State()), query, variables, dialOk, initOk, startOk).next
      ensures r == SubscribeStep(old(State()), query, variables, dialOk, initOk, startOk).out
    {
      StepsPreserveInv(State(), query, variables, dialOk, initOk, startOk, 0, false);
      if !connected {
        var o := OpenWebSocket(dialOk, initOk);
        if o.Fail? {
          return Failure(o.error);
        }
      }
      subID := subID + 1;
      var id := subID;
      written := written + [StartFrame(id, query, variables)];
      if !startOk {
        CloseWebSocket();
        return Failure(SendFailed);
      }
      subCount := subCount + 1;
      return Success(id);
    }

    method Unsubscribe(id: int, writeOk: bool) returns (r: Outcome<Error>)
      requires Valid()
      modifies this
      ensures Valid()
      ensures State() == UnsubscribeStep(old(State()), id, writeOk).next
      ensures r == UnsubscribeStep(old(State()), id, writeOk).out
    {
      StepsPreserveInv(State(), "", Null, false, false, false, id, writeOk);
      if !connected {
        return Fail(NoConnection);
      }
      written := written + [StopFrame(id)];
      if !writeOk {
        return Fail(SendFailed);
      }
      subCount := subCount - 1;
      if subCount == 0 {
        CloseWebSocket();
      }
      return Pass;
    }

    method Close()
      requires Valid()
      modifies this
      ensures Valid()
      ensures State() == CloseStep(old(State()))
    {
      if connected {
        CloseWebSocket();
      }
    }
  }
}
