/** One request, one response: a client on a byte stream that may be cut, delayed or dropped at
    any byte, a server that answers strictly in turn, and a client that gives up a connection
    for good when a deadline passes. */
module Rpc {
  import opened Text
  import opened Framing

  type Bytes = seq<byte>

  datatype Phase = Quiet | Busy | Abandoned

  /** A request as the server took it off the connection, and its answer. */
  datatype Exchange = Exchange(request: Bytes, response: Bytes)

  /** One connection: the client's unsent bytes, the bytes in transit each way, what either end
      has read of the frame at hand, and the history of calls. `returned` holds, for every call
      that ended, the response it gave its caller or nothing. */
  datatype Conn = Conn(
    phase: Phase, unsent: Bytes, up: Bytes, taken: Bytes,
    unanswered: Bytes, down: Bytes, got: Bytes, closed: bool,
    issued: seq<Bytes>, handled: seq<Exchange>, returned: seq<Option<Bytes>>)

  const FRESH := Conn(Quiet, [], [], [], [], [], [], false, [], [], [])

  // ---------------------------------------------------------------------------
  // Steps
  // ---------------------------------------------------------------------------

  datatype Step =
    | Call(request: Bytes)
    | ClientSends(n: nat)
    | ClientTakes(n: nat)
    | ClientReturns
    | ClientSeesOversize
    | ClientSeesBrokenPipe
    | ClientTimesOut
    | ClientCloses
    | ServerTakes(n: nat)
    | ServerAnswers(response: Bytes)
    | ServerSeesOversize
    | ServerSends(n: nat)
    | ServerCloses(kept: nat)

  /** How many more bytes a reader of one frame asks for. */
  function Needed(buf: Bytes): nat {
    if |buf| < HEADER then HEADER - |buf|
    else
      var total := HEADER + HeaderValue(buf[..HEADER]);
      if total > HEADER + MAX_FRAME || total < |buf| then 0 else total - |buf|
  }

  predicate Enabled(c: Conn, step: Step) {
    match step
    case Call(_) => c.phase == Quiet
    case ClientSends(n) => c.phase == Busy && n <= |c.unsent|
    case ClientTakes(n) => c.phase == Busy && c.unsent == [] && n <= |c.down| && n <= Needed(c.got)
    case ClientReturns => c.phase == Busy && c.unsent == [] && FrontOf(c.got).Message?
    case ClientSeesOversize => c.phase == Busy && c.unsent == [] && FrontOf(c.got).Oversize?
    case ClientSeesBrokenPipe => c.phase == Busy && c.closed && (c.unsent != [] || c.down == [])
    case ClientTimesOut => c.phase == Busy
    case ClientCloses => c.phase == Quiet
    case ServerTakes(n) => !c.closed && c.unanswered == [] && n <= |c.up| && n <= Needed(c.taken)
    case ServerAnswers(_) => !c.closed && c.unanswered == [] && FrontOf(c.taken).Message?
    case ServerSeesOversize => !c.closed && FrontOf(c.taken).Oversize?
    case ServerSends(n) => !c.closed && n <= |c.unanswered|
    case ServerCloses(kept) => !c.closed && kept <= |c.down|
  }

  /** A call that ends, leaving the connection in use. */
  function Ended(c: Conn, result: Option<Bytes>): Conn {
    c.(phase := Quiet, unsent := [], got := [], returned := c.returned + [result])
  }

  function Next(c: Conn, step: Step): Conn
    requires Enabled(c, step)
  {
    match step
    case Call(request) =>
      if Fits(request) then c.(phase := Busy, unsent := Frame(request), issued := c.issued + [request]) else c
    case ClientSends(n) => c.(unsent := c.unsent[n..], up := c.up + c.unsent[..n])
    case ClientTakes(n) => c.(down := c.down[n..], got := c.got + c.down[..n])
    case ClientReturns => Ended(c, Some(FrontOf(c.got).msg))
    case ClientSeesOversize => Ended(c, None)
    case ClientSeesBrokenPipe => Ended(c, None)
    case ClientTimesOut => c.(phase := Abandoned, returned := c.returned + [None])
    case ClientCloses => c.(phase := Abandoned)
    case ServerTakes(n) => c.(up := c.up[n..], taken := c.taken + c.up[..n])
    case ServerAnswers(response) =>
      var answered := c.(taken := [], handled := c.handled + [Exchange(FrontOf(c.taken).msg, response)]);
      if Fits(response) then answered.(unanswered := Frame(response)) else answered.(closed := true)
    case ServerSeesOversize => c.(closed := true)
    case ServerSends(n) => c.(unanswered := c.unanswered[n..], down := c.down + c.unanswered[..n])
    case ServerCloses(kept) => c.(closed := true, down := c.down[..kept])
  }

  // ---------------------------------------------------------------------------
  // What every connection keeps
  // ---------------------------------------------------------------------------

  /** What the server handled is what was issued, in order. */
  ghost predicate InTurn(issued: seq<Bytes>, handled: seq<Exchange>) {
    |handled| <= |issued| && forall i :: 0 <= i < |handled| ==> handled[i].request == issued[i]
  }

  /** Every response given to a caller is the server's answer to that same call. */
  ghost predicate Paired(handled: seq<Exchange>, returned: seq<Option<Bytes>>) {
    forall i :: 0 <= i < |returned| && returned[i].Some? ==> i < |handled| && handled[i].response == returned[i].value
  }

  /** While the server lives: all that was issued is handled, or exactly the last request is on
      its way, whole. */
  ghost predicate UpInStep(c: Conn) {
    && |c.handled| <= |c.issued| <= |c.handled| + 1
    && (|c.handled| == |c.issued| ==> c.taken == [] && c.up == [] && c.unsent == [])
    && (|c.handled| < |c.issued| ==>
          Fits(c.issued[|c.issued| - 1]) && c.taken + c.up + c.unsent == Frame(c.issued[|c.issued| - 1]) && c.unanswered == [])
  }

  /** While a call waits: nothing has come back, or a part of its own answer. */
  ghost predicate DownInStep(c: Conn) {
    if c.handled != [] && |c.handled| == |c.issued| then
      var answer := c.handled[|c.handled| - 1].response;
      if !Fits(answer) then c.closed && c.got + c.down == []
      else if c.closed then c.got + c.down <= Frame(answer)
      else c.got + c.down + c.unanswered == Frame(answer)
    else c.got == [] && c.down == []
  }

  ghost predicate InStep(c: Conn) {
    && InTurn(c.issued, c.handled)
    && Paired(c.handled, c.returned)
    && (!c.closed ==> UpInStep(c))
    && (c.phase == Busy ==> |c.returned| + 1 == |c.issued| && DownInStep(c) && (|c.handled| == |c.issued| ==> c.unsent == []))
    && (c.phase == Quiet ==>
          && |c.returned| == |c.issued|
          && c.got == [] && c.down == [] && c.unsent == []
          && (!c.closed ==> |c.handled| == |c.issued| && c.unanswered == []))
  }

  lemma CallKeeps(c: Conn, request: Bytes)
    requires InStep(c) && Enabled(c, Call(request))
    ensures InStep(Next(c, Call(request)))
  {
  }

  lemma ClientSendsKeeps(c: Conn, n: nat)
    requires InStep(c) && Enabled(c, ClientSends(n))
    ensures InStep(Next(c, ClientSends(n)))
  {
    var d := Next(c, ClientSends(n));
    if c.unsent == [] {
      assert d.up == c.up && d.unsent == [];
    } else {
      assert d.taken + d.up + d.unsent == c.taken + c.up + c.unsent;
    }
  }

  lemma ClientTakesKeeps(c: Conn, n: nat)
    requires InStep(c) && Enabled(c, ClientTakes(n))
    ensures InStep(Next(c, ClientTakes(n)))
  {
    assert c.got + c.down[..n] + c.down[n..] == c.got + c.down;
    assert c.got + c.down[..n] + c.down[n..] + c.unanswered == c.got + c.down + c.unanswered;
  }

  /** The frame that the client completes is its own answer, and nothing is left behind it. */
  lemma CompletedFrameIsTheAnswer(c: Conn)
    requires InStep(c) && c.phase == Busy && FrontOf(c.got) != More
    ensures c.handled != [] && |c.handled| == |c.issued|
    ensures var answer := c.handled[|c.handled| - 1].response;
            FrontOf(c.got) == Message(answer) && c.down == [] && (!c.closed ==> c.unanswered == [])
  {
    var answer := c.handled[|c.handled| - 1].response;
    FrontOfFrame(answer, c.got);
    assert c.got <= Frame(answer);
  }

  lemma ReturnKeeps(c: Conn)
    requires InStep(c) && Enabled(c, ClientReturns)
    ensures InStep(Next(c, ClientReturns))
  {
    CompletedFrameIsTheAnswer(c);
  }

  /** An oversize response never reaches the client: it would leave the connection out of step. */
  lemma OversizeNeverArrives(c: Conn)
    requires InStep(c)
    ensures !Enabled(c, ClientSeesOversize) && !Enabled(c, ServerSeesOversize)
  {
    if c.phase == Busy && FrontOf(c.got) != More {
      CompletedFrameIsTheAnswer(c);
    }
    if !c.closed && FrontOf(c.taken) != More {
      var request := c.issued[|c.issued| - 1];
      FrontOfFrame(request, c.taken);
      assert c.taken <= Frame(request);
    }
  }

  lemma ServerTakesKeeps(c: Conn, n: nat)
    requires InStep(c) && Enabled(c, ServerTakes(n))
    ensures InStep(Next(c, ServerTakes(n)))
  {
    assert c.up[..n] + c.up[n..] == c.up;
    assert c.taken + c.up[..n] + c.up[n..] + c.unsent == c.taken + c.up + c.unsent;
  }

  lemma ServerAnswersKeeps(c: Conn, response: Bytes)
    requires InStep(c) && Enabled(c, ServerAnswers(response))
    ensures InStep(Next(c, ServerAnswers(response)))
  {
    var request := c.issued[|c.issued| - 1];
    FrontOfFrame(request, c.taken);
    assert c.taken <= Frame(request);
    assert c.taken == Frame(request) && c.up == [] && c.unsent == [];
  }

  lemma ServerSendsKeeps(c: Conn, n: nat)
    requires InStep(c) && Enabled(c, ServerSends(n))
    ensures InStep(Next(c, ServerSends(n)))
  {
    assert c.unanswered[..n] + c.unanswered[n..] == c.unanswered;
    assert c.got + (c.down + c.unanswered[..n]) + c.unanswered[n..] == c.got + c.down + c.unanswered;
  }

  lemma ServerClosesKeeps(c: Conn, kept: nat)
    requires InStep(c) && Enabled(c, ServerCloses(kept))
    ensures InStep(Next(c, ServerCloses(kept)))
  {
  }

  /** Every step, at either end, keeps a connection in step. */
  lemma StepKeepsInStep(c: Conn, step: Step)
    requires InStep(c) && Enabled(c, step)
    ensures InStep(Next(c, step))
  {
    OversizeNeverArrives(c);
    match step
    case Call(request) => CallKeeps(c, request);
    case ClientSends(n) => ClientSendsKeeps(c, n);
    case ClientTakes(n) => ClientTakesKeeps(c, n);
    case ClientReturns => ReturnKeeps(c);
    case ServerTakes(n) => ServerTakesKeeps(c, n);
    case ServerAnswers(response) => ServerAnswersKeeps(c, response);
    case ServerSends(n) => ServerSendsKeeps(c, n);
    case ServerCloses(kept) => ServerClosesKeeps(c, kept);
    case _ =>
  }

  // ---------------------------------------------------------------------------
  // Runs over any number of connections
  // ---------------------------------------------------------------------------

  /** The connections made so far; only the last can be in use by the client. */
  type Net = seq<Conn>

  datatype NetStep = Connect | On(conn: nat, step: Step)

  ghost predicate NetNext(before: Net, step: NetStep, after: Net) {
    match step
    case Connect =>
      (before == [] || before[|before| - 1].phase == Abandoned) && after == before + [FRESH]
    case On(i, s) =>
      i < |before| && Enabled(before[i], s) && after == before[i := Next(before[i], s)]
  }

  ghost predicate NetRun(nets: seq<Net>, steps: seq<NetStep>) {
    && |nets| == |steps| + 1 && nets[0] == []
    && forall i :: 0 <= i < |steps| ==> NetNext(nets[i], steps[i], nets[i + 1])
  }

  ghost predicate NetInStep(net: Net) {
    forall i :: 0 <= i < |net| ==> InStep(net[i]) && (i < |net| - 1 ==> net[i].phase == Abandoned)
  }

  lemma NetStepKeeps(before: Net, step: NetStep, after: Net)
    requires NetInStep(before) && NetNext(before, step, after)
    ensures NetInStep(after)
  {
    if step.On? {
      StepKeepsInStep(before[step.conn], step.step);
    }
  }

  /** Over every run, with timeouts at any byte, reconnects, server crashes and requests still
      being served on abandoned connections: the server handles each connection's requests in
      the order of the calls, each at most once, and whatever a call returned is the server's
      answer to that very call. */
  lemma {:induction false} EveryResponseAnswersItsRequest(nets: seq<Net>, steps: seq<NetStep>, n: nat)
    requires NetRun(nets, steps) && n < |nets|
    ensures NetInStep(nets[n])
    ensures forall i :: 0 <= i < |nets[n]| ==>
              InTurn(nets[n][i].issued, nets[n][i].handled) && Paired(nets[n][i].handled, nets[n][i].returned)
  {
    if n > 0 {
      EveryResponseAnswersItsRequest(nets, steps, n - 1);
      NetStepKeeps(nets[n - 1], steps[n - 1], nets[n]);
    }
  }

  /** A connection on which a deadline passed carries no further request. */
  lemma {:induction false} AbandonedForGood(nets: seq<Net>, steps: seq<NetStep>, m: nat, n: nat, i: nat)
    requires NetRun(nets, steps) && m <= n < |nets| && i < |nets[m]| && nets[m][i].phase == Abandoned
    ensures i < |nets[n]| && nets[n][i].phase == Abandoned
    ensures nets[n][i].issued == nets[m][i].issued && nets[n][i].returned == nets[m][i].returned
  {
    if m < n {
      AbandonedForGood(nets, steps, m, n - 1, i);
      assert NetNext(nets[n - 1], steps[n - 1], nets[n]);
    }
  }

  // ---------------------------------------------------------------------------
  // The client
  // ---------------------------------------------------------------------------

  datatype CallResult = Response(bytes: Bytes) | NotConnected | WriteFailed | ReadFailed

  class AttachClient {
    var conn: Stream?

    constructor (stream: Stream)
      ensures conn == stream
    {
      conn := stream;
    }

    /** One call. `accepted` is how many bytes the socket takes, `late` whether what stopped a
        write or a read was the deadline. The connection is given up exactly on a deadline. */
    method RoundTrip(request: Bytes, accepted: nat, late: bool) returns (result: CallResult)
      modifies this, conn
      ensures old(conn) == null ==> result == NotConnected && conn == null
      ensures old(conn) != null ==>
                var sent := Fits(request) && |Frame(request)| <= accepted;
                var front := FrontOf(old(conn.incoming));
                && (result.WriteFailed? <==> !sent)
                && (result.Response? <==> sent && front.Message?)
                && (result.Response? ==>
                      && result.bytes == front.msg && conn == old(conn)
                      && conn.outgoing == old(conn.outgoing) + Frame(request)
                      && Frame(front.msg) + conn.incoming == old(conn.incoming))
                && (conn == null <==> late && ((Fits(request) && !sent) || (sent && front == More)))
                && (conn != null ==> conn == old(conn))
    {
      if conn == null {
        return NotConnected;
      }
      var ok := conn.WriteFrame(request, accepted);
      if !ok {
        if late && |request| <= MAX_FRAME {
          conn := null;
        }
        return WriteFailed;
      }
      var before := conn.incoming;
      var front := conn.ReadFrame();
      match front {
        case Message(msg) =>
          MessageComesFromItsFrame(before);
          return Response(msg);
        case Oversize =>
          return ReadFailed;
        case More =>
          if late {
            conn := null;
          }
          return ReadFailed;
      }
    }
  }
}
