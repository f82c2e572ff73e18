/** Delivery of the event log to a client that reads from where it stands, acknowledges only what
    it has read, may crash and come back at the base, and may leave acks behind on connections
    it gave up, where the server can still execute them at any later time. */
module Delivery {
  import opened Text
  import opened Framing
  import opened EventLog

  datatype Client =
    | Down
    | Up(start: int, cursor: int, received: seq<byte>, truncated: bool)

  /** The log, the stream it stands for, the acks sent and neither executed nor lost, the client. */
  datatype World = World(log: Log, stream: seq<byte>, pending: seq<int>, client: Client)

  datatype Step =
    | Grow(op: Op)
    | Hello
    | ReadOn(max: int, fault: Fault)
    | SendAck(to: int)
    | AckRuns(i: nat, fault: Fault)
    | AckLost(i: nat)
    | Crash

  // ---------------------------------------------------------------------------
  // The size of a read's response on the wire
  // ---------------------------------------------------------------------------

  function Digits(n: nat): nat {
    if n < 10 then 1 else 1 + Digits(n / 10)
  }

  /** The length of the JSON object {"ok":true,"data":"...","next_offset":...,"eof":true}, with
      zero fields omitted and the data in base64 (section 4 of RFC 4648). */
  function WireSize(r: Reply): nat {
    11
    + (if r.data == [] then 0 else 10 + (|r.data| + 2) / 3 * 4)
    + (if r.next <= 0 then 0 else 15 + Digits(r.next))
    + (if r.eof then 11 else 0)
  }

  // ---------------------------------------------------------------------------
  // Steps
  // ---------------------------------------------------------------------------

  ghost predicate Enabled(w: World, step: Step) {
    && WellFormed(w.log)
    && match step
       case Grow(op) => ValidOp(op) && !op.AckTo?
       case Hello => w.client.Down?
       case ReadOn(_, _) => w.client.Up?
       case SendAck(to) => w.client.Up? && to <= w.client.cursor
       case AckRuns(i, fault) => i < |w.pending| && !Strands(w.log, AckTo(w.pending[i], fault))
       case AckLost(i) => i < |w.pending|
       case Crash => w.client.Up?
  }

  function Without(xs: seq<int>, i: nat): seq<int>
    requires i < |xs|
  {
    xs[..i] + xs[i + 1..]
  }

  /** What the client makes of a reply; a response too long for a frame never reaches it. */
  function Took(c: Client, r: Reply): Client
    requires c.Up?
  {
    if r.error == Some(OffsetTruncated) then c.(truncated := true)
    else if r.error.Some? || WireSize(r) > MAX_FRAME then c
    else c.(cursor := r.next, received := c.received + r.data)
  }

  ghost function Next(w: World, step: Step): World
    requires Enabled(w, step)
  {
    match step
    case Grow(op) => w.(log := EventLog.Next(w.log, op), stream := w.stream + Added(w.log, op))
    case Hello => w.(client := Up(w.log.base, w.log.base, [], false))
    case ReadOn(max, fault) => w.(client := Took(w.client, Read(w.log, w.client.cursor, max, fault)))
    case SendAck(to) => w.(pending := w.pending + [to])
    case AckRuns(i, fault) => w.(log := Acked(w.log, w.pending[i], fault), pending := Without(w.pending, i))
    case AckLost(i) => w.(pending := Without(w.pending, i))
    case Crash => w.(client := Down)
  }

  ghost predicate Possible(w: World, steps: seq<Step>)
    decreases |steps|
  {
    steps == [] || (Enabled(w, steps[0]) && Possible(Next(w, steps[0]), steps[1..]))
  }

  ghost function After(w: World, steps: seq<Step>): World
    requires Possible(w, steps)
    decreases |steps|
  {
    if steps == [] then w else After(Next(w, steps[0]), steps[1..])
  }

  // ---------------------------------------------------------------------------
  // What every run keeps
  // ---------------------------------------------------------------------------

  /** The client holds exactly a contiguous piece of the stream: no gap, repeat or reorder. */
  ghost predicate Contiguous(c: Client, stream: seq<byte>) {
    c.Up? ==> 0 <= c.start <= c.cursor <= |stream| && c.received == stream[c.start..c.cursor]
  }

  ghost predicate Bounded(xs: seq<int>, limit: int) {
    forall i :: 0 <= i < |xs| ==> xs[i] <= limit
  }

  ghost predicate Inv(w: World) {
    Faithful(w.log, w.stream) && Contiguous(w.client, w.stream) && Bounded(w.pending, |w.stream|)
  }

  lemma ReadKeeps(w: World, max: int, fault: Fault)
    requires Inv(w) && w.client.Up?
    ensures Contiguous(Took(w.client, Read(w.log, w.client.cursor, max, fault)), w.stream)
  {
    var c, r := w.client, Read(w.log, w.client.cursor, max, fault);
    ReadReturnsTheStream(w.log, w.stream, c.cursor, max, fault);
    if r.error.None? {
      assert w.stream[c.start..c.cursor] + w.stream[c.cursor..r.next] == w.stream[c.start..r.next];
    }
  }

  lemma GrowKeeps(w: World, op: Op)
    requires Inv(w) && ValidOp(op) && !op.AckTo?
    ensures Inv(w.(log := EventLog.Next(w.log, op), stream := w.stream + Added(w.log, op)))
  {
    StepIsFaithfulExactlyWhen(w.log, w.stream, op);
    if w.client.Up? {
      var more := Added(w.log, op);
      assert (w.stream + more)[w.client.start..w.client.cursor] == w.stream[w.client.start..w.client.cursor];
    }
  }

  lemma AckKeeps(w: World, i: nat, fault: Fault)
    requires Inv(w) && i < |w.pending| && !Strands(w.log, AckTo(w.pending[i], fault))
    ensures Faithful(Acked(w.log, w.pending[i], fault), w.stream)
  {
    StepIsFaithfulExactlyWhen(w.log, w.stream, AckTo(w.pending[i], fault));
    assert w.stream + [] == w.stream;
  }

  lemma StepKeepsInv(w: World, step: Step)
    requires Inv(w) && Enabled(w, step)
    ensures Inv(Next(w, step))
  {
    match step
    case Grow(op) => GrowKeeps(w, op);
    case ReadOn(max, fault) => ReadKeeps(w, max, fault);
    case AckRuns(i, fault) => AckKeeps(w, i, fault);
    case _ =>
  }

  /** In every run, whatever crashes and late acks it has, what a client holds is exactly the
      part of the stream between where it started and where it stands. */
  lemma {:induction false} WhatIsReceivedIsTheStream(w: World, steps: seq<Step>)
    requires Inv(w) && Possible(w, steps)
    ensures Inv(After(w, steps))
    decreases |steps|
  {
    if steps != [] {
      StepKeepsInv(w, steps[0]);
      WhatIsReceivedIsTheStream(Next(w, steps[0]), steps[1..]);
    }
  }

  // ---------------------------------------------------------------------------
  // Truncation
  // ---------------------------------------------------------------------------

  /** No ack that can still be executed goes past the limit. */
  ghost predicate AcksWithin(w: World, limit: int) {
    w.log.base <= limit && (w.log.closed || Bounded(w.pending, limit))
  }

  lemma AckStaysWithin(l: Log, to: int, fault: Fault, limit: int)
    requires WellFormed(l) && l.base <= limit && (l.closed || to <= limit)
    ensures Acked(l, to, fault).base <= limit && l.base <= Acked(l, to, fault).base
    ensures Acked(l, to, fault).closed == l.closed
  {
  }

  lemma StepStaysWithin(w: World, step: Step, limit: int)
    requires Inv(w) && Enabled(w, step) && AcksWithin(w, limit)
    requires w.client.Up? ==> w.client.cursor <= limit
    ensures AcksWithin(Next(w, step), limit)
    ensures w.log.base <= Next(w, step).log.base
  {
    if step.AckRuns? {
      AckStaysWithin(w.log, w.pending[step.i], step.fault, limit);
    }
  }

  lemma WithinGrows(w: World, a: int, b: int)
    requires AcksWithin(w, a) && a <= b
    ensures AcksWithin(w, b)
  {
  }

  predicate WithoutCrash(steps: seq<Step>) {
    forall i :: 0 <= i < |steps| ==> steps[i] != Crash
  }

  ghost predicate InReach(w: World) {
    Inv(w) && w.client.Up? && !w.client.truncated && AcksWithin(w, w.client.cursor)
  }

  lemma StepStaysInReach(w: World, step: Step)
    requires InReach(w) && Enabled(w, step) && step != Crash
    ensures InReach(Next(w, step)) && w.client.cursor <= Next(w, step).client.cursor
  {
    StepKeepsInv(w, step);
    StepStaysWithin(w, step, w.client.cursor);
    if step.ReadOn? {
      ReadReturnsTheStream(w.log, w.stream, w.client.cursor, step.max, step.fault);
      WithinGrows(Next(w, step), w.client.cursor, Next(w, step).client.cursor);
    }
  }

  lemma {:induction false} RunStaysInReach(w: World, steps: seq<Step>)
    requires InReach(w) && Possible(w, steps) && WithoutCrash(steps)
    ensures InReach(After(w, steps)) && w.client.cursor <= After(w, steps).client.cursor
    decreases |steps|
  {
    if steps != [] {
      StepStaysInReach(w, steps[0]);
      RunStaysInReach(Next(w, steps[0]), steps[1..]);
    }
  }

  ghost predicate CanBeTruncated(w: World) {
    exists steps: seq<Step> ::
      Possible(w, steps) && WithoutCrash(steps) && After(w, steps).client.Up? && After(w, steps).client.truncated
  }

  lemma LateAckTruncates(w: World, i: nat)
    requires Inv(w) && w.client.Up? && w.log.base <= w.client.cursor && !w.log.closed
    requires i < |w.pending| && w.pending[i] > w.client.cursor
    ensures CanBeTruncated(w)
  {
    var ack, read := AckRuns(i, NoFault), ReadOn(1, NoFault);
    var mid := Next(w, ack);
    assert mid.log.base == w.pending[i];
    var end := Next(mid, read);
    assert end.client.truncated;
    assert [ack, read][1..] == [read] && [read][1..] == [];
    assert Possible(end, []) && Possible(mid, [read]) && Possible(w, [ack, read]);
    assert After(w, [ack, read]) == After(mid, [read]) == After(end, []) == end;
  }

  /** A client that stands at or above the base can be told that its offset is gone, at some
      point of some continuation, exactly when an ack that can still be executed goes beyond
      where it stands: one that an earlier incarnation left behind. */
  lemma TruncatedExactlyWhenAnAckIsAhead(w: World)
    requires Inv(w) && w.client.Up? && !w.client.truncated && w.log.base <= w.client.cursor
    ensures !CanBeTruncated(w) <==> w.log.closed || Bounded(w.pending, w.client.cursor)
  {
    if AcksWithin(w, w.client.cursor) {
      forall steps: seq<Step> | Possible(w, steps) && WithoutCrash(steps) 
        ensures !(After(w, steps).client.Up? && After(w, steps).client.truncated)
      {
        RunStaysInReach(w, steps);
      }
    } else {
      var i :| 0 <= i < |w.pending| && w.pending[i] > w.client.cursor;
      LateAckTruncates(w, i);
    }
  }

  /** A first client, with no acks left behind by anyone, is never truncated. */
  lemma FirstClientIsNeverTruncated(l: Log, stream: seq<byte>, steps: seq<Step>)
    requires Faithful(l, stream)
    requires var w := World(l, stream, [], Up(l.base, l.base, [], false)); Possible(w, steps) && WithoutCrash(steps)
    ensures var c := After(World(l, stream, [], Up(l.base, l.base, [], false)), steps).client;
            c.Up? && !c.truncated && c.start <= c.cursor
  {
    var w := World(l, stream, [], Up(l.base, l.base, [], false));
    assert stream[l.base..l.base] == [];
    RunStaysInReach(w, steps);
  }

  // ---------------------------------------------------------------------------
  // Across a crash
  // ---------------------------------------------------------------------------

  predicate WhileDown(steps: seq<Step>) {
    forall i :: 0 <= i < |steps| ==> !steps[i].Hello?
  }

  lemma {:induction false} DownStaysWithin(w: World, steps: seq<Step>, limit: int)
    requires Inv(w) && w.client.Down? && AcksWithin(w, limit) && Possible(w, steps) && WhileDown(steps)
    ensures var v := After(w, steps);
            Inv(v) && v.client.Down? && AcksWithin(v, limit) && w.log.base <= v.log.base && w.stream <= v.stream
    decreases |steps|
  {
    if steps != [] {
      StepKeepsInv(w, steps[0]);
      StepStaysWithin(w, steps[0], limit);
      DownStaysWithin(Next(w, steps[0]), steps[1..], limit);
    }
  }

  /** After a crash, and whatever the supervisor does meanwhile, the next client starts at the base
      that the log has by then, inside what the crashed one had received; what both hold is the
      stream, joined at that point. */
  lemma RestartRedeliversTheUnacked(w: World, away: seq<Step>, down: World, back: seq<Step>, v: World)
    requires InReach(w) && Possible(Next(w, Crash), away) && WhileDown(away) && down == After(Next(w, Crash), away)
    requires Enabled(down, Hello) && Possible(Next(down, Hello), back) && WithoutCrash(back) && v == After(Next(down, Hello), back)
    ensures v.client.Up? && v.client.start == down.log.base && w.log.base <= v.client.start <= w.client.cursor
    ensures v.client.start <= v.client.cursor <= |v.stream|
    ensures v.client.received == v.stream[v.client.start..v.client.cursor]
    ensures w.client.start <= v.client.start ==>
              v.stream[w.client.start..v.client.cursor] == w.client.received[..v.client.start - w.client.start] + v.client.received
  {
    DownStaysWithin(Next(w, Crash), away, w.client.cursor);
    var hello := Next(down, Hello);
    StepKeepsInv(down, Hello);
    StartIsFixed(hello, back);
    WhatIsReceivedIsTheStream(hello, back);
    var s := w.client.start;
    if s <= v.client.start {
      OldPiece(w.stream, v.stream, s, v.client.start, w.client.cursor);
    }
  }

  /** What was received up to a point is still what the grown stream has there. */
  lemma OldPiece(past: seq<byte>, grown: seq<byte>, a: int, b: int, c: int)
    requires past <= grown && 0 <= a <= b <= c <= |past|
    ensures past[a..c][..b - a] == grown[a..b]
    ensures forall d :: b <= d <= |grown| ==> grown[a..b] + grown[b..d] == grown[a..d]
  {
    assert past[a..c][..b - a] == past[a..b];
  }

  lemma {:induction false} StartIsFixed(w: World, steps: seq<Step>)
    requires w.client.Up? && Possible(w, steps) && WithoutCrash(steps)
    ensures var v := After(w, steps); v.client.Up? && v.client.start == w.client.start && w.stream <= v.stream
    decreases |steps|
  {
    if steps != [] {
      StartIsFixed(Next(w, steps[0]), steps[1..]);
    }
  }

  // ---------------------------------------------------------------------------
  // Progress
  // ---------------------------------------------------------------------------

  function Pow10(k: nat): nat {
    if k == 0 then 1 else 10 * Pow10(k - 1)
  }

  lemma {:induction false} DigitsAreFew(n: nat, k: nat)
    requires k > 0 && n < Pow10(k)
    ensures Digits(n) <= k
  {
    if n >= 10 {
      DigitsAreFew(n / 10, k - 1);
    }
  }

  /** A read moves the client on exactly when there is more to read, nothing fails, and the
      response fits in a frame. */
  lemma ReadAdvancesExactlyWhen(w: World, max: int, fault: Fault)
    requires Inv(w) && w.client.Up? && w.log.base <= w.client.cursor
    ensures Took(w.client, Read(w.log, w.client.cursor, max, fault)).cursor > w.client.cursor <==>
            && w.client.cursor < |w.stream|
            && fault !in {OpenFails, SeekFails, ReadFails}
            && WireSize(Read(w.log, w.client.cursor, max, fault)) <= MAX_FRAME
  {
    ReadReturnsTheStream(w.log, w.stream, w.client.cursor, max, fault);
  }

  /** Any explicit limit up to 12 MiB less 64 bytes lets the response fit, at every offset that
      a 64-bit integer holds. */
  lemma ExplicitLimitFits(l: Log, stream: seq<byte>, from: int, max: int, fault: Fault)
    requires Faithful(l, stream) && |stream| < 0x8000_0000_0000_0000
    requires 0 < max <= MAX_FRAME / 4 * 3 - 64
    ensures WireSize(Read(l, from, max, fault)) <= MAX_FRAME
  {
    var r := Read(l, from, max, fault);
    ReadReturnsTheStream(l, stream, from, max, fault);
    if r.next > 0 {
      assert Pow10(19) == 10_000_000_000_000_000_000 by {
        assert Pow10(10) == 10_000_000_000;
      }
      assert r.next <= |stream|;
      DigitsAreFew(r.next, 19);
    }
  }

  /** Without a limit, a reader that is more than 12 MiB behind can never be answered: the
      response does not fit, the server drops the connection, and the reader is as far behind
      when it comes back. */
  lemma UnlimitedReadStalls(w: World, max: int, fault: Fault)
    requires Inv(w) && w.client.Up? && w.log.base <= w.client.cursor
    requires max <= 0 && |w.stream| - w.client.cursor > MAX_FRAME / 4 * 3
    ensures Next(w, ReadOn(max, fault)) == w
  {
    var r := Read(w.log, w.client.cursor, max, fault);
    ReadReturnsTheStream(w.log, w.stream, w.client.cursor, max, fault);
    if r.error.None? {
      var file, pos := w.log.inodes[w.log.path], w.client.cursor - w.log.base;
      assert |Tail(file, pos)| == |w.stream| - w.client.cursor;
      assert |r.data| > MAX_FRAME / 4 * 3;
    }
  }
}
