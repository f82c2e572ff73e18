/** The supervisor's persistent event log: a drain appends to the tail of a file while acks
    rewrite its prefix and swap the append handle, all at absolute byte offsets. */
module EventLog {
  import opened Text
  import opened Framing

  const NEWLINE: byte := 10

  /** The directory and the open append handle, with the two absolute cursors. A handle keeps
      pointing at its inode when the path is renamed over. `draining` says that the drain loop
      has not stopped. */
  datatype Log = Log(inodes: map<nat, seq<byte>>, nextInode: nat, path: nat, fd: nat,
                     base: int, offset: int, closed: bool, draining: bool)

  ghost predicate WellFormed(l: Log) {
    && l.path in l.inodes && l.fd in l.inodes
    && (forall k :: k in l.inodes ==> k < l.nextInode)
    && 0 <= l.base <= l.offset
  }

  datatype Fault = NoFault | OpenFails | SeekFails | ReadFails | WriteTempFails | RenameFails | ReopenFails

  datatype LogError = Closed | ShortWrite | OffsetTruncated | Io(fault: Fault)

  function Min(a: int, b: int): int { if a < b then a else b }

  // ---------------------------------------------------------------------------
  // The operations on the log
  // ---------------------------------------------------------------------------

  /** Opening the log: the offset is seeded from the size of what is there, when that is known. */
  function Opened(existing: seq<byte>, sized: bool): Log {
    Log(map[0 := existing], 1, 0, 0, 0, if sized then |existing| else 0, false, true)
  }

  /** A write to the append handle that takes the first `accepted` bytes. */
  function Appended(l: Log, out: seq<byte>, accepted: nat): Log
    requires WellFormed(l) && accepted <= |out|
  {
    if l.closed then l
    else l.(inodes := l.inodes[l.fd := l.inodes[l.fd] + out[..accepted]], offset := l.offset + accepted)
  }

  /** One round of the drain loop: blank lines are skipped, and a failed append ends the loop. */
  function Drained(l: Log, line: seq<byte>, accepted: nat): Log
    requires WellFormed(l) && accepted <= |line| + 1
  {
    if !l.draining || line == [] then l
    else Appended(l, line + [NEWLINE], accepted).(draining := !l.closed && accepted == |line| + 1)
  }

  function Clamped(l: Log, to: int): int {
    var t := if to < l.base then l.base else to;
    if t > l.offset then l.offset else t
  }

  /** From a position to the end of the file. */
  function Tail(file: seq<byte>, pos: int): seq<byte>
    requires pos >= 0
  {
    if pos < |file| then file[pos..] else []
  }

  predicate Truncates(l: Log, to: int) {
    !l.closed && l.base < Clamped(l, to)
  }

  /** Ack: the surviving tail goes to a new inode, which takes over the path, and then the
      append handle. */
  function Acked(l: Log, to: int, fault: Fault): Log
    requires WellFormed(l)
  {
    if !Truncates(l, to) || fault in {OpenFails, SeekFails, ReadFails, WriteTempFails, RenameFails} then l
    else
      var t, ino := Clamped(l, to), l.nextInode;
      var renamed := l.(inodes := l.inodes[ino := Tail(l.inodes[l.path], t - l.base)], nextInode := ino + 1, path := ino);
      if fault == ReopenFails then renamed else renamed.(fd := ino, base := t)
  }

  function AckError(l: Log, to: int, fault: Fault): Option<LogError> {
    if l.closed then Some(Closed)
    else if l.base < Clamped(l, to) && fault != NoFault then Some(Io(fault))
    else None
  }

  /** The child has exited: the handle is closed. */
  function Exited(l: Log): Log {
    l.(closed := true, draining := false)
  }

  datatype Reply = Reply(data: seq<byte>, next: int, eof: bool, error: Option<LogError>)

  /** A read through a handle of its own. A reader at the end of the file gets an error, not
      an empty buffer, unless the cursors already say that there is nothing to read. */
  function Read(l: Log, from: int, max: int, fault: Fault): Reply
    requires WellFormed(l)
  {
    if from < l.base then Reply([], from, false, Some(OffsetTruncated))
    else
      var start := Min(from, l.offset);
      if l.offset - start <= 0 then Reply([], start, true, None)
      else if fault in {OpenFails, SeekFails, ReadFails} then Reply([], start, false, Some(Io(fault)))
      else
        var rest := Tail(l.inodes[l.path], start - l.base);
        var data := rest[..Min(Min(if max <= 0 then MAX_FRAME else max, l.offset - start), |rest|)];
        if data == [] then Reply([], start, false, Some(Io(ReadFails)))
        else Reply(data, start + |data|, start + |data| >= l.offset, None)
  }

  // ---------------------------------------------------------------------------
  // What the log stands for
  // ---------------------------------------------------------------------------

  /** The file on the path holds exactly the part of the stream between the two cursors, and
      the append handle writes to that file. */
  ghost predicate Faithful(l: Log, stream: seq<byte>) {
    && WellFormed(l)
    && (l.fd == l.path || l.closed)
    && l.offset == |stream|
    && l.inodes[l.path] == stream[l.base..l.offset]
  }

  /** A fresh log stands for what was on disk, exactly when its size could be determined. */
  lemma OpenedIsFaithful(existing: seq<byte>, sized: bool)
    ensures Faithful(Opened(existing, sized), existing) <==> sized || existing == []
  {
    assert existing[0..|existing|] == existing;
  }

  datatype Op =
    | Drain(line: seq<byte>, accepted: nat)
    | AckTo(to: int, fault: Fault)
    | Exit

  predicate ValidOp(op: Op) {
    op.Drain? ==> op.accepted <= |op.line| + 1
  }

  function Next(l: Log, op: Op): Log
    requires WellFormed(l) && ValidOp(op)
  {
    match op
    case Drain(line, accepted) => Drained(l, line, accepted)
    case AckTo(to, fault) => Acked(l, to, fault)
    case Exit => Exited(l)
  }

  /** The bytes that an operation adds to the stream. */
  function Added(l: Log, op: Op): seq<byte>
    requires ValidOp(op)
  {
    if op.Drain? && l.draining && !l.closed && op.line != [] then (op.line + [NEWLINE])[..op.accepted] else []
  }

  /** The one branch of ack that renames the file and does not move the cursor or the handle. */
  predicate Strands(l: Log, op: Op) {
    op.AckTo? && op.fault == ReopenFails && Truncates(l, op.to)
  }

  /** Every operation keeps the log faithful to the stream, except the ack whose append handle
      cannot be re-opened. */
  lemma StepIsFaithfulExactlyWhen(l: Log, stream: seq<byte>, op: Op)
    requires Faithful(l, stream) && ValidOp(op)
    ensures WellFormed(Next(l, op))
    ensures Faithful(Next(l, op), stream + Added(l, op)) <==> !Strands(l, op)
    ensures l.base <= Next(l, op).base && l.offset <= Next(l, op).offset
  {
    match op
    case Drain(line, accepted) =>
      var more := Added(l, op);
      assert (stream + more)[l.base..l.offset + |more|] == stream[l.base..l.offset] + more;
      assert stream + [] == stream;
    case AckTo(to, fault) =>
      assert stream + [] == stream;
      if Truncates(l, to) {
        assert stream[l.base..l.offset][Clamped(l, to) - l.base..] == stream[Clamped(l, to)..l.offset];
      }
    case Exit =>
      assert stream + [] == stream;
  }

  // ---------------------------------------------------------------------------
  // Whole runs
  // ---------------------------------------------------------------------------

  ghost predicate Run(logs: seq<Log>, ops: seq<Op>) {
    && |logs| == |ops| + 1
    && WellFormed(logs[0])
    && (forall i :: 0 <= i < |ops| ==> ValidOp(ops[i]))
    && (forall i :: 0 <= i < |ops| ==> WellFormed(logs[i]) && logs[i + 1] == Next(logs[i], ops[i]))
  }

  /** The stream after the first `n` operations. */
  ghost function StreamAt(logs: seq<Log>, ops: seq<Op>, start: seq<byte>, n: nat): seq<byte>
    requires Run(logs, ops) && n <= |ops|
  {
    if n == 0 then start else StreamAt(logs, ops, start, n - 1) + Added(logs[n - 1], ops[n - 1])
  }

  /** Over any interleaving of appends (short ones too), acks and the exit, the log stands for
      the stream throughout exactly when no ack was stranded; and the cursors only grow. */
  lemma {:induction false} RunIsFaithfulExactlyWhen(logs: seq<Log>, ops: seq<Op>, start: seq<byte>, n: nat)
    requires Run(logs, ops) && Faithful(logs[0], start) && n <= |ops|
    ensures (forall k :: 0 <= k <= n ==> Faithful(logs[k], StreamAt(logs, ops, start, k))) <==>
            (forall k :: 0 <= k < n ==> !Strands(logs[k], ops[k]))
  {
    if n > 0 {
      RunIsFaithfulExactlyWhen(logs, ops, start, n - 1);
      if Faithful(logs[n - 1], StreamAt(logs, ops, start, n - 1)) {
        StepIsFaithfulExactlyWhen(logs[n - 1], StreamAt(logs, ops, start, n - 1), ops[n - 1]);
        assert Faithful(logs[n], StreamAt(logs, ops, start, n)) <==> !Strands(logs[n - 1], ops[n - 1]);
      }
      assert (forall k :: 0 <= k <= n ==> Faithful(logs[k], StreamAt(logs, ops, start, k))) <==>
             (forall k :: 0 <= k <= n - 1 ==> Faithful(logs[k], StreamAt(logs, ops, start, k))) &&
             Faithful(logs[n], StreamAt(logs, ops, start, n));
    }
  }

  lemma {:induction false} CursorsOnlyGrow(logs: seq<Log>, ops: seq<Op>, i: nat, j: nat)
    requires Run(logs, ops) && i <= j <= |ops|
    ensures logs[i].base <= logs[j].base && logs[i].offset <= logs[j].offset
    ensures logs[i].closed ==> logs[j].closed && logs[i].base == logs[j].base && logs[i].offset == logs[j].offset
  {
    if i < j {
      CursorsOnlyGrow(logs, ops, i, j - 1);
    }
  }

  /** What an operation hands to the drain: a line with its newline, or nothing. */
  function LineOf(op: Op): seq<byte> {
    if op.Drain? && op.line != [] then op.line + [NEWLINE] else []
  }

  function Lines(ops: seq<Op>): seq<byte> {
    if ops == [] then [] else Lines(ops[..|ops| - 1]) + LineOf(ops[|ops| - 1])
  }

  lemma AddedIsOfItsLine(l: Log, op: Op)
    requires WellFormed(l) && ValidOp(op) && (l.closed ==> !l.draining)
    ensures Added(l, op) <= LineOf(op)
    ensures Next(l, op).closed ==> !Next(l, op).draining
    ensures Next(l, op).draining ==> l.draining && Added(l, op) == LineOf(op)
    ensures !l.draining ==> Added(l, op) == []
  {
  }

  lemma PrefixGrows(s: seq<byte>, whole: seq<byte>, more: seq<byte>, line: seq<byte>)
    requires s <= whole && more <= line && (s == whole || more == [])
    ensures s + more <= whole + line
  {
    if more == [] {
      assert s + more == s;
    }
  }

  /** No line is dropped, repeated, reordered or torn: the stream is the lines handed to the
      drain, all of them while it runs, and a prefix of them once it has stopped. */
  lemma {:induction false} StreamIsTheLines(logs: seq<Log>, ops: seq<Op>, start: seq<byte>, n: nat)
    requires Run(logs, ops) && n <= |ops| && (logs[0].closed ==> !logs[0].draining)
    ensures logs[n].closed ==> !logs[n].draining
    ensures StreamAt(logs, ops, start, n) <= start + Lines(ops[..n])
    ensures logs[n].draining ==> StreamAt(logs, ops, start, n) == start + Lines(ops[..n])
  {
    if n == 0 {
      assert start + Lines(ops[..0]) == start;
    } else {
      StreamIsTheLines(logs, ops, start, n - 1);
      assert ops[..n][..n - 1] == ops[..n - 1];
      var whole := start + Lines(ops[..n - 1]);
      AddedIsOfItsLine(logs[n - 1], ops[n - 1]);
      PrefixGrows(StreamAt(logs, ops, start, n - 1), whole, Added(logs[n - 1], ops[n - 1]), LineOf(ops[n - 1]));
      assert start + Lines(ops[..n]) == whole + LineOf(ops[n - 1]);
    }
  }

  /** A read returns exactly the bytes of the stream from the clamped position on: it is
      refused only below the base, it is empty only when the reader has caught up, and it
      reports the end of the stream exactly there. */
  lemma ReadReturnsTheStream(l: Log, stream: seq<byte>, from: int, max: int, fault: Fault)
    requires Faithful(l, stream)
    ensures var r, start := Read(l, from, max, fault), Min(from, |stream|);
            && (r.error == Some(OffsetTruncated) <==> from < l.base)
            && (r.error.None? <==> from >= l.base && (start == |stream| || fault !in {OpenFails, SeekFails, ReadFails}))
            && (r.error.None? ==>
                  && start <= r.next <= |stream|
                  && r.data == stream[start..r.next]
                  && |r.data| <= (if max <= 0 then MAX_FRAME else max)
                  && (r.eof <==> r.next == |stream|)
                  && (r.data == [] ==> r.eof))
            && (r.error.Some? ==> r.data == [] && !r.eof)
  {
    if from >= l.base && from < |stream| {
      var pos := from - l.base;
      var want := Min(if max <= 0 then MAX_FRAME else max, |stream| - from);
      var file := l.inodes[l.path];
      assert file[pos..] == stream[from..];
      assert stream[from..][..want] == stream[from..from + want];
    }
  }

  // ---------------------------------------------------------------------------
  // The supervisor
  // ---------------------------------------------------------------------------

  class Supervisor {
    var inodes: map<nat, seq<byte>>
    var nextInode: nat
    var pathInode: nat
    var eventsFile: nat
    var offset: int
    var baseOffset: int
    var eventsClosed: bool
    var draining: bool
    var exited: bool
    var doneCloses: nat
    ghost var stream: seq<byte>

    ghost function View(): Log
      reads this
    {
      Log(inodes, nextInode, pathInode, eventsFile, baseOffset, offset, eventsClosed, draining)
    }

    ghost predicate Valid()
      reads this
    {
      && WellFormed(View())
      && doneCloses == (if exited then 1 else 0)
      && (eventsClosed <==> exited)
      && (exited ==> !draining)
    }

    constructor (existing: seq<byte>, sized: bool)
      ensures Valid() && View() == Opened(existing, sized) && stream == existing
    {
      inodes, nextInode, pathInode, eventsFile := map[0 := existing], 1, 0, 0;
      offset, baseOffset := 0, 0;
      if sized {
        offset := |existing|;
      }
      eventsClosed, draining, exited, doneCloses := false, true, false, 0;
      stream := existing;
    }

    method AppendEvents(out: seq<byte>, accepted: nat) returns (error: Option<LogError>)
      requires Valid() && accepted <= |out|
      modifies this`inodes, this`offset, this`stream
      ensures Valid() && View() == Appended(old(View()), out, accepted)
      ensures stream == old(stream) + if eventsClosed then [] else out[..accepted]
      ensures error.None? <==> !eventsClosed && accepted == |out|
    {
      if eventsClosed {
        stream := stream + [];
        return Some(Closed);
      }
      inodes := inodes[eventsFile := inodes[eventsFile] + out[..accepted]];
      offset := offset + accepted;
      stream := stream + out[..accepted];
      return if accepted < |out| then Some(ShortWrite) else None;
    }

    /** One round of the drain loop. */
    method DrainLine(line: seq<byte>, accepted: nat)
      requires Valid() && draining && accepted <= |line| + 1
      modifies this`inodes, this`offset, this`stream, this`draining
      ensures Valid() && View() == Next(old(View()), Drain(line, accepted))
      ensures stream == old(stream) + Added(old(View()), Drain(line, accepted))
    {
      if |line| == 0 {
        stream := stream + [];
        return;
      }
      var error := AppendEvents(line + [NEWLINE], accepted);
      if error.Some? {
        draining := false;
      }
    }

    method ReadAt(from: int, max: int, fault: Fault) returns (reply: Reply)
      requires Valid()
      ensures reply == Read(View(), from, max, fault)
    {
      if from < baseOffset {
        return Reply([], from, false, Some(OffsetTruncated));
      }
      var start := from;
      if start > offset {
        start := offset;
      }
      var limit := if max <= 0 then MAX_FRAME else max;
      var avail := offset - start;
      if avail <= 0 {
        return Reply([], start, true, None);
      }
      var want := avail;
      if limit < want {
        want := limit;
      }
      var diskPos := start - baseOffset;
      if fault in {OpenFails, SeekFails, ReadFails} {
        return Reply([], start, false, Some(Io(fault)));
      }
      var buf := Tail(inodes[pathInode], diskPos);
      if want < |buf| {
        buf := buf[..want];
      }
      if |buf| == 0 {
        return Reply([], start, false, Some(Io(ReadFails)));
      }
      var next := start + |buf|;
      return Reply(buf, next, next >= offset, None);
    }

    method Ack(to: int, fault: Fault) returns (base: int, error: Option<LogError>)
      requires Valid()
      modifies this`inodes, this`nextInode, this`pathInode, this`eventsFile, this`baseOffset
      ensures Valid() && View() == Next(old(View()), AckTo(to, fault))
      ensures base == baseOffset && error == AckError(old(View()), to, fault)
    {
      if eventsClosed {
        return baseOffset, Some(Closed);
      }
      var t := to;
      if t < baseOffset {
        t := baseOffset;
      }
      if t > offset {
        t := offset;
      }
      if t == baseOffset {
        return baseOffset, None;
      }
      error := Rewrite(t, fault);
      return baseOffset, error;
    }

    /** The tail from `t` on goes to a temporary file, which is renamed over the log; then the
        append handle is swapped. */
    method Rewrite(t: int, fault: Fault) returns (error: Option<LogError>)
      requires Valid() && !eventsClosed && baseOffset < t <= offset
      modifies this`inodes, this`nextInode, this`pathInode, this`eventsFile, this`baseOffset
      ensures Valid() && View() == Acked(old(View()), t, fault)
      ensures error == AckError(old(View()), t, fault)
    {
      if fault in {OpenFails, SeekFails, ReadFails} {
        return Some(Io(fault));
      }
      var tail := Tail(inodes[pathInode], t - baseOffset);
      if fault in {WriteTempFails, RenameFails} {
        return Some(Io(fault));
      }
      var temp := nextInode;
      inodes, nextInode := inodes[temp := tail], nextInode + 1;
      pathInode := temp;
      if fault == ReopenFails {
        return Some(Io(fault));
      }
      eventsFile := temp;
      baseOffset := t;
      return None;
    }

    /** However often it is called, the exit is announced once. */
    method FireExit()
      requires Valid()
      modifies this`exited, this`eventsClosed, this`draining, this`doneCloses
      ensures Valid() && View() == Next(old(View()), Exit)
      ensures exited && doneCloses == 1
    {
      draining := false;
      if !exited {
        exited := true;
        eventsClosed := true;
        doneCloses := doneCloses + 1;
      }
    }
  }
}
