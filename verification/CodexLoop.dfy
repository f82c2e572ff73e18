/** The codex session: one process per turn, one retry when a resumed thread turns out stale, a
    thread id that is persisted as soon as it is known, and one exit. */
module CodexLoop {
  import opened Text

  datatype Event = Result | Other

  /** A line of a turn's output: blank, unreadable, or events with a thread id if it carries one. */
  datatype Line = Blank | Garbled | Parsed(thread: string, events: seq<Event>)

  /** Where in an attempt the session is found to have been cancelled, if it is. */
  datatype Cancel = Never | BeforeRetry | BeforeResult | BeforeReturn

  /** What one attempt at a turn meets: `stale` is a process error that says that the thread to be
      resumed is gone, `timedOut` the watchdog's verdict. */
  datatype Attempt =
    | LaunchFails
    | Runs(lines: seq<Line>, stale: bool, timedOut: bool, cancel: Cancel)

  /** The session, and what it has done: processes launched, result events emitted, thread ids
      handed to the persist callback, stale ids reported, flags cleared, and the id that the
      callbacks have left on disk. */
  datatype State = State(
    threadId: string, persisted: bool, launches: nat, results: nat, persists: nat, stales: nat, clears: nat, durable: string)

  /** A session seeded with the thread of an earlier generation, or with none. */
  function Started(seed: string): State {
    State(seed, seed != "", 0, 0, 0, 0, 0, seed)
  }

  // ---------------------------------------------------------------------------
  // One attempt
  // ---------------------------------------------------------------------------

  function CountResults(events: seq<Event>): nat {
    if events == [] then 0 else CountResults(events[..|events| - 1]) + if events[|events| - 1].Result? then 1 else 0
  }

  /** The first thread id since the flag was cleared is persisted, a later one is not. */
  function Persisted(s: State, thread: string): State {
    if s.persisted then s else s.(persisted := true, persists := s.persists + 1, durable := thread)
  }

  function Took(s: State, line: Line): State {
    if !line.Parsed? then s
    else
      var named := if line.thread != "" then Persisted(s.(threadId := line.thread), line.thread) else s;
      named.(results := named.results + CountResults(line.events))
  }

  function Scanned(s: State, lines: seq<Line>): State {
    if lines == [] then s else Took(Scanned(s, lines[..|lines| - 1]), lines[|lines| - 1])
  }

  predicate SawResult(lines: seq<Line>) {
    exists i :: 0 <= i < |lines| && lines[i].Parsed? && Result in lines[i].events
  }

  /** The thread is forgotten, unless another one has been announced meanwhile. */
  function ClearedStale(s: State, thread: string): State {
    var t := s.(stales := s.stales + 1, durable := "");
    if s.threadId == thread then t.(threadId := "", persisted := false, clears := s.clears + 1) else t
  }

  predicate Retries(s: State, a: Attempt, retried: bool) {
    a.Runs? && !SawResult(a.lines) && a.cancel != BeforeRetry && s.threadId != "" && !retried && a.stale
  }

  predicate Synthesizes(a: Attempt) {
    a.Runs? && !SawResult(a.lines) && a.cancel != BeforeRetry && a.cancel != BeforeResult
  }

  /** The last attempt at a turn: the state it leaves and whether it is an error. */
  function LastAttempt(s: State, a: Attempt): (State, bool) {
    var launched := s.(launches := s.launches + 1);
    match a
    case LaunchFails => (launched, true)
    case Runs(lines, _, timedOut, cancel) =>
      var t := Scanned(launched, lines);
      (if Synthesizes(a) then t.(results := t.results + 1) else t, cancel == Never && timedOut)
  }

  /** A turn: the first attempt, and the second if the first met a stale thread. */
  function Turn(s: State, first: Attempt, second: Attempt): (State, bool) {
    if Retries(s, first, false) then
      LastAttempt(ClearedStale(Scanned(s.(launches := s.launches + 1), first.lines), s.threadId), second)
    else LastAttempt(s, first)
  }

  // ---------------------------------------------------------------------------
  // What every turn keeps
  // ---------------------------------------------------------------------------

  lemma {:induction false} CountedIfPresent(events: seq<Event>)
    ensures CountResults(events) > 0 <==> Result in events
  {
    if events != [] {
      CountedIfPresent(events[..|events| - 1]);
    }
  }

  lemma {:induction false} ScanKeeps(s: State, lines: seq<Line>)
    ensures var t := Scanned(s, lines);
            && t.launches == s.launches && t.stales == s.stales && t.clears == s.clears
            && t.results >= s.results && (t.results > s.results <==> SawResult(lines))
            && t.persists + (if s.persisted then 1 else 0) == s.persists + (if t.persisted then 1 else 0)
            && ((s.threadId != "" ==> s.persisted) ==> (t.threadId != "" ==> t.persisted))
  {
    if lines != [] {
      var n := |lines| - 1;
      ScanKeeps(s, lines[..n]);
      if lines[n].Parsed? {
        CountedIfPresent(lines[n].events);
      }
      assert forall i :: 0 <= i < n ==> lines[..n][i] == lines[i];
    }
  }

  /** A turn launches at most two processes, and a second only after a stale resume. */
  lemma AtMostTwoProcesses(s: State, first: Attempt, second: Attempt)
    ensures var t := Turn(s, first, second).0;
            s.launches + 1 <= t.launches <= s.launches + 2 && (t.launches == s.launches + 2 <==> Retries(s, first, false))
  {
    if first.Runs? { ScanKeeps(s.(launches := s.launches + 1), first.lines); }
    if Retries(s, first, false) && second.Runs? {
      var cleared := ClearedStale(Scanned(s.(launches := s.launches + 1), first.lines), s.threadId);
      ScanKeeps(cleared.(launches := cleared.launches + 1), second.lines);
    }
  }

  /** No turn is silent: it ends without a result event and without an error exactly when its last
      process ran without a result and the session was cancelled before one could be supplied. */
  lemma SilentExactlyWhenCancelled(s: State, first: Attempt, second: Attempt)
    ensures var (t, error) := Turn(s, first, second);
            var last := if Retries(s, first, false) then second else first;
            (t.results == s.results && !error <==>
               last.Runs? && !SawResult(last.lines) && (last.cancel == BeforeRetry || last.cancel == BeforeResult))
  {
    if first.Runs? { ScanKeeps(s.(launches := s.launches + 1), first.lines); }
    if Retries(s, first, false) && second.Runs? {
      var cleared := ClearedStale(Scanned(s.(launches := s.launches + 1), first.lines), s.threadId);
      ScanKeeps(cleared.(launches := cleared.launches + 1), second.lines);
    }
  }

  /** The books balance: what was persisted, plus the seed, is what was cleared plus what is known. */
  ghost predicate Balanced(s: State, seed: string) {
    && s.persists + (if seed != "" then 1 else 0) == s.clears + (if s.persisted then 1 else 0)
    && (s.threadId != "" ==> s.persisted)
    && s.clears <= s.stales
  }

  lemma TurnKeepsBalance(s: State, seed: string, first: Attempt, second: Attempt)
    requires Balanced(s, seed)
    ensures Balanced(Turn(s, first, second).0, seed)
  {
    if first.Runs? { ScanKeeps(s.(launches := s.launches + 1), first.lines); }
    if Retries(s, first, false) && second.Runs? {
      var cleared := ClearedStale(Scanned(s.(launches := s.launches + 1), first.lines), s.threadId);
      ScanKeeps(cleared.(launches := cleared.launches + 1), second.lines);
    }
  }

  // ---------------------------------------------------------------------------
  // The id on disk
  // ---------------------------------------------------------------------------

  /** While the id on disk is the session's, a line keeps it so exactly when it names no thread
      other than the one already known. */
  lemma LineKeepsDurableExactlyWhen(s: State, line: Line)
    requires s.durable == s.threadId && (s.threadId != "" <==> s.persisted)
    ensures Took(s, line).durable == Took(s, line).threadId <==>
            line.Parsed? && line.thread != "" && s.threadId != "" ==> line.thread == s.threadId
    ensures Took(s, line).threadId != "" <==> Took(s, line).persisted
  {
  }

  /** No thread is announced other than the one already known. */
  predicate SameThread(known: string, lines: seq<Line>)
    decreases |lines|
  {
    if lines == [] then true
    else if lines[0].Parsed? && lines[0].thread != "" then
      (known == "" || lines[0].thread == known) && SameThread(lines[0].thread, lines[1..])
    else SameThread(known, lines[1..])
  }

  lemma {:induction false} ScanFromFront(s: State, lines: seq<Line>)
    ensures lines != [] ==> Scanned(s, lines) == Scanned(Took(s, lines[0]), lines[1..])
  {
    if |lines| == 1 {
      assert lines[..0] == [] && lines[1..] == [];
      assert Scanned(s, lines[..0]) == s;
    } else if |lines| > 1 {
      var n := |lines| - 1;
      ScanFromFront(s, lines[..n]);
      assert lines[..n][1..] == lines[1..][..n - 1];
      assert lines[..n][0] == lines[0] && lines[1..][n - 1] == lines[n];
    }
  }

  lemma {:induction false} ScanKeepsDurable(s: State, lines: seq<Line>)
    requires s.durable == s.threadId && (s.threadId != "" <==> s.persisted) && SameThread(s.threadId, lines)
    ensures var t := Scanned(s, lines); t.durable == t.threadId && (t.threadId != "" <==> t.persisted)
    ensures s.threadId != "" ==> Scanned(s, lines).threadId == s.threadId
    decreases |lines|
  {
    if lines != [] {
      LineKeepsDurableExactlyWhen(s, lines[0]);
      ScanFromFront(s, lines);
      ScanKeepsDurable(Took(s, lines[0]), lines[1..]);
    }
  }

  predicate AttemptSameThread(known: string, a: Attempt) {
    a.Runs? ==> SameThread(known, a.lines)
  }

  /** As long as codex does not change a thread's id, a restart would resume the session's thread:
      the id on disk is the session's after every turn, also after a stale one was dropped. */
  lemma TurnKeepsDurable(s: State, first: Attempt, second: Attempt)
    requires s.durable == s.threadId && (s.threadId != "" <==> s.persisted)
    requires AttemptSameThread(s.threadId, first)
    requires AttemptSameThread(if Retries(s, first, false) then "" else s.threadId, second)
    ensures var t := Turn(s, first, second).0; t.durable == t.threadId && (t.threadId != "" <==> t.persisted)
  {
    var launched := s.(launches := s.launches + 1);
    if first.Runs? { ScanKeepsDurable(launched, first.lines); }
    if Retries(s, first, false) && second.Runs? {
      var cleared := ClearedStale(Scanned(launched, first.lines), s.threadId);
      ScanKeepsDurable(cleared.(launches := cleared.launches + 1), second.lines);
    }
  }

  // ---------------------------------------------------------------------------
  // The session
  // ---------------------------------------------------------------------------

  /** One message: the attempts it meets, and whether the session is cancelled by the time an
      error is looked at. */
  datatype Message = Message(first: Attempt, second: Attempt, cancelledAfter: bool)

  datatype Exit = Running | Clean | Fatal

  /** The state after the first messages and how the loop stands. */
  function Looped(s: State, messages: seq<Message>): (State, Exit) {
    if messages == [] then (s, Running)
    else
      var (before, exit) := Looped(s, messages[..|messages| - 1]);
      if exit != Running then (before, exit)
      else
        var m := messages[|messages| - 1];
        var (t, error) := Turn(before, m.first, m.second);
        (t, if !error then Running else if m.cancelledAfter then Clean else Fatal)
  }

  /** Over a whole session, persist calls are bounded by the stale threads dropped, and one more if
      the session did not start with a thread. */
  lemma {:induction false} PersistsAreBounded(seed: string, messages: seq<Message>)
    ensures Balanced(Looped(Started(seed), messages).0, seed)
    ensures var s := Looped(Started(seed), messages).0; s.persists <= s.stales + (if seed == "" then 1 else 0)
  {
    if messages != [] {
      var n := |messages| - 1;
      PersistsAreBounded(seed, messages[..n]);
      TurnKeepsBalance(Looped(Started(seed), messages[..n]).0, seed, messages[n].first, messages[n].second);
    }
  }

  /** Over a whole session, there are at most twice as many processes as messages. */
  lemma {:induction false} ProcessesAreBounded(seed: string, messages: seq<Message>)
    ensures Looped(Started(seed), messages).0.launches <= 2 * |messages|
  {
    if messages != [] {
      var n := |messages| - 1;
      ProcessesAreBounded(seed, messages[..n]);
      AtMostTwoProcesses(Looped(Started(seed), messages[..n]).0, messages[n].first, messages[n].second);
    }
  }

  class CodexSession {
    var s: State
    var closed: bool
    var exitFired: bool
    var exits: seq<Exit>

    ghost predicate Valid()
      reads this
    {
      (exitFired <==> |exits| == 1) && |exits| <= 1 && (exitFired ==> closed)
    }

    constructor (seed: string)
      ensures Valid() && s == Started(seed) && exits == []
    {
      s, closed, exitFired, exits := Started(seed), false, false, [];
    }

    method PersistThreadID(thread: string)
      modifies this`s
      ensures s == Persisted(old(s), thread)
    {
      var shouldPersist := !s.persisted;
      if shouldPersist {
        s := s.(persisted := true, persists := s.persists + 1, durable := thread);
      }
    }

    method ClearStaleThreadID(thread: string)
      modifies this`s
      ensures s == ClearedStale(old(s), thread)
    {
      if s.threadId == thread {
        s := s.(threadId := "", persisted := false, clears := s.clears + 1);
      }
      s := s.(stales := s.stales + 1, durable := "");
    }

    /** The loop over a line's events. */
    method Emit(events: seq<Event>) returns (sawResult: bool)
      modifies this`s
      ensures s == old(s).(results := old(s).results + CountResults(events))
      ensures sawResult <==> Result in events
    {
      sawResult := false;
      assert events[..0] == [];
      for n := 0 to |events|
        invariant s == old(s).(results := old(s).results + CountResults(events[..n]))
        invariant sawResult <==> Result in events[..n]
      {
        assert events[..n + 1][..n] == events[..n];
        if events[n].Result? {
          sawResult := true;
          s := s.(results := s.results + 1);
        }
      }
      assert events[..|events|] == events;
    }

    /** The loop over a turn's output. */
    method Scan(lines: seq<Line>) returns (sawResult: bool)
      modifies this`s
      ensures s == Scanned(old(s), lines)
      ensures sawResult <==> SawResult(lines)
    {
      sawResult := false;
      for n := 0 to |lines|
        invariant s == Scanned(old(s), lines[..n])
        invariant sawResult <==> SawResult(lines[..n])
      {
        OneMoreLine(lines, n);
        if lines[n].Parsed? {
          if lines[n].thread != "" {
            s := s.(threadId := lines[n].thread);
            PersistThreadID(lines[n].thread);
          }
          var saw := Emit(lines[n].events);
          sawResult := sawResult || saw;
        }
      }
      assert lines[..|lines|] == lines;
    }

    method RunTurnAttempt(a: Attempt, second: Attempt, retried: bool) returns (error: bool)
      modifies this`s
      ensures (s, error) == if retried then LastAttempt(old(s), a) else Turn(old(s), a, second)
      decreases if retried then 0 else 1
    {
      var thread := s.threadId;
      s := s.(launches := s.launches + 1);
      if a.LaunchFails? {
        return true;
      }
      var sawResult := Scan(a.lines);
      if !sawResult {
        if a.cancel != BeforeRetry && thread != "" && !retried && a.stale {
          ClearStaleThreadID(thread);
          error := RunTurnAttempt(second, second, true);
          return;
        }
        if a.cancel != BeforeRetry && a.cancel != BeforeResult {
          s := s.(results := s.results + 1);
        }
      }
      return a.cancel == Never && a.timedOut;
    }

    /** However often the end is reached, the exit is announced once. */
    method FireExit(how: Exit)
      requires Valid()
      modifies this`closed, this`exitFired, this`exits
      ensures Valid() && exitFired && closed
      ensures exits == if old(exitFired) then old(exits) else [how]
    {
      if !exitFired {
        exitFired := true;
        closed := true;
        exits := exits + [how];
      }
    }

    /** The run loop: messages are taken until an error or until the session is cancelled. */
    method RunLoop(messages: seq<Message>)
      requires Valid() && !exitFired
      modifies this
      ensures Valid()
      ensures s == Looped(old(s), messages).0
      ensures exits == [if Looped(old(s), messages).1 == Fatal then Fatal else Clean]
    {
      var n := 0;
      while n < |messages|
        invariant 0 <= n <= |messages|
        invariant Valid() && !exitFired
        invariant Looped(old(s), messages[..n]) == (s, Running)
      {
        assert messages[..n + 1][..n] == messages[..n];
        var error := RunTurnAttempt(messages[n].first, messages[n].second, false);
        if error {
          var how := if messages[n].cancelledAfter then Clean else Fatal;
          StoppedLoopStays(old(s), messages, n + 1, |messages|);
          FireExit(how);
          return;
        }
        n := n + 1;
      }
      assert messages[..n] == messages;
      FireExit(Clean);
    }
  }

  lemma OneMoreLine(lines: seq<Line>, n: nat)
    requires n < |lines|
    ensures lines[..n + 1][..n] == lines[..n]
    ensures SawResult(lines[..n + 1]) <==> SawResult(lines[..n]) || (lines[n].Parsed? && Result in lines[n].events)
  {
    var a, b := lines[..n], lines[..n + 1];
    assert forall i :: 0 <= i < n ==> a[i] == b[i];
    assert b[n] == lines[n];
    if SawResult(a) {
      var i :| 0 <= i < |a| && a[i].Parsed? && Result in a[i].events;
      assert b[i].Parsed? && Result in b[i].events;
    }
  }

  /** Once the loop has ended, no further message changes anything. */
  lemma {:induction false} StoppedLoopStays(s: State, messages: seq<Message>, m: nat, n: nat)
    requires m <= n <= |messages| && Looped(s, messages[..m]).1 != Running
    ensures Looped(s, messages[..n]) == Looped(s, messages[..m])
    ensures n == |messages| ==> Looped(s, messages) == Looped(s, messages[..m])
  {
    if m < n {
      StoppedLoopStays(s, messages, m, n - 1);
      assert messages[..n][..n - 1] == messages[..n - 1];
    }
    assert messages[..|messages|] == messages;
  }
}
