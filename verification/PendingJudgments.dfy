/** Executor results that wait for the supervisor's judgment: recorded durably, nudged on a slow
    schedule, escalated once, and dropped only when the center shows the task no longer running. */
module PendingJudgments {
  import opened Text
  import Keyed

  /** Times are in seconds. */
  const RECONCILE_EVERY := 30

  const NUDGE_INTERVAL := 120

  const MAX_NUDGES := 3

  /** `serial` and `nudgedAt` are history: which record the entry is of, and one time for each of
      its nudges that was counted. */
  datatype Entry = Entry(serial: nat, injectedAt: int, nudgeCount: nat, escalated: bool, nudgedAt: seq<int>)

  type Store = map<string, Entry>

  function Recorded(serial: nat, now: int): Entry {
    Entry(serial, now, 0, false, [])
  }

  function Nudged(e: Entry, now: int): Entry {
    e.(nudgeCount := e.nudgeCount + 1, nudgedAt := e.nudgedAt + [now])
  }

  datatype Decision = Drop | Skip | Nudge | Escalate

  /** What a sweep does about an entry as it was in the sweep's snapshot. */
  function Decide(e: Entry, stillRunning: bool, now: int): Decision {
    if !stillRunning then Drop
    else if e.escalated then Skip
    else if now - e.injectedAt < (e.nudgeCount + 1) * NUDGE_INTERVAL then Skip
    else if e.nudgeCount >= MAX_NUDGES then Escalate
    else Nudge
  }

  /** The store after one entry of the snapshot was dealt with. The decision is made on the
      snapshot; what is changed is the entry that the store holds by then. */
  function Processed(m: Store, task: string, snap: Entry, stillRunning: bool, now: int, injected: bool, fatal: bool): Store {
    match Decide(snap, stillRunning, now)
    case Drop => m - {task}
    case Skip => m
    case Nudge => if injected && task in m then m[task := Nudged(m[task], now)] else m
    case Escalate =>
      if task !in m then m
      else if fatal then m[task := Recorded(m[task].serial, now)]
      else m[task := m[task].(escalated := true)]
  }

  // ---------------------------------------------------------------------------
  // Runs: records and sweeps of any number of tasks, interleaved
  // ---------------------------------------------------------------------------

  datatype Snap = Snap(task: string, entry: Entry)

  /** A sweep under way: its time, what the center said is running, whether the store's snapshot
      has been taken since, and what is left of it. */
  datatype Sweep = Sweep(now: int, running: set<string>, snapped: bool, todo: seq<Snap>)

  datatype Event =
    | Dropped(task: string, running: set<string>)
    | Escalated(task: string, at: int, entry: Entry)
    | Restarted(task: string, at: int, entry: Entry)

  datatype State = State(clock: int, nextAt: int, nextSerial: nat, store: Store, sweep: Option<Sweep>, log: seq<Event>)

  datatype Step =
    | Record(task: string, now: int)
    | ReadCenter(now: int, read: Option<set<string>>)
    | TakeSnapshot(order: seq<string>)
    | Process(injected: bool)
    | EndSweep
    | RestartRuntime

  predicate Lists(order: seq<string>, m: Store) {
    (forall i, j :: 0 <= i < j < |order| ==> order[i] != order[j]) && (set t | t in order) == m.Keys
  }

  function SnapsOf(order: seq<string>, m: Store): seq<Snap>
    requires forall i :: 0 <= i < |order| ==> order[i] in m
  {
    seq(|order|, i requires 0 <= i < |order| => Snap(order[i], m[order[i]]))
  }

  predicate Enabled(s: State, step: Step) {
    match step
    case Record(_, now) => s.clock <= now
    case ReadCenter(now, _) => s.sweep.None? && s.store != map[] && s.clock <= now && s.nextAt <= now
    case TakeSnapshot(order) => s.sweep.Some? && !s.sweep.value.snapped && Lists(order, s.store)
    case Process(_) => s.sweep.Some? && s.sweep.value.snapped && s.sweep.value.todo != []
    case EndSweep => s.sweep.Some? && s.sweep.value.snapped && s.sweep.value.todo == []
    case RestartRuntime => true
  }

  function EventsOf(s: State, fatal: bool): seq<Event>
    requires s.sweep.Some? && s.sweep.value.todo != []
  {
    var w := s.sweep.value;
    var p := w.todo[0];
    match Decide(p.entry, p.task in w.running, w.now)
    case Drop => if p.task in s.store then [Dropped(p.task, w.running)] else []
    case Escalate =>
      if p.task !in s.store then [] else if fatal then [Restarted(p.task, w.now, s.store[p.task])] else [Escalated(p.task, w.now, s.store[p.task])]
    case _ => []
  }

  /** `fatal` says whether the runtime can restart its supervisor. */
  function Next(s: State, fatal: bool, step: Step): State
    requires Enabled(s, step)
  {
    match step
    case Record(task, now) => s.(clock := now, nextSerial := s.nextSerial + 1, store := s.store[task := Recorded(s.nextSerial, now)])
    case ReadCenter(now, read) =>
      var t := s.(clock := now, nextAt := now + RECONCILE_EVERY);
      if read.None? then t else t.(sweep := Some(Sweep(now, read.value, false, [])))
    case TakeSnapshot(order) => s.(sweep := Some(s.sweep.value.(snapped := true, todo := SnapsOf(order, s.store))))
    case Process(injected) =>
      var w := s.sweep.value;
      var p := w.todo[0];
      s.(store := Processed(s.store, p.task, p.entry, p.task in w.running, w.now, injected, fatal),
         sweep := Some(w.(todo := w.todo[1..])), log := s.log + EventsOf(s, fatal))
    case EndSweep => s.(sweep := None)
    case RestartRuntime => s.(sweep := None, nextAt := s.clock)
  }

  const START := State(0, 0, 0, map[], None, [])

  ghost predicate Run(states: seq<State>, fatal: bool, steps: seq<Step>) {
    && |states| == |steps| + 1 && states[0] == START
    && forall i :: 0 <= i < |steps| ==> Enabled(states[i], steps[i]) && states[i + 1] == Next(states[i], fatal, steps[i])
  }

  // ---------------------------------------------------------------------------
  // What leaves the store
  // ---------------------------------------------------------------------------

  ghost predicate OnlyJudgedDropped(s: State) {
    forall i :: 0 <= i < |s.log| && s.log[i].Dropped? ==> s.log[i].task !in s.log[i].running
  }

  /** A task leaves the store only in a sweep whose read of the center succeeded and did not show
      it running; and such a sweep's dealing with it always removes it. */
  lemma LeavesExactlyWhen(s: State, fatal: bool, step: Step, task: string)
    requires Enabled(s, step) && task in s.store
    ensures task !in Next(s, fatal, step).store <==>
            && step.Process? && s.sweep.value.todo[0].task == task
            && task !in s.sweep.value.running
  {
  }

  lemma {:induction false} OnlyJudgedLeave(states: seq<State>, fatal: bool, steps: seq<Step>, n: nat)
    requires Run(states, fatal, steps) && n < |states|
    ensures OnlyJudgedDropped(states[n])
  {
    if n > 0 {
      OnlyJudgedLeave(states, fatal, steps, n - 1);
      assert states[n] == Next(states[n - 1], fatal, steps[n - 1]);
    }
  }

  // ---------------------------------------------------------------------------
  // The schedule
  // ---------------------------------------------------------------------------

  /** Every nudge came in its time: the k-th at least k intervals after the injection. */
  ghost predicate InTime(e: Entry) {
    && |e.nudgedAt| == e.nudgeCount <= MAX_NUDGES
    && (forall k :: 0 <= k < |e.nudgedAt| ==> e.nudgedAt[k] >= e.injectedAt + (k + 1) * NUDGE_INTERVAL)
    && (e.escalated ==> e.nudgeCount == MAX_NUDGES)
  }

  /** The rest of the sweep's snapshot is what the store still holds. */
  ghost predicate SnapshotHolds(s: State) {
    s.sweep.Some? ==>
      && s.sweep.value.now <= s.clock
      && (forall i :: 0 <= i < |s.sweep.value.todo| ==> SnapHolds(s.store, s.sweep.value.todo[i]))
      && (forall i, j :: 0 <= i < j < |s.sweep.value.todo| ==> s.sweep.value.todo[i].task != s.sweep.value.todo[j].task)
  }

  predicate SnapHolds(m: Store, p: Snap) {
    p.task in m && m[p.task] == p.entry
  }

  ghost predicate StoreInTime(s: State) {
    forall task :: task in s.store ==> InTime(s.store[task]) && s.store[task].injectedAt <= s.clock
  }

  /** A restart came after the full schedule, and only after what was recorded since the last one. */
  ghost predicate RestartInTime(log: seq<Event>, j: nat)
    requires j < |log|
  {
    log[j].Restarted? ==>
      && InTime(log[j].entry) && log[j].entry.nudgeCount == MAX_NUDGES && !log[j].entry.escalated
      && log[j].at >= log[j].entry.injectedAt + (MAX_NUDGES + 1) * NUDGE_INTERVAL
      && forall i :: 0 <= i < j && log[i].Restarted? && log[i].task == log[j].task ==> log[i].at <= log[j].entry.injectedAt
  }

  ghost predicate RestartsInTime(s: State) {
    && (forall j :: 0 <= j < |s.log| ==> RestartInTime(s.log, j))
    && (forall i :: 0 <= i < |s.log| && s.log[i].Restarted? ==> s.log[i].at <= s.clock)
    && (forall i :: 0 <= i < |s.log| && s.log[i].Restarted? && s.log[i].task in s.store ==> s.log[i].at <= s.store[s.log[i].task].injectedAt)
  }

  ghost predicate Inv(s: State) {
    SnapshotHolds(s) && StoreInTime(s) && RestartsInTime(s)
  }

  /** No result is recorded for a task that the sweep under way has yet to deal with. */
  predicate Undisturbed(s: State, step: Step) {
    step.Record? && s.sweep.Some? ==> forall i :: 0 <= i < |s.sweep.value.todo| ==> s.sweep.value.todo[i].task != step.task
  }

  lemma ProcessKeepsStore(s: State, fatal: bool, injected: bool)
    requires Inv(s) && Enabled(s, Process(injected))
    ensures SnapshotHolds(Next(s, fatal, Process(injected))) && StoreInTime(Next(s, fatal, Process(injected)))
  {
    var w := s.sweep.value;
    assert SnapHolds(s.store, w.todo[0]);
    assert forall i :: 0 <= i < |w.todo[1..]| ==> w.todo[1..][i] == w.todo[i + 1];
  }

  lemma ProcessKeepsLog(s: State, fatal: bool, injected: bool)
    requires Inv(s) && Enabled(s, Process(injected))
    ensures RestartsInTime(Next(s, fatal, Process(injected)))
  {
    var t, p := Next(s, fatal, Process(injected)), s.sweep.value.todo[0];
    assert SnapHolds(s.store, p);
    assert InTime(s.store[p.task]);
    forall j | 0 <= j < |t.log| ensures RestartInTime(t.log, j) {
      if j < |s.log| {
        assert RestartInTime(s.log, j);
      }
    }
  }

  lemma StepKeepsInv(s: State, fatal: bool, step: Step)
    requires Inv(s) && Enabled(s, step) && Undisturbed(s, step)
    ensures Inv(Next(s, fatal, step))
  {
    match step
    case Process(injected) =>
      ProcessKeepsStore(s, fatal, injected);
      ProcessKeepsLog(s, fatal, injected);
    case TakeSnapshot(order) =>
      forall i | 0 <= i < |order| ensures order[i] in s.store {
        assert order[i] in (set t | t in order);
      }
    case _ =>
  }

  ghost predicate UndisturbedTo(states: seq<State>, steps: seq<Step>, n: nat)
    requires |states| == |steps| + 1 && n <= |steps|
  {
    forall i :: 0 <= i < n ==> Undisturbed(states[i], steps[i])
  }

  lemma {:induction false} RunKeepsInv(states: seq<State>, fatal: bool, steps: seq<Step>, n: nat)
    requires Run(states, fatal, steps) && n < |states| && UndisturbedTo(states, steps, n)
    ensures Inv(states[n])
  {
    if n > 0 {
      RunKeepsInv(states, fatal, steps, n - 1);
      StepKeepsInv(states[n - 1], fatal, steps[n - 1]);
    }
  }

  /** In every undisturbed run no record gets more than three nudges, and each comes in its time. */
  lemma NudgesInTime(states: seq<State>, fatal: bool, steps: seq<Step>, n: nat, task: string)
    requires Run(states, fatal, steps) && n < |states| && UndisturbedTo(states, steps, n) && task in states[n].store
    ensures InTime(states[n].store[task])
  {
    RunKeepsInv(states, fatal, steps, n);
  }

  /** With the fatal hook, two restarts for a task are at least eight minutes apart, with exactly
      three nudges in between, each in its time. */
  lemma RestartsAreFarApart(states: seq<State>, steps: seq<Step>, n: nat, i: nat, j: nat)
    requires Run(states, true, steps) && n < |states| && UndisturbedTo(states, steps, n) && i < j < |states[n].log|
    requires states[n].log[i].Restarted? && states[n].log[j].Restarted? && states[n].log[i].task == states[n].log[j].task
    ensures states[n].log[j].at - states[n].log[i].at >= 8 * 60
    ensures var e := states[n].log[j].entry;
            |e.nudgedAt| == 3 && forall k :: 0 <= k < 3 ==> states[n].log[i].at + (k + 1) * 2 * 60 <= e.nudgedAt[k]
  {
    RunKeepsInv(states, true, steps, n);
    assert RestartInTime(states[n].log, j);
  }

  // ---------------------------------------------------------------------------
  // Records and what becomes of them, in every run
  // ---------------------------------------------------------------------------

  /** The entry is as the sweep's snapshot has it, or of a newer record that no sweep has touched. */
  predicate Untouched(m: Store, p: Snap) {
    p.task in m ==>
      m[p.task] == p.entry || (m[p.task].serial > p.entry.serial && m[p.task] == Recorded(m[p.task].serial, m[p.task].injectedAt))
  }

  ghost predicate SnapshotUntouched(s: State) {
    s.sweep.Some? ==>
      && (forall i :: 0 <= i < |s.sweep.value.todo| ==> Untouched(s.store, s.sweep.value.todo[i]) && s.sweep.value.todo[i].entry.serial < s.nextSerial)
      && (forall i, j :: 0 <= i < j < |s.sweep.value.todo| ==> s.sweep.value.todo[i].task != s.sweep.value.todo[j].task)
  }

  ghost predicate SerialsGrow(s: State) {
    forall task :: task in s.store ==> s.store[task].serial < s.nextSerial
  }

  /** An escalated record that is still in the store is marked, and no record is escalated twice. */
  ghost predicate EscalatedOnce(s: State) {
    && (forall i :: 0 <= i < |s.log| && s.log[i].Escalated? ==> s.log[i].entry.serial < s.nextSerial)
    && (forall i, task ::
          0 <= i < |s.log| && s.log[i].Escalated? && task in s.store && s.store[task].serial == s.log[i].entry.serial ==> s.store[task].escalated)
    && (forall i, j :: 0 <= i < j < |s.log| && s.log[i].Escalated? && s.log[j].Escalated? ==> s.log[i].entry.serial != s.log[j].entry.serial)
  }

  ghost predicate OneTaskEach(m: Store) {
    forall t, u :: t in m && u in m && m[t].serial == m[u].serial ==> t == u
  }

  ghost predicate RecordInv(s: State) {
    SnapshotUntouched(s) && SerialsGrow(s) && OneTaskEach(s.store)
  }

  lemma StepKeepsRecords(s: State, fatal: bool, step: Step)
    requires RecordInv(s) && Enabled(s, step)
    ensures RecordInv(Next(s, fatal, step))
  {
    match step
    case TakeSnapshot(order) =>
      forall i | 0 <= i < |order| ensures order[i] in s.store {
        assert order[i] in (set t | t in order);
      }
    case Process(_) =>
      var w := s.sweep.value;
      assert Untouched(s.store, w.todo[0]);
      assert forall i :: 0 <= i < |w.todo[1..]| ==> w.todo[1..][i] == w.todo[i + 1];
    case _ =>
  }

  /** A sweep touches one entry, and logs the escalation of it as it was. */
  lemma ProcessMarksWhatItEscalates(s: State, injected: bool, task: string)
    requires RecordInv(s) && Enabled(s, Process(injected)) && task in Next(s, false, Process(injected)).store
    ensures var t := Next(s, false, Process(injected));
            && HeldAt(s, task, t.store[task].serial) && (s.store[task].escalated ==> t.store[task].escalated)
            && (t.log != s.log && t.log[|s.log|].Escalated? && t.log[|s.log|].entry.serial == t.store[task].serial ==> t.store[task].escalated)
  {
    assert Untouched(s.store, s.sweep.value.todo[0]);
  }

  lemma ProcessLogsAtMostOnce(s: State, injected: bool)
    requires RecordInv(s) && Enabled(s, Process(injected))
    ensures var t := Next(s, false, Process(injected));
            t.log == s.log || (
              && |t.log| == |s.log| + 1 && t.log[..|s.log|] == s.log
              && (var x := t.log[|s.log|];
                  x.Escalated? ==> x.task in s.store && s.store[x.task] == x.entry && !x.entry.escalated))
  {
    assert Untouched(s.store, s.sweep.value.todo[0]);
  }

  lemma ProcessEscalatesOnce(s: State, injected: bool)
    requires RecordInv(s) && EscalatedOnce(s) && Enabled(s, Process(injected))
    ensures EscalatedOnce(Next(s, false, Process(injected)))
  {
    var t := Next(s, false, Process(injected));
    ProcessLogsAtMostOnce(s, injected);
    forall i, task | 0 <= i < |t.log| && t.log[i].Escalated? && task in t.store && t.store[task].serial == t.log[i].entry.serial
      ensures t.store[task].escalated
    {
      ProcessMarksWhatItEscalates(s, injected, task);
    }
  }

  lemma StepEscalatesOnce(s: State, step: Step)
    requires RecordInv(s) && EscalatedOnce(s) && Enabled(s, step)
    ensures EscalatedOnce(Next(s, false, step))
  {
    if step.Process? {
      ProcessEscalatesOnce(s, step.injected);
    }
  }

  lemma {:induction false} RunKeepsRecords(states: seq<State>, fatal: bool, steps: seq<Step>, n: nat)
    requires Run(states, fatal, steps) && n < |states|
    ensures RecordInv(states[n])
    ensures !fatal ==> EscalatedOnce(states[n])
  {
    if n > 0 {
      RunKeepsRecords(states, fatal, steps, n - 1);
      StepKeepsRecords(states[n - 1], fatal, steps[n - 1]);
      if !fatal {
        StepEscalatesOnce(states[n - 1], steps[n - 1]);
      }
    }
  }

  /** No result was recorded for the task by the steps from `k` on and before `n`. */
  predicate NoRecordBetween(steps: seq<Step>, k: nat, n: nat, task: string)
    requires k <= n <= |steps|
  {
    forall i :: k <= i < n ==> !(steps[i].Record? && steps[i].task == task)
  }

  predicate HeldAt(s: State, task: string, serial: nat) {
    task in s.store && s.store[task].serial == serial
  }

  /** Only recording brings a new record in, under a new serial. */
  lemma StepKeepsSerial(s: State, fatal: bool, step: Step, task: string)
    requires Enabled(s, step) && task in Next(s, fatal, step).store
    ensures var t := Next(s, fatal, step);
            if step.Record? && step.task == task then t.store[task].serial == s.nextSerial
            else HeldAt(s, task, t.store[task].serial)
  {
  }

  lemma {:induction false} SerialsOnlyGrow(states: seq<State>, fatal: bool, steps: seq<Step>, k: nat, n: nat)
    requires Run(states, fatal, steps) && k <= n < |states|
    ensures states[k].nextSerial <= states[n].nextSerial
    decreases n
  {
    if k < n {
      SerialsOnlyGrow(states, fatal, steps, k, n - 1);
      assert states[n] == Next(states[n - 1], fatal, steps[n - 1]);
    }
  }

  /** A record made since has a serial that no earlier entry has. */
  lemma {:induction false} RecordedSince(states: seq<State>, fatal: bool, steps: seq<Step>, k: nat, n: nat, task: string)
    requires Run(states, fatal, steps) && k <= n < |states| && task in states[n].store
    ensures if NoRecordBetween(steps, k, n, task) then HeldAt(states[k], task, states[n].store[task].serial)
            else states[n].store[task].serial >= states[k].nextSerial
    decreases n
  {
    if k < n {
      StepKeepsSerial(states[n - 1], fatal, steps[n - 1], task);
      if steps[n - 1].Record? && steps[n - 1].task == task {
        SerialsOnlyGrow(states, fatal, steps, k, n - 1);
      } else {
        RecordedSince(states, fatal, steps, k, n - 1, task);
        assert NoRecordBetween(steps, k, n, task) <==> NoRecordBetween(steps, k, n - 1, task);
      }
    }
  }

  /** What the store holds for a task is of the record that it held earlier exactly when none was
      made in between, restarts, sweeps and escalations notwithstanding. */
  lemma SameRecordExactlyWhen(states: seq<State>, fatal: bool, steps: seq<Step>, k: nat, n: nat, task: string)
    requires Run(states, fatal, steps) && k <= n < |states| && task in states[n].store
    ensures HeldAt(states[k], task, states[n].store[task].serial) <==> NoRecordBetween(steps, k, n, task)
  {
    RunKeepsRecords(states, fatal, steps, k);
    RecordedSince(states, fatal, steps, k, n, task);
  }

  predicate SweepingFrom(states: seq<State>, k: nat, n: nat)
    requires k <= n < |states|
  {
    forall i :: k < i <= n ==> states[i].sweep.Some?
  }

  lemma {:induction false} SweepKeepsItsRead(states: seq<State>, fatal: bool, steps: seq<Step>, k: nat, n: nat)
    requires Run(states, fatal, steps) && k < n < |states| && SweepingFrom(states, k, n)
    requires steps[k].ReadCenter? && steps[k].read.Some?
    ensures states[n].sweep.value.running == steps[k].read.value
    decreases n
  {
    assert states[n] == Next(states[n - 1], fatal, steps[n - 1]);
    if k < n - 1 {
      SweepKeepsItsRead(states, fatal, steps, k, n - 1);
    }
  }

  /** Over every run, what a sweep drops is of the record that the store held when the center was
      read, and did not show the task running, exactly when nothing was recorded for the task since. */
  lemma DroppedIsJudgedExactlyWhen(states: seq<State>, fatal: bool, steps: seq<Step>, k: nat, n: nat, task: string)
    requires Run(states, fatal, steps) && k < n < |steps| && SweepingFrom(states, k, n)
    requires steps[k].ReadCenter? && steps[k].read.Some?
    requires task in states[n].store && task !in states[n + 1].store
    ensures task !in steps[k].read.value
    ensures HeldAt(states[k], task, states[n].store[task].serial) <==> NoRecordBetween(steps, k, n, task)
  {
    SweepKeepsItsRead(states, fatal, steps, k, n);
    assert states[n + 1] == Next(states[n], fatal, steps[n]);
    SameRecordExactlyWhen(states, fatal, steps, k, n, task);
  }

  /** The condition is needed: a result recorded after the center was read, and before the sweep
      took its snapshot, is dropped without anybody having judged it. */
  lemma FreshResultIsDropped() returns (states: seq<State>, steps: seq<Step>)
    ensures Run(states, false, steps) && |states| == 6
    ensures steps[1] == ReadCenter(120, Some({"u"})) && steps[2] == Record("t", 121)
    ensures "t" in states[4].store && "t" !in states[5].store
  {
    var order := ["t", "u"];
    steps := [Record("u", 0), ReadCenter(120, Some({"u"})), Record("t", 121), TakeSnapshot(order), Process(true)];
    var s1 := Next(START, false, steps[0]);
    assert "u" in s1.store;
    var s2 := Next(s1, false, steps[1]);
    var s3 := Next(s2, false, steps[2]);
    assert (set t | t in order) == s3.store.Keys;
    assert "t" in s3.store && "u" in s3.store;
    var s4 := Next(s3, false, steps[3]);
    assert s4.sweep.Some? && |s4.sweep.value.todo| == 2 && s4.sweep.value.todo[0].task == "t";
    var s5 := Next(s4, false, steps[4]);
    states := [START, s1, s2, s3, s4, s5];
  }

  /** Over every run without the fatal hook no record is escalated twice. */
  lemma EscalatedAtMostOnce(states: seq<State>, steps: seq<Step>, n: nat, i: nat, j: nat)
    requires Run(states, false, steps) && n < |states| && i < j < |states[n].log|
    requires states[n].log[i].Escalated? && states[n].log[j].Escalated?
    ensures states[n].log[i].entry.serial != states[n].log[j].entry.serial
  {
    RunKeepsRecords(states, false, steps, n);
  }

  /** A sweep that comes to an escalated entry can only drop it. */
  lemma StepLeavesEscalated(s: State, fatal: bool, step: Step, task: string)
    requires RecordInv(s) && Enabled(s, step) && task in s.store && s.store[task].escalated
    ensures HeldAt(Next(s, fatal, step), task, s.store[task].serial) ==> Next(s, fatal, step).store[task] == s.store[task]
    ensures step.Process? && s.sweep.value.todo[0].task == task ==>
              var p := s.sweep.value.todo[0]; Decide(p.entry, task in s.sweep.value.running, s.sweep.value.now) in {Drop, Skip}
  {
    if step.Process? {
      assert Untouched(s.store, s.sweep.value.todo[0]);
    }
  }

  lemma {:induction false} EscalatedStays(states: seq<State>, fatal: bool, steps: seq<Step>, k: nat, n: nat, task: string)
    requires Run(states, fatal, steps) && k <= n < |states|
    requires task in states[k].store && states[k].store[task].escalated && HeldAt(states[n], task, states[k].store[task].serial)
    ensures states[n].store[task] == states[k].store[task]
    decreases n
  {
    if k < n {
      StillHeldBefore(states, fatal, steps, k, n, task);
      EscalatedStays(states, fatal, steps, k, n - 1, task);
      RunKeepsRecords(states, fatal, steps, n - 1);
      StepLeavesEscalated(states[n - 1], fatal, steps[n - 1], task);
    }
  }

  lemma StillHeldBefore(states: seq<State>, fatal: bool, steps: seq<Step>, k: nat, n: nat, task: string)
    requires Run(states, fatal, steps) && k < n < |states| && task in states[n].store
    requires HeldAt(states[k], task, states[n].store[task].serial)
    ensures HeldAt(states[n - 1], task, states[n].store[task].serial)
  {
    SameRecordExactlyWhen(states, fatal, steps, k, n, task);
    SameRecordExactlyWhen(states, fatal, steps, n - 1, n, task);
  }

  /** Over every run an escalated record is left alone: as long as the store holds it, its entry
      stays as it is, and no sweep decides to nudge, escalate or restart for it. */
  lemma EscalatedIsSilent(states: seq<State>, fatal: bool, steps: seq<Step>, k: nat, n: nat, task: string)
    requires Run(states, fatal, steps) && k <= n < |steps|
    requires task in states[k].store && states[k].store[task].escalated && HeldAt(states[n], task, states[k].store[task].serial)
    ensures states[n].store[task] == states[k].store[task]
    ensures steps[n].Process? && states[n].sweep.value.todo[0].task == task ==>
              var w := states[n].sweep.value; Decide(w.todo[0].entry, task in w.running, w.now) in {Drop, Skip}
  {
    EscalatedStays(states, fatal, steps, k, n, task);
    RunKeepsRecords(states, fatal, steps, n);
    StepLeavesEscalated(states[n], fatal, steps[n], task);
  }

  // ---------------------------------------------------------------------------
  // The schedule, exactly
  // ---------------------------------------------------------------------------

  ghost predicate OnSchedule(m: Store) {
    forall task :: task in m ==> InTime(m[task])
  }

  /** What the sweep decided on its snapshot is still due for the entry that the store holds. */
  predicate StillDue(s: State, fatal: bool, step: Step) {
    step.Process? && Enabled(s, step) && s.sweep.value.todo[0].task in s.store ==>
      var w := s.sweep.value;
      var p := w.todo[0];
      var held := s.store[p.task];
      match Decide(p.entry, p.task in w.running, w.now)
      case Nudge => step.injected ==> Decide(held, true, w.now) == Nudge
      case Escalate => !fatal ==> held.nudgeCount >= MAX_NUDGES
      case _ => true
  }

  /** A nudge is in time exactly when the entry that is nudged is due for one. */
  lemma NudgeInTimeExactlyWhen(e: Entry, now: int)
    requires InTime(e)
    ensures InTime(Nudged(e, now)) <==> Decide(e, true, now) == Nudge
  {
    assert Nudged(e, now).nudgedAt[e.nudgeCount] == now;
  }

  lemma OneEntryChanges(m: Store, n: Store, task: string)
    requires OnSchedule(m) && task in m && n.Keys <= m.Keys
    requires forall t :: t in n && t != task ==> n[t] == m[t]
    ensures OnSchedule(n) <==> (task in n ==> InTime(n[task]))
  {
  }

  lemma StepKeepsScheduleExactlyWhen(s: State, fatal: bool, step: Step)
    requires OnSchedule(s.store) && Enabled(s, step)
    ensures OnSchedule(Next(s, fatal, step).store) <==> StillDue(s, fatal, step)
  {
    if step.Process? {
      var w := s.sweep.value;
      var p := w.todo[0];
      if p.task in s.store {
        NudgeInTimeExactlyWhen(s.store[p.task], w.now);
        OneEntryChanges(s.store, Next(s, fatal, step).store, p.task);
      }
    }
  }

  /** Over any run every entry keeps its schedule throughout exactly when every decision that was
      carried out was still due for the entry it fell on. */
  lemma {:induction false} ScheduleKeptExactlyWhen(states: seq<State>, fatal: bool, steps: seq<Step>, n: nat)
    requires Run(states, fatal, steps) && n < |states|
    ensures (forall k :: 0 <= k <= n ==> OnSchedule(states[k].store)) <==> (forall k :: 0 <= k < n ==> StillDue(states[k], fatal, steps[k]))
  {
    if n > 0 {
      ScheduleKeptExactlyWhen(states, fatal, steps, n - 1);
      assert Enabled(states[n - 1], steps[n - 1]) && states[n] == Next(states[n - 1], fatal, steps[n - 1]);
      if OnSchedule(states[n - 1].store) {
        StepKeepsScheduleExactlyWhen(states[n - 1], fatal, steps[n - 1]);
      }
      assert (forall k :: 0 <= k <= n ==> OnSchedule(states[k].store)) <==>
             (forall k :: 0 <= k <= n - 1 ==> OnSchedule(states[k].store)) && OnSchedule(states[n].store);
    }
  }

  /** Without the condition the schedule can be broken: a result that is recorded while a sweep
      still holds the older one is nudged, and its nudge counted, at once. */
  lemma DisturbedNudgeIsEarly() returns (states: seq<State>, steps: seq<Step>)
    ensures Run(states, false, steps) && |states| == 6
    ensures "t" in states[5].store && states[5].store["t"] == Entry(1, 120, 1, false, [120])
    ensures !InTime(states[5].store["t"])
  {
    var order := ["t"];
    steps := [Record("t", 0), ReadCenter(120, Some({"t"})), TakeSnapshot(order), Record("t", 120), Process(true)];
    var s1 := Next(START, false, steps[0]);
    assert "t" in s1.store;
    var s2 := Next(s1, false, steps[1]);
    assert (set t | t in order) == s2.store.Keys;
    var s3 := Next(s2, false, steps[2]);
    assert s3.sweep.Some? && |s3.sweep.value.todo| == 1;
    var s4 := Next(s3, false, steps[3]);
    var s5 := Next(s4, false, steps[4]);
    states := [START, s1, s2, s3, s4, s5];
    assert s5.store["t"].nudgedAt[0] == 120;
  }

  // ---------------------------------------------------------------------------
  // The store object and its sweep
  // ---------------------------------------------------------------------------

  /** What a sweep that nothing disturbs leaves of an entry. */
  function EntryAfter(e: Entry, stillRunning: bool, now: int, injected: bool, fatal: bool): Option<Entry> {
    match Decide(e, stillRunning, now)
    case Drop => None
    case Skip => Some(e)
    case Nudge => Some(if injected then Nudged(e, now) else e)
    case Escalate => Some(if fatal then Recorded(e.serial, now) else e.(escalated := true))
  }

  ghost predicate SweptTask(before: Store, after: Store, task: string, running: set<string>, now: int, injected: string -> bool, fatal: bool)
    requires task in before
  {
    var e := EntryAfter(before[task], task in running, now, injected(task), fatal);
    if e.Some? then task in after && after[task] == e.value else task !in after
  }

  ghost predicate Swept(before: Store, after: Store, running: set<string>, now: int, injected: string -> bool, fatal: bool) {
    after.Keys <= before.Keys && forall task :: task in before ==> SweptTask(before, after, task, running, now, injected, fatal)
  }

  /** Half-way through a sweep: what is still to do is as it was, the rest is dealt with. */
  ghost predicate SweptSoFar(before: Store, m: Store, todo: set<string>, running: set<string>, now: int, injected: string -> bool, fatal: bool) {
    && todo <= before.Keys && m.Keys <= before.Keys
    && (forall task :: task in todo ==> task in m && m[task] == before[task])
    && (forall task :: task in before && task !in todo ==> SweptTask(before, m, task, running, now, injected, fatal))
  }

  lemma SweptOneMore(before: Store, m: Store, todo: set<string>, task: string, running: set<string>, now: int, injected: string -> bool, fatal: bool)
    requires SweptSoFar(before, m, todo, running, now, injected, fatal) && task in todo
    ensures SweptSoFar(before, Processed(m, task, before[task], task in running, now, injected(task), fatal), todo - {task}, running, now, injected, fatal)
  {
    var n := Processed(m, task, before[task], task in running, now, injected(task), fatal);
    assert forall t :: t != task ==> (t in n <==> t in m) && (t in m ==> n[t] == m[t]);
    forall t | t in before && t !in todo - {task} ensures SweptTask(before, n, t, running, now, injected, fatal) {
      assert t != task ==> SweptTask(before, m, t, running, now, injected, fatal);
    }
  }

  class PendingStore {
    var m: Store
    var nextReconcileAt: int
    var nextSerial: nat

    constructor (loaded: Store, serial: nat)
      ensures m == loaded && nextReconcileAt == 0 && nextSerial == serial
    {
      m, nextReconcileAt, nextSerial := loaded, 0, serial;
    }

    method Record(task: string, now: int)
      modifies this`m, this`nextSerial
      ensures m == old(m)[task := Recorded(old(nextSerial), now)] && nextSerial == old(nextSerial) + 1
    {
      m := m[task := Entry(nextSerial, now, 0, false, [])];
      nextSerial := nextSerial + 1;
    }

    method Remove(task: string)
      modifies this`m
      ensures m == old(m) - {task}
    {
      if task !in m {
        return;
      }
      m := m - {task};
    }

    method BumpNudge(task: string, now: int) returns (count: nat)
      modifies this`m
      ensures m == if task in old(m) then old(m)[task := Nudged(old(m)[task], now)] else old(m)
      ensures count == if task in m then m[task].nudgeCount else 0
    {
      if task !in m {
        return 0;
      }
      var e := m[task];
      m := m[task := e.(nudgeCount := e.nudgeCount + 1, nudgedAt := e.nudgedAt + [now])];
      return m[task].nudgeCount;
    }

    method MarkEscalated(task: string)
      modifies this`m
      ensures m == if task in old(m) then old(m)[task := old(m)[task].(escalated := true)] else old(m)
    {
      if task in m {
        m := m[task := m[task].(escalated := true)];
      }
    }

    method ResetForSupervisorRecovery(task: string, now: int)
      modifies this`m
      ensures m == if task in old(m) then old(m)[task := Recorded(old(m)[task].serial, now)] else old(m)
    {
      if task in m {
        m := m[task := m[task].(injectedAt := now, nudgeCount := 0, escalated := false, nudgedAt := [])];
      }
    }

    method ProcessOne(p: Snap, stillRunning: bool, now: int, injected: bool, fatal: bool)
      modifies this`m
      ensures m == Processed(old(m), p.task, p.entry, stillRunning, now, injected, fatal)
    {
      if !stillRunning {
        Remove(p.task);
        return;
      }
      if p.entry.escalated {
        return;
      }
      if now - p.entry.injectedAt < (p.entry.nudgeCount + 1) * NUDGE_INTERVAL {
        return;
      }
      if p.entry.nudgeCount >= MAX_NUDGES {
        if fatal {
          ResetForSupervisorRecovery(p.task, now);
        } else {
          MarkEscalated(p.task);
        }
        return;
      }
      if injected {
        var count := BumpNudge(p.task, now);
      }
    }

    /** A sweep that nothing disturbs, over its own snapshot in the order of the task names. `read`
        is what the center said is running, if it answered. */
    method Reconcile(now: int, read: Option<set<string>>, injected: string -> bool, fatal: bool)
      modifies this`m, this`nextReconcileAt
      ensures |old(m)| == 0 || now < old(nextReconcileAt) ==> m == old(m) && nextReconcileAt == old(nextReconcileAt)
      ensures |old(m)| != 0 && now >= old(nextReconcileAt) ==>
                && nextReconcileAt == now + RECONCILE_EVERY
                && if read.None? then m == old(m) else Swept(old(m), m, read.value, now, injected, fatal)
    {
      if |m| == 0 || now < nextReconcileAt {
        return;
      }
      nextReconcileAt := now + RECONCILE_EVERY;
      if read.None? {
        return;
      }
      var snapshot, todo := m, m.Keys;
      while todo != {}
        invariant SweptSoFar(snapshot, m, todo, read.value, now, injected, fatal)
        invariant nextReconcileAt == now + RECONCILE_EVERY
        decreases |todo|
      {
        var task := Keyed.LeastKey(todo);
        SweptOneMore(snapshot, m, todo, task, read.value, now, injected, fatal);
        ProcessOne(Snap(task, snapshot[task]), task in read.value, now, injected(task), fatal);
        todo := todo - {task};
      }
    }
  }
}
