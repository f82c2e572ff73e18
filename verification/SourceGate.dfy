/** The repo-source gate: spawns that find no fresh source wait at the gate, one background
    episode per repository materializes it, and then serves everyone who waited. */
module SourceGate {
  import opened Text

  /** A repository's state at the gate. `gen` tells an entry from a later one under its key. */
  datatype Entry = Entry(gen: nat, ready: Option<nat>, readyAt: int, inflight: bool, waiters: set<string>)

  type Gate = map<string, Entry>

  datatype Outcome = Redriven(task: string) | FailedLoudly(task: string)

  /** The waiters that one episode took from the gate, whether a usable source was left, and
      what became of them so far. */
  datatype Batch = Batch(key: string, queue: seq<string>, usable: bool, outcomes: seq<Outcome>, over: bool)

  /** A background goroutine between its spawn and its end. */
  datatype Worker =
    | Starting(key: string, gen: nat, task: string)
    | Fetching(key: string)
    | Serving(batch: nat)

  datatype State = State(gate: Gate, nextGen: nat, workers: map<nat, Worker>, batches: seq<Batch>, stopping: bool, stopped: bool)

  // ---------------------------------------------------------------------------
  // The gate's critical sections
  // ---------------------------------------------------------------------------

  function EntryFor(g: Gate, key: string, gen: nat): Entry {
    if key in g then g[key] else Entry(gen, None, 0, false, {})
  }

  predicate InFlight(g: Gate, key: string) {
    key in g && g[key].inflight
  }

  /** A task joins the waiters; if nobody is at work for its repository, its caller will be. */
  function Joined(g: Gate, key: string, gen: nat, task: string): Gate {
    var e := EntryFor(g, key, gen);
    g[key := e.(waiters := e.waiters + {task}, inflight := true)]
  }

  /** A caller that was refused a ticket takes its task back, and only its own entry is touched. */
  function RolledBack(g: Gate, key: string, gen: nat, task: string): Gate {
    if key in g && g[key].gen == gen then
      var e := g[key].(waiters := g[key].waiters - {task}, inflight := false);
      if e.waiters == {} && e.ready.None? then g - {key} else g[key := e]
    else g
  }

  /** The source that an episode leaves: what it fetched, or what was there and still is on disk. */
  function SourceLeft(e: Entry, fetched: Option<nat>, onDisk: bool): Option<nat> {
    if fetched.Some? then fetched else if onDisk then e.ready else None
  }

  /** The end of an episode: the result is published and the waiters leave the gate. */
  function Finished(g: Gate, key: string, fetched: Option<nat>, onDisk: bool, now: int): Gate {
    if key !in g then g
    else
      var left := SourceLeft(g[key], fetched, onDisk);
      if left.None? then g - {key}
      else g[key := g[key].(ready := left, readyAt := now, inflight := false, waiters := {})]
  }

  function Fresh(g: Gate, key: string, now: int, freshFor: int): Option<nat> {
    if key in g && now - g[key].readyAt <= freshFor then g[key].ready else None
  }

  function Any(g: Gate, key: string): Option<nat> {
    if key in g then g[key].ready else None
  }

  // ---------------------------------------------------------------------------
  // Steps
  // ---------------------------------------------------------------------------

  datatype Step =
    | Defer(w: nat, key: string, task: string)
    | Admit(w: nat)
    | Finish(w: nat, fetched: Option<nat>, onDisk: bool, now: int, queue: seq<string>)
    | Cancel(w: nat)
    | Serve(w: nat)
    | ServeEnds(w: nat)
    | Abandon(w: nat)
    | CloseAdmission
    | CancelLifecycle

  predicate NoRepeat(queue: seq<string>) {
    forall i, j :: 0 <= i < j < |queue| ==> queue[i] != queue[j]
  }

  function WaitersAt(g: Gate, key: string): set<string> {
    if key in g then g[key].waiters else {}
  }

  /** The waiters in the order in which a map happens to list them. */
  predicate Lists(queue: seq<string>, waiters: set<string>) {
    NoRepeat(queue) && (set t | t in queue) == waiters
  }

  predicate Enabled(s: State, step: Step) {
    match step
    case Defer(w, _, _) => w !in s.workers
    case Admit(w) => w in s.workers && s.workers[w].Starting?
    case Finish(w, _, _, _, queue) => w in s.workers && s.workers[w].Fetching? && Lists(queue, WaitersAt(s.gate, s.workers[w].key))
    case Cancel(w) => w in s.workers && s.workers[w].Fetching? && s.stopped
    case Serve(w) =>
      w in s.workers && s.workers[w].Serving? && s.workers[w].batch < |s.batches| &&
      |s.batches[s.workers[w].batch].outcomes| < |s.batches[s.workers[w].batch].queue|
    case ServeEnds(w) =>
      w in s.workers && s.workers[w].Serving? && s.workers[w].batch < |s.batches| &&
      |s.batches[s.workers[w].batch].outcomes| >= |s.batches[s.workers[w].batch].queue|
    case Abandon(w) => w in s.workers && s.workers[w].Serving? && s.workers[w].batch < |s.batches| && s.stopped
    case CloseAdmission => true
    case CancelLifecycle => s.stopping
  }

  /** The next waiter of a batch is re-driven if a usable source was left, and failed otherwise. */
  function Served(b: Batch): Batch
    requires |b.outcomes| < |b.queue|
  {
    var task := b.queue[|b.outcomes|];
    b.(outcomes := b.outcomes + [if b.usable then Redriven(task) else FailedLoudly(task)])
  }

  function Next(s: State, step: Step): State
    requires Enabled(s, step)
  {
    match step
    case Defer(w, key, task) =>
      var e := EntryFor(s.gate, key, s.nextGen);
      var joined := s.(gate := Joined(s.gate, key, s.nextGen, task), nextGen := s.nextGen + 1);
      if InFlight(s.gate, key) then joined else joined.(workers := s.workers[w := Starting(key, e.gen, task)])
    case Admit(w) =>
      var k := s.workers[w];
      if s.stopping then s.(gate := RolledBack(s.gate, k.key, k.gen, k.task), workers := s.workers - {w})
      else s.(workers := s.workers[w := Fetching(k.key)])
    case Finish(w, fetched, onDisk, now, queue) =>
      var key := s.workers[w].key;
      if key !in s.gate then s.(workers := s.workers - {w})
      else
        var usable := SourceLeft(s.gate[key], fetched, onDisk).Some?;
        s.(gate := Finished(s.gate, key, fetched, onDisk, now),
           batches := s.batches + [Batch(key, queue, usable, [], false)],
           workers := s.workers[w := Serving(|s.batches|)])
    case Cancel(w) => s.(gate := s.gate - {s.workers[w].key}, workers := s.workers - {w})
    case Serve(w) => var b := s.workers[w].batch; s.(batches := s.batches[b := Served(s.batches[b])])
    case ServeEnds(w) =>
      var b := s.workers[w].batch; s.(batches := s.batches[b := s.batches[b].(over := true)], workers := s.workers - {w})
    case Abandon(w) =>
      var b := s.workers[w].batch; s.(batches := s.batches[b := s.batches[b].(over := true)], workers := s.workers - {w})
    case CloseAdmission => s.(stopping := true)
    case CancelLifecycle => s.(stopped := true)
  }

  // ---------------------------------------------------------------------------
  // What every run keeps
  // ---------------------------------------------------------------------------

  predicate Owns(k: Worker, key: string) {
    !k.Serving? && k.key == key
  }

  ghost predicate HasOwner(s: State, key: string) {
    exists w :: w in s.workers && Owns(s.workers[w], key)
  }

  ghost predicate HasServer(s: State, batch: nat) {
    exists w :: w in s.workers && s.workers[w] == Serving(batch)
  }

  /** Whoever starts or fetches for a repository does so for its entry, and alone. */
  ghost predicate OneOwner(s: State) {
    && (forall w :: w in s.workers && !s.workers[w].Serving? ==> InFlight(s.gate, s.workers[w].key))
    && (forall w :: w in s.workers && s.workers[w].Starting? ==> s.gate[s.workers[w].key].gen == s.workers[w].gen)
    && (forall v, w :: v in s.workers && w in s.workers && !s.workers[v].Serving? && Owns(s.workers[w], s.workers[v].key) ==> v == w)
  }

  /** An entry in flight has somebody at work for it. */
  ghost predicate Attended(s: State) {
    forall key :: InFlight(s.gate, key) ==> HasOwner(s, key)
  }

  ghost predicate WaitersAttended(s: State) {
    !s.stopping ==> forall key :: key in s.gate && s.gate[key].waiters != {} ==> s.gate[key].inflight
  }

  /** Outcomes follow the queue, one each and in order, by whether a source was left. */
  ghost predicate BatchFair(b: Batch) {
    && NoRepeat(b.queue) && |b.outcomes| <= |b.queue|
    && forall i :: 0 <= i < |b.outcomes| ==> b.outcomes[i] == if b.usable then Redriven(b.queue[i]) else FailedLoudly(b.queue[i])
  }

  ghost predicate BatchesFair(s: State) {
    && (forall i :: 0 <= i < |s.batches| ==> BatchFair(s.batches[i]))
    && (!s.stopped ==> forall i :: 0 <= i < |s.batches| && s.batches[i].over ==> |s.batches[i].outcomes| == |s.batches[i].queue|)
    && (forall w :: w in s.workers && s.workers[w].Serving? ==> s.workers[w].batch < |s.batches| && !s.batches[s.workers[w].batch].over)
    && (forall v, w :: v in s.workers && w in s.workers && s.workers[v].Serving? && s.workers[w] == s.workers[v] ==> v == w)
    && (forall i :: 0 <= i < |s.batches| && !s.batches[i].over ==> HasServer(s, i))
  }

  ghost predicate GateInv(s: State) {
    && OneOwner(s) && Attended(s) && WaitersAttended(s)
    && (s.stopped ==> s.stopping)
    && forall key :: key in s.gate ==> s.gate[key].gen < s.nextGen
  }

  ghost predicate Inv(s: State) {
    GateInv(s) && BatchesFair(s)
  }

  /** Owners and servers other than one worker's own stay in place. */
  lemma WorkersStay(s: State, t: State, w: nat, key: string)
    requires forall v :: v in s.workers && v != w ==> v in t.workers && t.workers[v] == s.workers[v]
    requires w in s.workers ==> s.workers[w].Serving? || s.workers[w].key == key
    ensures forall k :: HasOwner(s, k) && k != key ==> HasOwner(t, k)
    ensures w !in s.workers || s.workers[w].Serving? ==> forall k :: HasOwner(s, k) ==> HasOwner(t, k)
    ensures forall i: nat :: HasServer(s, i) && (w in s.workers ==> s.workers[w] != Serving(i)) ==> HasServer(t, i)
  {
    forall k | HasOwner(s, k) && (k != key || w !in s.workers || s.workers[w].Serving?) ensures HasOwner(t, k) {
      var v :| v in s.workers && Owns(s.workers[v], k);
      assert Owns(t.workers[v], k);
    }
    forall i: nat | HasServer(s, i) && (w in s.workers ==> s.workers[w] != Serving(i)) ensures HasServer(t, i) {
      var v :| v in s.workers && s.workers[v] == Serving(i);
      assert t.workers[v] == Serving(i);
    }
  }

  lemma JoiningKeepsGate(s: State, w: nat, key: string, task: string)
    requires GateInv(s) && Enabled(s, Defer(w, key, task)) && InFlight(s.gate, key)
    ensures GateInv(Next(s, Defer(w, key, task)))
  {
    WorkersStay(s, Next(s, Defer(w, key, task)), w, key);
  }

  lemma OpeningKeepsGate(s: State, w: nat, key: string, task: string)
    requires GateInv(s) && Enabled(s, Defer(w, key, task)) && !InFlight(s.gate, key)
    ensures GateInv(Next(s, Defer(w, key, task)))
  {
    var t := Next(s, Defer(w, key, task));
    WorkersStay(s, t, w, key);
    assert t.workers[w].key == key && Owns(t.workers[w], key) && HasOwner(t, key);
  }

  lemma AdmissionKeepsGate(s: State, w: nat)
    requires GateInv(s) && Enabled(s, Admit(w)) && !s.stopping
    ensures GateInv(Next(s, Admit(w)))
  {
    var t, key := Next(s, Admit(w)), s.workers[w].key;
    WorkersStay(s, t, w, key);
    assert Owns(t.workers[w], key) && HasOwner(t, key);
  }

  lemma RefusalKeepsGate(s: State, w: nat)
    requires GateInv(s) && Enabled(s, Admit(w)) && s.stopping
    ensures GateInv(Next(s, Admit(w)))
  {
    WorkersStay(s, Next(s, Admit(w)), w, s.workers[w].key);
  }

  lemma FinishKeepsGate(s: State, w: nat, fetched: Option<nat>, onDisk: bool, now: int, queue: seq<string>)
    requires GateInv(s) && Enabled(s, Finish(w, fetched, onDisk, now, queue))
    ensures GateInv(Next(s, Finish(w, fetched, onDisk, now, queue)))
  {
    WorkersStay(s, Next(s, Finish(w, fetched, onDisk, now, queue)), w, s.workers[w].key);
  }

  lemma CancelKeepsGate(s: State, w: nat)
    requires GateInv(s) && Enabled(s, Cancel(w))
    ensures GateInv(Next(s, Cancel(w)))
  {
    WorkersStay(s, Next(s, Cancel(w)), w, s.workers[w].key);
  }

  predicate AtService(step: Step) {
    step.Serve? || step.ServeEnds? || step.Abandon?
  }

  lemma ServiceKeepsGate(s: State, step: Step)
    requires GateInv(s) && Enabled(s, step) && AtService(step)
    ensures GateInv(Next(s, step))
  {
    WorkersStay(s, Next(s, step), step.w, "");
  }

  lemma StopKeepsGate(s: State, step: Step)
    requires GateInv(s) && Enabled(s, step) && (step.CloseAdmission? || step.CancelLifecycle?)
    ensures GateInv(Next(s, step))
  {
    assert forall key :: HasOwner(s, key) ==> HasOwner(Next(s, step), key);
  }

  lemma StepKeepsGate(s: State, step: Step)
    requires GateInv(s) && Enabled(s, step)
    ensures GateInv(Next(s, step))
  {
    match step
    case Defer(w, key, task) => if InFlight(s.gate, key) { JoiningKeepsGate(s, w, key, task); } else { OpeningKeepsGate(s, w, key, task); }
    case Admit(w) => if s.stopping { RefusalKeepsGate(s, w); } else { AdmissionKeepsGate(s, w); }
    case Finish(w, fetched, onDisk, now, queue) => FinishKeepsGate(s, w, fetched, onDisk, now, queue);
    case Cancel(w) => CancelKeepsGate(s, w);
    case CloseAdmission => StopKeepsGate(s, step);
    case CancelLifecycle => StopKeepsGate(s, step);
    case _ => ServiceKeepsGate(s, step);
  }

  lemma GateStepKeepsBatches(s: State, step: Step)
    requires Inv(s) && Enabled(s, step) && (step.Defer? || step.Admit? || step.Cancel?)
    ensures BatchesFair(Next(s, step))
  {
    WorkersStay(s, Next(s, step), step.w, if step.Defer? then step.key else s.workers[step.w].key);
  }

  lemma StopKeepsBatches(s: State, step: Step)
    requires BatchesFair(s) && Enabled(s, step) && (step.CloseAdmission? || step.CancelLifecycle?)
    ensures BatchesFair(Next(s, step))
  {
    assert forall i: nat :: HasServer(s, i) ==> HasServer(Next(s, step), i);
  }

  lemma FinishKeepsBatches(s: State, w: nat, fetched: Option<nat>, onDisk: bool, now: int, queue: seq<string>)
    requires BatchesFair(s) && Enabled(s, Finish(w, fetched, onDisk, now, queue))
    ensures BatchesFair(Next(s, Finish(w, fetched, onDisk, now, queue)))
  {
    var t := Next(s, Finish(w, fetched, onDisk, now, queue));
    WorkersStay(s, t, w, s.workers[w].key);
    if s.workers[w].key in s.gate {
      assert t.workers[w] == Serving(|s.batches|) && HasServer(t, |s.batches|);
    }
  }

  lemma ServeKeepsBatches(s: State, w: nat)
    requires BatchesFair(s) && Enabled(s, Serve(w))
    ensures BatchesFair(Next(s, Serve(w)))
  {
    assert forall i: nat :: HasServer(s, i) ==> HasServer(Next(s, Serve(w)), i);
  }

  lemma ServiceEndKeepsBatches(s: State, step: Step)
    requires BatchesFair(s) && Enabled(s, step) && (step.ServeEnds? || step.Abandon?)
    ensures BatchesFair(Next(s, step))
  {
    WorkersStay(s, Next(s, step), step.w, "");
  }

  lemma StepKeepsInv(s: State, step: Step)
    requires Inv(s) && Enabled(s, step)
    ensures Inv(Next(s, step))
  {
    StepKeepsGate(s, step);
    match step
    case Finish(w, fetched, onDisk, now, queue) => FinishKeepsBatches(s, w, fetched, onDisk, now, queue);
    case Serve(w) => ServeKeepsBatches(s, w);
    case ServeEnds(_) => ServiceEndKeepsBatches(s, step);
    case Abandon(_) => ServiceEndKeepsBatches(s, step);
    case CloseAdmission => StopKeepsBatches(s, step);
    case CancelLifecycle => StopKeepsBatches(s, step);
    case _ => GateStepKeepsBatches(s, step);
  }

  // ---------------------------------------------------------------------------
  // Whole runs
  // ---------------------------------------------------------------------------

  const START := State(map[], 0, map[], [], false, false)

  ghost predicate Run(states: seq<State>, steps: seq<Step>) {
    && |states| == |steps| + 1
    && states[0] == START
    && forall i :: 0 <= i < |steps| ==> Enabled(states[i], steps[i]) && states[i + 1] == Next(states[i], steps[i])
  }

  lemma {:induction false} RunKeepsInv(states: seq<State>, steps: seq<Step>, n: nat)
    requires Run(states, steps) && n < |states|
    ensures Inv(states[n])
  {
    if n > 0 {
      RunKeepsInv(states, steps, n - 1);
      StepKeepsInv(states[n - 1], steps[n - 1]);
    }
  }

  /** Over every run a repository has at most one episode at work, and until admission closes
      no task waits for a repository without one. */
  lemma OneEpisodeAndNoOrphanedWaiter(states: seq<State>, steps: seq<Step>, n: nat, key: string)
    requires Run(states, steps) && n < |states|
    ensures forall v, w ::
              (v in states[n].workers && w in states[n].workers && Owns(states[n].workers[v], key) && Owns(states[n].workers[w], key)) ==> v == w
    ensures !states[n].stopping && WaitersAt(states[n].gate, key) != {} ==> HasOwner(states[n], key)
  {
    RunKeepsInv(states, steps, n);
  }

  /** Over every run each batch is served in order, one outcome for each of its tasks, which is a
      re-drive exactly when a usable source was left; and unless the runtime stops, no batch ends
      before its last task has its outcome. */
  lemma EveryBatchIsServed(states: seq<State>, steps: seq<Step>, n: nat, i: nat)
    requires Run(states, steps) && n < |states| && i < |states[n].batches|
    ensures BatchFair(states[n].batches[i])
    ensures !states[n].stopped ==>
              if states[n].batches[i].over then |states[n].batches[i].outcomes| == |states[n].batches[i].queue|
              else HasServer(states[n], i)
  {
    RunKeepsInv(states, steps, n);
  }

  /** The task waits at the gate, or left it in a batch formed since. */
  ghost predicate Accounted(s: State, key: string, task: string, since: nat) {
    || task in WaitersAt(s.gate, key)
    || InBatchSince(s, key, task, since)
  }

  ghost predicate InBatchSince(s: State, key: string, task: string, since: nat) {
    exists i :: since <= i < |s.batches| && s.batches[i].key == key && task in s.batches[i].queue
  }

  lemma StepKeepsAccounted(s: State, step: Step, key: string, task: string, since: nat)
    requires Inv(s) && Enabled(s, step) && !Next(s, step).stopping && Accounted(s, key, task, since) && since <= |s.batches|
    ensures Accounted(Next(s, step), key, task, since) && |s.batches| <= |Next(s, step).batches|
  {
    var t := Next(s, step);
    if InBatchSince(s, key, task, since) {
      var i :| since <= i < |s.batches| && s.batches[i].key == key && task in s.batches[i].queue;
      assert t.batches[i].key == key && t.batches[i].queue == s.batches[i].queue;
    } else if step.Finish? && s.workers[step.w].key == key {
      assert task in (set x | x in step.queue);
      assert t.batches[|s.batches|].queue == step.queue;
    }
  }

  /** No task is lost: while the runtime is not stopping, a task that was deferred is still
      waiting, with an episode at work for it, or has left the gate in a batch formed since. */
  lemma {:induction false} NoTaskIsLost(states: seq<State>, steps: seq<Step>, k: nat, n: nat)
    requires Run(states, steps) && k < n < |states| && steps[k].Defer? && !states[n].stopping
    ensures !states[n - 1].stopping
    ensures Accounted(states[n], steps[k].key, steps[k].task, |states[k].batches|) && |states[k].batches| <= |states[n].batches|
    ensures steps[k].task in WaitersAt(states[n].gate, steps[k].key) ==> HasOwner(states[n], steps[k].key)
  {
    RunKeepsInv(states, steps, n);
    assert Enabled(states[n - 1], steps[n - 1]) && states[n] == Next(states[n - 1], steps[n - 1]);
    if n > k + 1 {
      NoTaskIsLost(states, steps, k, n - 1);
      RunKeepsInv(states, steps, n - 1);
      StepKeepsAccounted(states[n - 1], steps[n - 1], steps[k].key, steps[k].task, |states[k].batches|);
    }
  }

  /** The step ends an episode of the repository. */
  predicate EndsFor(s: State, step: Step, key: string)
    requires Enabled(s, step)
  {
    (step.Finish? || step.Cancel?) && s.workers[step.w].key == key
  }

  /** The source that the end of an episode leaves; a cancelled one leaves none. */
  function LeftBy(s: State, step: Step, key: string): Option<nat>
    requires Enabled(s, step) && EndsFor(s, step, key)
  {
    if step.Finish? && key in s.gate then SourceLeft(s.gate[key], step.fetched, step.onDisk) else None
  }

  lemma StepKeepsTheSource(s: State, step: Step, key: string)
    requires Enabled(s, step)
    ensures Any(Next(s, step).gate, key) == if EndsFor(s, step, key) then LeftBy(s, step, key) else Any(s.gate, key)
  {
  }

  predicate NoEndBetween(states: seq<State>, steps: seq<Step>, k: nat, n: nat, key: string)
    requires k <= n < |states| && |states| == |steps| + 1
    requires forall i :: 0 <= i < |steps| ==> Enabled(states[i], steps[i])
  {
    forall i :: k <= i < n ==> !EndsFor(states[i], steps[i], key)
  }

  lemma {:induction false} SourceStays(states: seq<State>, steps: seq<Step>, k: nat, n: nat, key: string)
    requires Run(states, steps) && k <= n < |states| && NoEndBetween(states, steps, k, n, key)
    ensures Any(states[n].gate, key) == Any(states[k].gate, key)
    decreases n
  {
    if k < n {
      StepKeepsTheSource(states[n - 1], steps[n - 1], key);
      SourceStays(states, steps, k, n - 1, key);
    }
  }

  /** Over every run a re-drive finds, whatever its age, exactly the source that the last episode
      to end for the repository has left: its own episode's, unless another one has ended since.
      An episode re-drives its waiters exactly if it has left one. Nobody finds a source before an
      episode has ended. */
  lemma RedriveFindsTheSource(states: seq<State>, steps: seq<Step>, k: nat, n: nat, key: string)
    requires Run(states, steps) && k < n < |states|
    ensures EndsFor(states[k], steps[k], key) && NoEndBetween(states, steps, k + 1, n, key) ==>
              Any(states[n].gate, key) == LeftBy(states[k], steps[k], key)
    ensures EndsFor(states[k], steps[k], key) && |states[k].batches| < |states[k + 1].batches| ==>
              (states[k + 1].batches[|states[k].batches|].usable <==> LeftBy(states[k], steps[k], key).Some?)
    ensures NoEndBetween(states, steps, 0, n, key) ==> Any(states[n].gate, key) == None
  {
    StepKeepsTheSource(states[k], steps[k], key);
    if NoEndBetween(states, steps, k + 1, n, key) {
      SourceStays(states, steps, k + 1, n, key);
    }
    if NoEndBetween(states, steps, 0, n, key) {
      SourceStays(states, steps, 0, n, key);
    }
  }

  // ---------------------------------------------------------------------------
  // The gate object and the episode's loop
  // ---------------------------------------------------------------------------

  class SourceGate {
    var entries: Gate
    var nextGen: nat

    constructor ()
      ensures entries == map[] && nextGen == 0
    {
      entries, nextGen := map[], 0;
    }

    method FreshSource(key: string, now: int, freshFor: int) returns (source: Option<nat>)
      ensures source == Fresh(entries, key, now, freshFor)
    {
      if key !in entries {
        return None;
      }
      var e := entries[key];
      if e.ready.None? || now - e.readyAt > freshFor {
        return None;
      }
      return e.ready;
    }

    /** The first of the two critical sections of a deferral: the caller must start an episode
        exactly when none is in flight. */
    method Defer(key: string, task: string) returns (start: bool, gen: nat)
      modifies this
      ensures start <==> !InFlight(old(entries), key)
      ensures entries == Joined(old(entries), key, old(nextGen), task) && nextGen == old(nextGen) + 1
      ensures gen == entries[key].gen
    {
      gen := nextGen;
      nextGen := nextGen + 1;
      var e := Entry(gen, None, 0, false, {});
      if key in entries {
        e := entries[key];
        gen := e.gen;
      }
      e := e.(waiters := e.waiters + {task});
      entries := entries[key := e];
      if e.inflight {
        return false, gen;
      }
      entries := entries[key := e.(inflight := true)];
      return true, gen;
    }

    /** The second, when no ticket was to be had. */
    method RollBack(key: string, gen: nat, task: string)
      modifies this`entries
      ensures entries == RolledBack(old(entries), key, gen, task)
    {
      if key in entries {
        var e := entries[key];
        if e.gen == gen {
          e := e.(waiters := e.waiters - {task}, inflight := false);
          entries := entries[key := e];
          if e.waiters == {} && e.ready.None? {
            entries := entries - {key};
          }
        }
      }
    }

    method Finish(key: string, fetched: Option<nat>, onDisk: bool, now: int) returns (waiters: set<string>, usable: bool)
      modifies this`entries
      ensures entries == Finished(old(entries), key, fetched, onDisk, now)
      ensures waiters == WaitersAt(old(entries), key)
      ensures usable <==> key in old(entries) && SourceLeft(old(entries)[key], fetched, onDisk).Some?
    {
      if key !in entries {
        return {}, false;
      }
      var e := entries[key].(inflight := false);
      if fetched.Some? {
        e := e.(ready := fetched, readyAt := now);
      } else if e.ready.Some? && onDisk {
        e := e.(readyAt := now);
      } else {
        e := e.(ready := None);
      }
      waiters := e.waiters;
      e := e.(waiters := {});
      usable := e.ready.Some?;
      entries := entries[key := e];
      if !usable {
        entries := entries - {key};
      }
    }
  }

  datatype Materialized = Landed(source: nat) | GaveUp | Stopped

  /** The first attempt that decides the episode: a success, unless the runtime has stopped by
      then, or a stop; otherwise the attempts run out. */
  function FirstDecision(results: seq<Option<nat>>, stops: seq<bool>): Materialized
    requires |results| == |stops|
  {
    if results == [] then GaveUp
    else if stops[0] then Stopped
    else if results[0].Some? then Landed(results[0].value)
    else FirstDecision(results[1..], stops[1..])
  }

  /** The bounded retry of one episode. */
  method Materialize(results: seq<Option<nat>>, stops: seq<bool>) returns (m: Materialized, attempts: nat)
    requires |results| == |stops|
    ensures m == FirstDecision(results, stops)
    ensures attempts <= |results|
    ensures m.GaveUp? <==> forall i :: 0 <= i < |results| ==> results[i].None? && !stops[i]
    ensures !m.GaveUp? ==> attempts > 0 && forall i :: 0 <= i < attempts - 1 ==> results[i].None? && !stops[i]
    ensures m.Landed? ==> results[attempts - 1] == Some(m.source) && !stops[attempts - 1]
  {
    attempts := 0;
    while attempts < |results|
      invariant attempts <= |results|
      invariant FirstDecision(results, stops) == FirstDecision(results[attempts..], stops[attempts..])
      invariant forall i :: 0 <= i < attempts ==> results[i].None? && !stops[i]
    {
      var result, stopped := results[attempts], stops[attempts];
      attempts := attempts + 1;
      if stopped {
        return Stopped, attempts;
      }
      if result.Some? {
        return Landed(result.value), attempts;
      }
    }
    return GaveUp, attempts;
  }
}
