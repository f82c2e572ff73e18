/** The per-task fork gate: fork commands, drains of executors that exit, the watchdog's polls of
    adopted orphans and in-place relaunches, interleaved one critical section at a time. */
module ForkGate {
  import opened Text

  /** An executor and the task that its durable input binds it to. */
  datatype Exec = Exec(id: nat, task: string)

  /** Where a fork command stands. */
  datatype ForkPc =
    | Gated
    | SawNoTracked
    | SawOrphans(found: bool)
    | Clear
    | Launched(e: Exec)
    | Tracked(e: Exec)
    | Ending

  datatype Forker = Forker(task: string, pc: ForkPc)

  /** Where the drain of a this-process executor stands. */
  datatype DrainPc = Awaiting | Deciding | Released | Spawned | Settled | Untracking

  /** Where the watchdog stands with the orphan it looks at. */
  datatype WatchPc = WIdle | WDeciding(e: Exec) | WSpawned(e: Exec) | WSettled(e: Exec)

  /** `live` counts the processes of an executor; `known` are the ids ever used; `strays` are the
      executors with a process under a pid that the runtime does not hold. */
  datatype State = State(
    forking: set<string>, tracked: map<string, Exec>, forkers: map<nat, Forker>,
    orphans: set<Exec>, pool: set<Exec>, recovering: set<Exec>,
    drains: map<Exec, DrainPc>, watch: WatchPc, polled: set<Exec>,
    live: map<Exec, nat>, known: set<Exec>, strays: set<Exec>)

  function Count(live: map<Exec, nat>, e: Exec): nat {
    if e in live then live[e] else 0
  }

  /** Two executors of one and the same task; an executor without a task shares it with nobody. */
  predicate SameTask(e: Exec, d: Exec) {
    e.task == d.task && e.task != ""
  }

  predicate AnyFor(es: set<Exec>, task: string) {
    exists e :: e in es && e.task == task
  }

  // ---------------------------------------------------------------------------
  // Steps of a fork command
  // ---------------------------------------------------------------------------

  datatype ForkStep =
    | Begin(f: nat, task: string)
    | Leave(f: nat)
    | CheckTracked(f: nat)
    | CheckOrphans(f: nat)
    | CheckPool(f: nat)
    | Launch(f: nat, e: Exec)
    | Track(f: nat)
    | StartDrain(f: nat)
    | End(f: nat)

  predicate At(s: State, f: nat, pc: ForkPc) {
    f in s.forkers && s.forkers[f].pc == pc
  }

  predicate BeforeLaunch(pc: ForkPc) {
    pc.Gated? || pc.SawNoTracked? || pc.SawOrphans? || pc.Clear?
  }

  predicate ForkEnabled(s: State, step: ForkStep) {
    match step
    case Begin(f, task) => f !in s.forkers && task != ""
    case Leave(f) => f in s.forkers && BeforeLaunch(s.forkers[f].pc)
    case CheckTracked(f) => At(s, f, Gated)
    case CheckOrphans(f) => At(s, f, SawNoTracked)
    case CheckPool(f) => f in s.forkers && s.forkers[f].pc.SawOrphans?
    case Launch(f, e) => At(s, f, Clear) && e !in s.known && e.task == s.forkers[f].task
    case Track(f) => f in s.forkers && s.forkers[f].pc.Launched?
    case StartDrain(f) => f in s.forkers && s.forkers[f].pc.Tracked?
    case End(f) => At(s, f, Ending)
  }

  /** The gate: a task that has a tracked executor, or that is being forked, is not admitted. */
  predicate Admitted(tracked: map<string, Exec>, forking: set<string>, task: string) {
    task !in tracked && task !in forking
  }

  function MoveTo(s: State, f: nat, pc: ForkPc): State
    requires f in s.forkers
  {
    s.(forkers := s.forkers[f := Forker(s.forkers[f].task, pc)])
  }

  /** The deferred release of the gate. */
  function Gone(s: State, f: nat): State
    requires f in s.forkers
  {
    s.(forkers := s.forkers - {f}, forking := s.forking - {s.forkers[f].task})
  }

  function ForkNext(s: State, step: ForkStep): State
    requires ForkEnabled(s, step)
  {
    match step
    case Begin(f, task) =>
      if Admitted(s.tracked, s.forking, task) then s.(forking := s.forking + {task}, forkers := s.forkers[f := Forker(task, Gated)]) else s
    case Leave(f) => Gone(s, f)
    case CheckTracked(f) => if s.forkers[f].task in s.tracked then Gone(s, f) else MoveTo(s, f, SawNoTracked)
    case CheckOrphans(f) => MoveTo(s, f, SawOrphans(AnyFor(s.orphans, s.forkers[f].task)))
    case CheckPool(f) =>
      if s.forkers[f].pc.found || AnyFor(s.pool, s.forkers[f].task) then Gone(s, f) else MoveTo(s, f, Clear)
    case Launch(f, e) => MoveTo(s, f, Launched(e)).(pool := s.pool + {e}, live := s.live[e := 1], known := s.known + {e})
    case Track(f) => var e := s.forkers[f].pc.e; MoveTo(s, f, Tracked(e)).(tracked := s.tracked[s.forkers[f].task := e])
    case StartDrain(f) => var e := s.forkers[f].pc.e; MoveTo(s, f, Ending).(drains := s.drains[e := Awaiting])
    case End(f) => Gone(s, f)
  }

  // ---------------------------------------------------------------------------
  // Steps of the drain of a this-process executor
  // ---------------------------------------------------------------------------

  datatype DrainStep =
    | DrainClaim
    | DrainHarvestFails
    | DrainFinalize
    | DrainRelease
    | DrainSkips
    | DrainSpawn
    | DrainAdopt(slot: bool)
    | DrainEndsRecovery
    | DrainUntracks

  predicate DrainEnabled(s: State, e: Exec, step: DrainStep) {
    && e in s.drains
    && match step
       case DrainClaim => s.drains[e] == Awaiting && Count(s.live, e) == 0
       case DrainHarvestFails => s.drains[e] == Awaiting && Count(s.live, e) == 0
       case DrainFinalize => s.drains[e] == Deciding
       case DrainRelease => s.drains[e] == Deciding
       case DrainSkips => s.drains[e] == Released
       case DrainSpawn => s.drains[e] == Released
       case DrainAdopt(_) => s.drains[e] == Spawned
       case DrainEndsRecovery => s.drains[e] == Settled
       case DrainUntracks => s.drains[e] == Untracking
  }

  /** A binding goes only if it is still the executor's own. */
  function WithoutBinding(tracked: map<string, Exec>, task: string, e: Exec): map<string, Exec> {
    if task in tracked && tracked[task] == e then tracked - {task} else tracked
  }

  function DrainTo(s: State, e: Exec, pc: DrainPc): State {
    s.(drains := s.drains[e := pc])
  }

  function DrainNext(s: State, e: Exec, step: DrainStep): State
    requires DrainEnabled(s, e, step)
  {
    match step
    case DrainClaim =>
      if e in s.recovering then DrainTo(s, e, Untracking) else DrainTo(s, e, Deciding).(recovering := s.recovering + {e})
    case DrainHarvestFails => DrainTo(s, e, Untracking).(pool := s.pool - {e})
    case DrainFinalize => DrainTo(s, e, Settled).(pool := s.pool - {e}, orphans := s.orphans - {e})
    case DrainRelease => DrainTo(s, e, Released).(pool := s.pool - {e})
    case DrainSkips => DrainTo(s, e, Settled).(orphans := s.orphans - {e})
    case DrainSpawn => DrainTo(s, e, Spawned).(live := s.live[e := Count(s.live, e) + 1])
    case DrainAdopt(slot) => DrainTo(s, e, Settled).(orphans := s.orphans + {e}, pool := if slot then s.pool + {e} else s.pool)
    case DrainEndsRecovery => DrainTo(s, e, Untracking).(recovering := s.recovering - {e})
    case DrainUntracks => s.(drains := s.drains - {e}, tracked := WithoutBinding(s.tracked, e.task, e))
  }

  // ---------------------------------------------------------------------------
  // Steps of the watchdog
  // ---------------------------------------------------------------------------

  datatype WatchStep =
    | WatchTick
    | WatchPasses(e: Exec)
    | WatchClaim(e: Exec)
    | WatchFinalize
    | WatchDrops
    | WatchSkips
    | WatchSpawn
    | WatchAdopt
    | WatchEnds

  /** A poll finds an orphan gone: it looks only at the pid it holds, and misses a stray. */
  predicate SeenGone(s: State, e: Exec) {
    Count(s.live, e) == 0 || e in s.strays
  }

  predicate WatchEnabled(s: State, step: WatchStep) {
    match step
    case WatchTick => s.watch == WIdle
    case WatchPasses(e) => s.watch == WIdle && e in s.polled
    case WatchClaim(e) => s.watch == WIdle && e in s.polled && e !in s.recovering && SeenGone(s, e)
    case WatchAdopt => s.watch.WSpawned?
    case WatchEnds => s.watch.WSettled?
    case _ => s.watch.WDeciding?
  }

  function WatchNext(s: State, step: WatchStep): State
    requires WatchEnabled(s, step)
  {
    match step
    case WatchTick => s.(polled := s.orphans)
    case WatchPasses(e) => s.(polled := s.polled - {e})
    case WatchClaim(e) => s.(polled := s.polled - {e}, watch := WDeciding(e), recovering := s.recovering + {e})
    case WatchFinalize => s.(watch := WSettled(s.watch.e), pool := s.pool - {s.watch.e}, orphans := s.orphans - {s.watch.e})
    case WatchDrops => s.(watch := WSettled(s.watch.e), orphans := s.orphans - {s.watch.e})
    case WatchSkips => s.(watch := WSettled(s.watch.e))
    case WatchSpawn => s.(watch := WSpawned(s.watch.e), live := s.live[s.watch.e := Count(s.live, s.watch.e) + 1])
    case WatchAdopt => s.(watch := WSettled(s.watch.e), orphans := s.orphans + {s.watch.e})
    case WatchEnds => s.(watch := WIdle, recovering := s.recovering - {s.watch.e})
  }

  // ---------------------------------------------------------------------------
  // Runs
  // ---------------------------------------------------------------------------

  datatype Step = Fork(fork: ForkStep) | Drain(e: Exec, drain: DrainStep) | Watch(watch: WatchStep) | Die(e: Exec)

  predicate Enabled(s: State, step: Step) {
    match step
    case Fork(fs) => ForkEnabled(s, fs)
    case Drain(e, ds) => DrainEnabled(s, e, ds)
    case Watch(ws) => WatchEnabled(s, ws)
    case Die(e) => Count(s.live, e) > 0
  }

  function Next(s: State, step: Step): State
    requires Enabled(s, step)
  {
    match step
    case Fork(fs) => ForkNext(s, fs)
    case Drain(e, ds) => DrainNext(s, e, ds)
    case Watch(ws) => WatchNext(s, ws)
    case Die(e) => s.(live := s.live[e := s.live[e] - 1])
  }

  predicate Possible(s: State, steps: seq<Step>)
    decreases |steps|
  {
    steps == [] || (Enabled(s, steps[0]) && Possible(Next(s, steps[0]), steps[1..]))
  }

  function After(s: State, steps: seq<Step>): State
    requires Possible(s, steps)
    decreases |steps|
  {
    if steps == [] then s else After(Next(s, steps[0]), steps[1..])
  }

  // ---------------------------------------------------------------------------
  // What every run keeps
  // ---------------------------------------------------------------------------

  /** Whoever is inside the gate holds it, and alone for its task. */
  ghost predicate GateHeld(s: State) {
    && (forall f :: f in s.forkers ==> s.forkers[f].task in s.forking && s.forkers[f].task != "")
    && (forall f, g :: f in s.forkers && g in s.forkers && s.forkers[f].task == s.forkers[g].task ==> f == g)
  }

  ghost predicate NoOrphanOf(s: State, task: string) {
    forall e :: e in s.orphans ==> e.task != task
  }

  /** What a fork command may rely on at each point. */
  ghost predicate ForkerKnows(s: State, fk: Forker) {
    match fk.pc
    case Gated => fk.task !in s.tracked
    case SawNoTracked => fk.task !in s.tracked
    case SawOrphans(found) => fk.task !in s.tracked && (!found ==> NoOrphanOf(s, fk.task))
    case Clear => fk.task !in s.tracked && NoOrphanOf(s, fk.task)
    case Launched(e) =>
      fk.task !in s.tracked && NoOrphanOf(s, fk.task) && e.task == fk.task && e !in s.drains && e !in s.recovering && e in s.known
    case Tracked(e) =>
      e.task == fk.task && e.task in s.tracked && s.tracked[e.task] == e && e !in s.drains && e !in s.orphans && e !in s.recovering && e in s.known
    case Ending => true
  }

  ghost predicate ForkersKnow(s: State) {
    forall f :: f in s.forkers ==> ForkerKnows(s, s.forkers[f])
  }

  /** What the drain of an executor may rely on at each point. */
  ghost predicate DrainKnows(s: State, e: Exec) {
    && e.task in s.tracked && s.tracked[e.task] == e && e in s.known
    && (match DrainPcOf(s, e)
        case Awaiting => e !in s.orphans && e !in s.recovering
        case Deciding => e !in s.orphans && e in s.recovering && Count(s.live, e) == 0
        case Released => e !in s.orphans && e in s.recovering && Count(s.live, e) == 0
        case Spawned => e !in s.orphans && e in s.recovering
        case Settled => e in s.recovering && (Count(s.live, e) > 0 ==> e in s.orphans)
        case Untracking => Count(s.live, e) > 0 ==> e in s.orphans)
  }

  function DrainPcOf(s: State, e: Exec): DrainPc {
    if e in s.drains then s.drains[e] else Untracking
  }

  ghost predicate DrainsKnow(s: State) {
    forall e :: e in s.drains ==> DrainKnows(s, e)
  }

  /** What the watchdog may rely on: nobody else is recovering the orphan in its hands. */
  ghost predicate WatchKnows(s: State) {
    && (match s.watch
        case WIdle => true
        case WDeciding(e) =>
          e in s.orphans && e in s.recovering && (e.task != "" ==> Count(s.live, e) == 0) && e !in s.polled && DrainPcOf(s, e) == Untracking
        case WSpawned(e) => e in s.orphans && e in s.recovering && e !in s.polled && DrainPcOf(s, e) == Untracking
        case WSettled(e) => e in s.recovering && e !in s.polled && DrainPcOf(s, e) == Untracking)
    && s.polled <= s.orphans
  }

  /** At most one orphan for a task, and none beside another tracked executor. */
  ghost predicate OrphansAlone(s: State) {
    && s.orphans <= s.known && s.recovering <= s.known
    && (forall e, d :: e in s.orphans && d in s.orphans && SameTask(e, d) ==> e == d)
    && (forall e :: e in s.orphans && e.task in s.tracked ==> s.tracked[e.task] == e)
    && "" !in s.tracked
  }

  ghost predicate JustLaunched(s: State, e: Exec) {
    exists f :: f in s.forkers && s.forkers[f].pc == Launched(e)
  }

  /** Somebody answers for the executor. */
  ghost predicate Held(s: State, e: Exec) {
    e in s.orphans || (e.task in s.tracked && s.tracked[e.task] == e) || JustLaunched(s, e)
  }

  ghost predicate LiveAreHeld(s: State) {
    forall e :: Count(s.live, e) > 0 && e.task != "" ==> Count(s.live, e) == 1 && e in s.known && Held(s, e)
  }

  /** Whatever has a task has no process that the runtime does not know of. */
  ghost predicate NoStrays(s: State) {
    forall e :: e in s.strays ==> e.task == ""
  }

  ghost predicate Inv(s: State) {
    NoStrays(s) && GateHeld(s) && ForkersKnow(s) && DrainsKnow(s) && WatchKnows(s) && OrphansAlone(s) && LiveAreHeld(s)
  }

  /** At most one live process for any task. */
  ghost predicate OneLive(s: State) {
    && (forall e: Exec :: e.task != "" ==> Count(s.live, e) <= 1)
    && (forall e, d :: Count(s.live, e) > 0 && Count(s.live, d) > 0 && SameTask(e, d) ==> e == d)
  }

  lemma InvMeansOneLive(s: State)
    requires Inv(s)
    ensures OneLive(s)
  {
    forall e, d | Count(s.live, e) > 0 && Count(s.live, d) > 0 && SameTask(e, d) ensures e == d {
      HeldAlone(s, e, d);
    }
  }

  lemma HeldAlone(s: State, e: Exec, d: Exec)
    requires Inv(s) && Held(s, e) && Held(s, d) && SameTask(e, d)
    ensures e == d
  {
    if JustLaunched(s, e) {
      var f :| f in s.forkers && s.forkers[f].pc == Launched(e);
      assert ForkerKnows(s, s.forkers[f]);
    }
    if JustLaunched(s, d) {
      var g :| g in s.forkers && s.forkers[g].pc == Launched(d);
      assert ForkerKnows(s, s.forkers[g]);
    }
  }

  lemma LaunchedStay(s: State, t: State)
    requires forall f :: f in s.forkers && s.forkers[f].pc.Launched? ==> f in t.forkers && t.forkers[f] == s.forkers[f]
    ensures forall e :: JustLaunched(s, e) ==> JustLaunched(t, e)
  {
    forall e | JustLaunched(s, e) ensures JustLaunched(t, e) {
      var f :| f in s.forkers && s.forkers[f].pc == Launched(e);
      assert t.forkers[f].pc == Launched(e);
    }
  }

  /** A step of one fork command, which touches only its own task, leaves the others' knowledge be. */
  lemma OthersStillKnow(s: State, t: State, f: nat)
    requires GateHeld(s) && ForkersKnow(s) && f in s.forkers
    requires forall g :: g in t.forkers && g != f ==> g in s.forkers && t.forkers[g] == s.forkers[g]
    requires t.orphans == s.orphans && t.recovering == s.recovering && s.known <= t.known
    requires forall k :: k != s.forkers[f].task ==> (k in t.tracked <==> k in s.tracked) && (k in s.tracked ==> t.tracked[k] == s.tracked[k])
    requires forall e: Exec :: e.task != s.forkers[f].task ==> (e in t.drains <==> e in s.drains)
    requires f in t.forkers ==> ForkerKnows(t, t.forkers[f])
    ensures ForkersKnow(t)
  {
    forall g | g in t.forkers ensures ForkerKnows(t, t.forkers[g]) {
      if g != f {
        assert ForkerKnows(s, s.forkers[g]) && s.forkers[g].task != s.forkers[f].task;
      }
    }
  }

  lemma MovingKeeps(s: State, f: nat, pc: ForkPc)
    requires Inv(s) && f in s.forkers && BeforeLaunch(s.forkers[f].pc) && BeforeLaunch(pc)
    requires ForkerKnows(s, Forker(s.forkers[f].task, pc))
    ensures Inv(MoveTo(s, f, pc))
  {
    LaunchedStay(s, MoveTo(s, f, pc));
    OthersStillKnow(s, MoveTo(s, f, pc), f);
  }

  lemma GoneKeeps(s: State, f: nat)
    requires Inv(s) && f in s.forkers && !s.forkers[f].pc.Launched?
    ensures Inv(Gone(s, f))
  {
    LaunchedStay(s, Gone(s, f));
  }

  lemma BeginKeeps(s: State, f: nat, task: string)
    requires Inv(s) && ForkEnabled(s, Begin(f, task))
    ensures Inv(ForkNext(s, Begin(f, task)))
  {
    LaunchedStay(s, ForkNext(s, Begin(f, task)));
  }

  lemma LeaveKeeps(s: State, f: nat)
    requires Inv(s) && ForkEnabled(s, Leave(f))
    ensures Inv(ForkNext(s, Leave(f)))
  {
    GoneKeeps(s, f);
  }

  lemma CheckTrackedKeeps(s: State, f: nat)
    requires Inv(s) && ForkEnabled(s, CheckTracked(f))
    ensures Inv(ForkNext(s, CheckTracked(f)))
  {
    if s.forkers[f].task in s.tracked {
      GoneKeeps(s, f);
    } else {
      MovingKeeps(s, f, SawNoTracked);
    }
  }

  lemma CheckOrphansKeeps(s: State, f: nat)
    requires Inv(s) && ForkEnabled(s, CheckOrphans(f))
    ensures Inv(ForkNext(s, CheckOrphans(f)))
  {
    MovingKeeps(s, f, SawOrphans(AnyFor(s.orphans, s.forkers[f].task)));
  }

  lemma ClearingKeeps(s: State, f: nat)
    requires Inv(s) && At(s, f, SawOrphans(false))
    ensures Inv(MoveTo(s, f, Clear))
  {
    MovingKeeps(s, f, Clear);
  }

  lemma CheckPoolKeeps(s: State, f: nat)
    requires Inv(s) && ForkEnabled(s, CheckPool(f))
    ensures Inv(ForkNext(s, CheckPool(f)))
  {
    if s.forkers[f].pc.found || AnyFor(s.pool, s.forkers[f].task) {
      GoneKeeps(s, f);
    } else {
      ClearingKeeps(s, f);
    }
  }

  lemma LaunchedIsHeld(s: State, f: nat, e: Exec)
    requires Inv(s) && ForkEnabled(s, Launch(f, e))
    ensures LiveAreHeld(ForkNext(s, Launch(f, e)))
  {
    var t := ForkNext(s, Launch(f, e));
    LaunchedStay(s, t);
    assert t.forkers[f].pc == Launched(e) && JustLaunched(t, e);
    forall d | Count(t.live, d) > 0 && d.task != "" ensures Count(t.live, d) == 1 && d in t.known && Held(t, d) {
      assert d != e ==> Count(s.live, d) > 0;
    }
  }

  lemma LaunchKeeps(s: State, f: nat, e: Exec)
    requires Inv(s) && ForkEnabled(s, Launch(f, e))
    ensures Inv(ForkNext(s, Launch(f, e)))
  {
    var t := ForkNext(s, Launch(f, e));
    LaunchedIsHeld(s, f, e);
    assert ForkerKnows(s, s.forkers[f]);
    assert ForkerKnows(t, t.forkers[f]) by {
      assert e in s.drains ==> e in s.known;
    }
    OthersStillKnow(s, t, f);
    LaunchKeepsDrains(s, f, e);
  }

  lemma LaunchKeepsDrains(s: State, f: nat, e: Exec)
    requires Inv(s) && ForkEnabled(s, Launch(f, e))
    ensures var t := ForkNext(s, Launch(f, e)); GateHeld(t) && DrainsKnow(t) && WatchKnows(t) && OrphansAlone(t)
  {
  }

  lemma TrackedIsHeld(s: State, f: nat)
    requires Inv(s) && ForkEnabled(s, Track(f))
    ensures LiveAreHeld(ForkNext(s, Track(f)))
  {
    var t := ForkNext(s, Track(f));
    assert ForkerKnows(s, s.forkers[f]);
    forall d | JustLaunched(s, d) ensures Held(t, d) {
      var g :| g in s.forkers && s.forkers[g].pc == Launched(d);
      if g != f {
        assert t.forkers[g].pc == Launched(d);
      }
    }
  }

  lemma TrackKeepsDrains(s: State, f: nat)
    requires Inv(s) && ForkEnabled(s, Track(f))
    ensures var t := ForkNext(s, Track(f)); GateHeld(t) && DrainsKnow(t) && WatchKnows(t) && OrphansAlone(t)
  {
    var t := ForkNext(s, Track(f));
    assert ForkerKnows(s, s.forkers[f]);
    forall e | e in t.drains ensures DrainKnows(t, e) {
      assert DrainKnows(s, e);
    }
  }

  lemma TrackKeeps(s: State, f: nat)
    requires Inv(s) && ForkEnabled(s, Track(f))
    ensures Inv(ForkNext(s, Track(f)))
  {
    var t := ForkNext(s, Track(f));
    TrackedIsHeld(s, f);
    TrackKeepsDrains(s, f);
    assert ForkerKnows(s, s.forkers[f]);
    OthersStillKnow(s, t, f);
  }

  lemma StartDrainKeepsDrains(s: State, f: nat)
    requires Inv(s) && ForkEnabled(s, StartDrain(f))
    ensures var t := ForkNext(s, StartDrain(f)); GateHeld(t) && DrainsKnow(t) && WatchKnows(t) && OrphansAlone(t)
  {
    var t := ForkNext(s, StartDrain(f));
    assert ForkerKnows(s, s.forkers[f]);
    forall e | e in t.drains ensures DrainKnows(t, e) {
      if e in s.drains { assert DrainKnows(s, e); }
    }
  }

  lemma StartDrainKeeps(s: State, f: nat)
    requires Inv(s) && ForkEnabled(s, StartDrain(f))
    ensures Inv(ForkNext(s, StartDrain(f)))
  {
    var t := ForkNext(s, StartDrain(f));
    LaunchedStay(s, t);
    StartDrainKeepsDrains(s, f);
    assert ForkerKnows(s, s.forkers[f]);
    OthersStillKnow(s, t, f);
  }

  lemma EndKeeps(s: State, f: nat)
    requires Inv(s) && ForkEnabled(s, End(f))
    ensures Inv(ForkNext(s, End(f)))
  {
    GoneKeeps(s, f);
  }

  lemma DrainClaimKeeps(s: State, e: Exec)
    requires Inv(s) && DrainEnabled(s, e, DrainClaim)
    ensures Inv(DrainNext(s, e, DrainClaim))
  {
    LaunchedStay(s, DrainNext(s, e, DrainClaim));
  }

  lemma DrainHarvestFailsKeeps(s: State, e: Exec)
    requires Inv(s) && DrainEnabled(s, e, DrainHarvestFails)
    ensures Inv(DrainNext(s, e, DrainHarvestFails))
  {
    LaunchedStay(s, DrainNext(s, e, DrainHarvestFails));
  }

  lemma DrainFinalizeKeeps(s: State, e: Exec)
    requires Inv(s) && DrainEnabled(s, e, DrainFinalize)
    ensures Inv(DrainNext(s, e, DrainFinalize))
  {
    LaunchedStay(s, DrainNext(s, e, DrainFinalize));
  }

  lemma DrainReleaseKeeps(s: State, e: Exec)
    requires Inv(s) && DrainEnabled(s, e, DrainRelease)
    ensures Inv(DrainNext(s, e, DrainRelease))
  {
    LaunchedStay(s, DrainNext(s, e, DrainRelease));
  }

  lemma DrainSkipsKeeps(s: State, e: Exec)
    requires Inv(s) && DrainEnabled(s, e, DrainSkips)
    ensures Inv(DrainNext(s, e, DrainSkips))
  {
    LaunchedStay(s, DrainNext(s, e, DrainSkips));
  }

  lemma DrainSpawnKeeps(s: State, e: Exec)
    requires Inv(s) && DrainEnabled(s, e, DrainSpawn)
    ensures Inv(DrainNext(s, e, DrainSpawn))
  {
    var t := DrainNext(s, e, DrainSpawn);
    LaunchedStay(s, t);
    forall d | Count(t.live, d) > 0 && d.task != "" ensures Count(t.live, d) == 1 && d in t.known && Held(t, d) {
      assert d != e ==> Count(s.live, d) > 0;
    }
  }

  lemma DrainEndsRecoveryKeeps(s: State, e: Exec)
    requires Inv(s) && DrainEnabled(s, e, DrainEndsRecovery)
    ensures Inv(DrainNext(s, e, DrainEndsRecovery))
  {
    LaunchedStay(s, DrainNext(s, e, DrainEndsRecovery));
  }

  lemma DrainUntracksKeeps(s: State, e: Exec)
    requires Inv(s) && DrainEnabled(s, e, DrainUntracks)
    ensures Inv(DrainNext(s, e, DrainUntracks))
  {
    LaunchedStay(s, DrainNext(s, e, DrainUntracks));
  }

  lemma DrainAdoptKeeps(s: State, e: Exec, slot: bool)
    requires Inv(s) && DrainEnabled(s, e, DrainAdopt(slot))
    ensures Inv(DrainNext(s, e, DrainAdopt(slot)))
  {
    LaunchedStay(s, DrainNext(s, e, DrainAdopt(slot)));
  }

  lemma WatchTickKeeps(s: State)
    requires Inv(s) && WatchEnabled(s, WatchTick)
    ensures Inv(WatchNext(s, WatchTick))
  {
    LaunchedStay(s, WatchNext(s, WatchTick));
  }

  lemma WatchPassesKeeps(s: State, e: Exec)
    requires Inv(s) && WatchEnabled(s, WatchPasses(e))
    ensures Inv(WatchNext(s, WatchPasses(e)))
  {
    LaunchedStay(s, WatchNext(s, WatchPasses(e)));
  }

  lemma WatchClaimKeeps(s: State, e: Exec)
    requires Inv(s) && WatchEnabled(s, WatchClaim(e))
    ensures Inv(WatchNext(s, WatchClaim(e)))
  {
    LaunchedStay(s, WatchNext(s, WatchClaim(e)));
  }

  lemma WatchFinalizeKeeps(s: State)
    requires Inv(s) && WatchEnabled(s, WatchFinalize)
    ensures Inv(WatchNext(s, WatchFinalize))
  {
    LaunchedStay(s, WatchNext(s, WatchFinalize));
  }

  lemma WatchDropsKeeps(s: State)
    requires Inv(s) && WatchEnabled(s, WatchDrops)
    ensures Inv(WatchNext(s, WatchDrops))
  {
    LaunchedStay(s, WatchNext(s, WatchDrops));
  }

  lemma WatchSkipsKeeps(s: State)
    requires Inv(s) && WatchEnabled(s, WatchSkips)
    ensures Inv(WatchNext(s, WatchSkips))
  {
    LaunchedStay(s, WatchNext(s, WatchSkips));
  }

  lemma WatchSpawnKeeps(s: State)
    requires Inv(s) && WatchEnabled(s, WatchSpawn)
    ensures Inv(WatchNext(s, WatchSpawn))
  {
    var t := WatchNext(s, WatchSpawn);
    LaunchedStay(s, t);
    forall d | Count(t.live, d) > 0 && d.task != "" ensures Count(t.live, d) == 1 && d in t.known && Held(t, d) {
      assert d != s.watch.e ==> Count(s.live, d) > 0;
    }
  }

  lemma WatchAdoptKeeps(s: State)
    requires Inv(s) && WatchEnabled(s, WatchAdopt)
    ensures Inv(WatchNext(s, WatchAdopt))
  {
    LaunchedStay(s, WatchNext(s, WatchAdopt));
  }

  lemma WatchEndsKeeps(s: State)
    requires Inv(s) && WatchEnabled(s, WatchEnds)
    ensures Inv(WatchNext(s, WatchEnds))
  {
    LaunchedStay(s, WatchNext(s, WatchEnds));
  }

  lemma DieKeeps(s: State, e: Exec)
    requires Inv(s) && Count(s.live, e) > 0
    ensures Inv(Next(s, Die(e)))
  {
    var t := Next(s, Die(e));
    LaunchedStay(s, t);
    forall d | Count(t.live, d) > 0 && d.task != "" ensures Count(t.live, d) == 1 && d in t.known && Held(t, d) {
      assert Count(s.live, d) > 0;
    }
  }

  lemma ForkStepKeeps(s: State, step: ForkStep)
    requires Inv(s) && ForkEnabled(s, step)
    ensures Inv(ForkNext(s, step))
  {
    match step
    case Begin(f, task) => BeginKeeps(s, f, task);
    case Leave(f) => LeaveKeeps(s, f);
    case CheckTracked(f) => CheckTrackedKeeps(s, f);
    case CheckOrphans(f) => CheckOrphansKeeps(s, f);
    case CheckPool(f) => CheckPoolKeeps(s, f);
    case Launch(f, e) => LaunchKeeps(s, f, e);
    case Track(f) => TrackKeeps(s, f);
    case StartDrain(f) => StartDrainKeeps(s, f);
    case End(f) => EndKeeps(s, f);
  }

  lemma DrainStepKeeps(s: State, e: Exec, step: DrainStep)
    requires Inv(s) && DrainEnabled(s, e, step)
    ensures Inv(DrainNext(s, e, step))
  {
    match step
    case DrainClaim => DrainClaimKeeps(s, e);
    case DrainHarvestFails => DrainHarvestFailsKeeps(s, e);
    case DrainFinalize => DrainFinalizeKeeps(s, e);
    case DrainRelease => DrainReleaseKeeps(s, e);
    case DrainSkips => DrainSkipsKeeps(s, e);
    case DrainSpawn => DrainSpawnKeeps(s, e);
    case DrainAdopt(slot) => DrainAdoptKeeps(s, e, slot);
    case DrainEndsRecovery => DrainEndsRecoveryKeeps(s, e);
    case DrainUntracks => DrainUntracksKeeps(s, e);
  }

  lemma WatchStepKeeps(s: State, step: WatchStep)
    requires Inv(s) && WatchEnabled(s, step)
    ensures Inv(WatchNext(s, step))
  {
    match step
    case WatchTick => WatchTickKeeps(s);
    case WatchPasses(e) => WatchPassesKeeps(s, e);
    case WatchClaim(e) => WatchClaimKeeps(s, e);
    case WatchFinalize => WatchFinalizeKeeps(s);
    case WatchDrops => WatchDropsKeeps(s);
    case WatchSkips => WatchSkipsKeeps(s);
    case WatchSpawn => WatchSpawnKeeps(s);
    case WatchAdopt => WatchAdoptKeeps(s);
    case WatchEnds => WatchEndsKeeps(s);
  }

  lemma StepKeepsInv(s: State, step: Step)
    requires Inv(s) && Enabled(s, step)
    ensures Inv(Next(s, step))
  {
    match step
    case Fork(fs) => ForkStepKeeps(s, fs);
    case Drain(e, ds) => DrainStepKeeps(s, e, ds);
    case Watch(ws) => WatchStepKeeps(s, ws);
    case Die(e) => DieKeeps(s, e);
  }

  lemma {:induction false} RunKeepsInv(s: State, steps: seq<Step>)
    requires Inv(s) && Possible(s, steps)
    ensures Inv(After(s, steps))
    decreases |steps|
  {
    if steps != [] {
      StepKeepsInv(s, steps[0]);
      RunKeepsInv(Next(s, steps[0]), steps[1..]);
    }
  }

  // ---------------------------------------------------------------------------
  // From boot on
  // ---------------------------------------------------------------------------

  /** The state that boot leaves: no command served yet, and every slot taken by an adoption. */
  ghost predicate Booted(s: State) {
    && s.forking == {} && s.tracked == map[] && s.forkers == map[] && s.recovering == {}
    && s.drains == map[] && s.watch == WIdle && s.polled == {}
    && s.pool <= s.orphans <= s.known
    && (forall e :: Count(s.live, e) > 0 ==> e in s.known)
    && (forall e :: e in s.strays ==> Count(s.live, e) > 0)
  }

  /** Boot registered every live executor, under the pid of its one process, and no two for one task. */
  ghost predicate Registered(s: State) {
    && NoStrays(s)
    && (forall e :: Count(s.live, e) > 0 && e.task != "" ==> Count(s.live, e) == 1 && e in s.orphans)
    && (forall e, d :: e in s.orphans && d in s.orphans && SameTask(e, d) ==> e == d)
  }

  /** No run ever has two live executors for one task. */
  ghost predicate NeverTwo(s: State) {
    forall steps: seq<Step> :: Possible(s, steps) ==> OneLive(After(s, steps))
  }

  lemma Chain(s: State, a: seq<Step>, b: seq<Step>)
    requires Possible(s, a) && Possible(After(s, a), b)
    ensures Possible(s, a + b) && After(s, a + b) == After(After(s, a), b)
    decreases |a|
  {
    if a == [] {
      assert a + b == b;
    } else {
      assert (a + b)[1..] == a[1..] + b;
      Chain(Next(s, a[0]), a[1..], b);
    }
  }

  /** One more step at the end of a run. */
  lemma Extend(s: State, a: seq<Step>, step: Step)
    requires Possible(s, a) && Enabled(After(s, a), step)
    ensures Possible(s, a + [step]) && After(s, a + [step]) == Next(After(s, a), step)
  {
    var t := After(s, a);
    assert [step][1..] == [];
    assert Possible(Next(t, step), []) && Possible(t, [step]);
    Chain(s, a, [step]);
  }

  /** The watchdog can relaunch any registered executor that its poll finds gone. */
  lemma Relaunch(s: State, e: Exec) returns (steps: seq<Step>)
    requires s.watch == WIdle && s.recovering == {} && e in s.orphans && SeenGone(s, e)
    ensures Possible(s, steps)
    ensures var t := After(s, steps);
            && t.watch == WIdle && t.recovering == {} && t.orphans == s.orphans
            && t.live == s.live[e := Count(s.live, e) + 1]
  {
    steps := [];
    Extend(s, steps, Watch(WatchTick));
    steps := steps + [Watch(WatchTick)];
    Extend(s, steps, Watch(WatchClaim(e)));
    steps := steps + [Watch(WatchClaim(e))];
    Extend(s, steps, Watch(WatchSpawn));
    steps := steps + [Watch(WatchSpawn)];
    Extend(s, steps, Watch(WatchAdopt));
    steps := steps + [Watch(WatchAdopt)];
    Extend(s, steps, Watch(WatchEnds));
    steps := steps + [Watch(WatchEnds)];
    var t := After(s, steps);
    assert t.orphans == s.orphans;
    assert t.recovering == {};
  }

  /** Any registered executor that is dead can be brought to life. */
  lemma Revive(s: State, e: Exec) returns (steps: seq<Step>)
    requires s.watch == WIdle && s.recovering == {} && e in s.orphans
    ensures Possible(s, steps)
    ensures var t := After(s, steps);
            && t.watch == WIdle && t.recovering == {} && t.orphans == s.orphans
            && Count(t.live, e) > 0 && forall d :: Count(t.live, d) >= Count(s.live, d)
  {
    steps := [];
    if Count(s.live, e) == 0 {
      steps := Relaunch(s, e);
    }
  }

  /** An executor of a task with a process that the runtime does not know of can be doubled: its
      relaunch starts another one, or a fork does where it is not registered. */
  lemma StrayCanBeDoubled(s: State, e: Exec)
    requires Booted(s) && e in s.strays && e.task != ""
    ensures !NeverTwo(s)
  {
    if e in s.orphans {
      var steps := Relaunch(s, e);
      assert Count(After(s, steps).live, e) >= 2;
      assert !OneLive(After(s, steps));
    } else {
      LiveUnregisteredCanBeDoubled(s, e);
    }
  }

  lemma LiveUnregisteredCanBeDoubled(s: State, e: Exec)
    requires Booted(s) && Count(s.live, e) > 0 && e.task != "" && e !in s.orphans
    ensures !NeverTwo(s)
  {
    if d :| d in s.orphans && d.task == e.task {
      TwoOrphansCanBothLive(s, e, d);
    } else {
      UnregisteredCanBeDoubled(s, e);
    }
  }

  /** Two registered executors of one task can both be brought to life. */
  lemma TwoOrphansCanBothLive(s: State, e: Exec, d: Exec)
    requires Booted(s) && d in s.orphans && e != d && SameTask(e, d)
    requires e in s.orphans || Count(s.live, e) > 0
    ensures !NeverTwo(s)
  {
    var a: seq<Step> := [];
    if e in s.orphans {
      a := Revive(s, e);
    }
    var t := After(s, a);
    var b := Revive(t, d);
    Chain(s, a, b);
    assert Count(After(t, b).live, e) > 0 && Count(After(t, b).live, d) > 0;
    assert !OneLive(After(s, a + b));
  }

  lemma {:induction false} FreshId(known: set<Exec>) returns (n: nat)
    ensures forall e :: e in known ==> e.id < n
  {
    if known == {} {
      n := 0;
    } else {
      var e :| e in known;
      var m := FreshId(known - {e});
      n := if m <= e.id then e.id + 1 else m;
    }
  }

  /** Nothing at the gate stops a fork for a task without a registered executor. */
  lemma GateLetsThrough(s: State, task: string) returns (steps: seq<Step>)
    requires Booted(s) && task != "" && NoOrphanOf(s, task)
    ensures Possible(s, steps)
    ensures After(s, steps) == s.(forking := {task}, forkers := map[0 := Forker(task, Clear)])
  {
    steps := [];
    Extend(s, steps, Fork(Begin(0, task)));
    steps := steps + [Fork(Begin(0, task))];
    Extend(s, steps, Fork(CheckTracked(0)));
    steps := steps + [Fork(CheckTracked(0))];
    Extend(s, steps, Fork(CheckOrphans(0)));
    steps := steps + [Fork(CheckOrphans(0))];
    assert !AnyFor(s.orphans, task) && !AnyFor(s.pool, task);
    Extend(s, steps, Fork(CheckPool(0)));
    steps := steps + [Fork(CheckPool(0))];
  }

  /** A live executor that nobody registered does not keep a second one from being forked. */
  lemma UnregisteredCanBeDoubled(s: State, e: Exec)
    requires Booted(s) && Count(s.live, e) > 0 && e.task != "" && NoOrphanOf(s, e.task)
    ensures !NeverTwo(s)
  {
    var n := FreshId(s.known);
    var newcomer := Exec(n, e.task);
    var steps := GateLetsThrough(s, e.task);
    Extend(s, steps, Fork(Launch(0, newcomer)));
    var t := After(s, steps + [Fork(Launch(0, newcomer))]);
    assert t.live == s.live[newcomer := 1];
    assert Count(t.live, e) > 0 && Count(t.live, newcomer) > 0 && SameTask(e, newcomer);
  }

  /** Over every interleaving after boot each task has at most one live executor, exactly when
      boot registered every executor that is alive, under the pid of its one process, and no two
      for one task. */
  lemma OneLiveExecutorExactlyWhen(s: State)
    requires Booted(s)
    ensures NeverTwo(s) <==> Registered(s)
  {
    if Registered(s) {
      assert Inv(s);
      forall steps: seq<Step> | Possible(s, steps) ensures OneLive(After(s, steps)) {
        RunKeepsInv(s, steps);
        InvMeansOneLive(After(s, steps));
      }
    } else if e, d :| e in s.orphans && d in s.orphans && SameTask(e, d) && e != d {
      TwoOrphansCanBothLive(s, e, d);
    } else if e :| e in s.strays && e.task != "" {
      StrayCanBeDoubled(s, e);
    } else {
      var e :| Count(s.live, e) > 0 && e.task != "" && !(Count(s.live, e) == 1 && e in s.orphans);
      if Count(s.live, e) > 1 {
        assert Possible(s, []) && After(s, []) == s;
      } else {
        LiveUnregisteredCanBeDoubled(s, e);
      }
    }
  }

  // ---------------------------------------------------------------------------
  // The locked registries
  // ---------------------------------------------------------------------------

  /** The runtime's fork state. Every method is one critical section of its lock. */
  class ForkState {
    var forkingTasks: set<string>
    var taskExecutors: map<string, Exec>
    var preparingExecutors: set<Exec>

    constructor ()
      ensures forkingTasks == {} && taskExecutors == map[] && preparingExecutors == {}
    {
      forkingTasks, taskExecutors, preparingExecutors := {}, map[], {};
    }

    /** Never waits: a task that is running or being forked is turned away, with the executor
        that already serves it when there is one. */
    method BeginTaskFork(task: string) returns (started: bool, existing: Option<Exec>)
      modifies this`forkingTasks
      ensures started <==> Admitted(taskExecutors, old(forkingTasks), task)
      ensures forkingTasks == if started then old(forkingTasks) + {task} else old(forkingTasks)
      ensures existing == if task in taskExecutors then Some(taskExecutors[task]) else None
    {
      if task in taskExecutors {
        return false, Some(taskExecutors[task]);
      }
      if task in forkingTasks {
        return false, None;
      }
      forkingTasks := forkingTasks + {task};
      return true, None;
    }

    method EndTaskFork(task: string)
      modifies this`forkingTasks
      ensures forkingTasks == old(forkingTasks) - {task}
    {
      forkingTasks := forkingTasks - {task};
    }

    method TrackTaskExecutor(task: string, e: Exec)
      modifies this`taskExecutors
      ensures taskExecutors == if task == "" then old(taskExecutors) else old(taskExecutors)[task := e]
    {
      if task == "" {
        return;
      }
      taskExecutors := taskExecutors[task := e];
    }

    method UntrackTaskExecutor(task: string, e: Exec)
      modifies this`taskExecutors
      ensures taskExecutors == WithoutBinding(old(taskExecutors), task, e)
    {
      if task in taskExecutors {
        if taskExecutors[task] == e {
          taskExecutors := taskExecutors - {task};
        }
      }
    }

    /** Who serves the task, looked for in the registry and then among the snapshots. */
    method ExecutorForTask(orphans: seq<Exec>, pool: seq<Exec>, task: string) returns (found: Option<Exec>)
      ensures found.Some? <==> task in taskExecutors || AnyFor(Elements(orphans) + Elements(pool), task)
      ensures task in taskExecutors ==> found == Some(taskExecutors[task])
      ensures found.Some? && task !in taskExecutors ==>
                found.value in Elements(orphans) + Elements(pool) && found.value.task == task
    {
      if task in taskExecutors {
        return Some(taskExecutors[task]);
      }
      var snaps := pool + orphans;
      for i := 0 to |snaps|
        invariant forall j :: 0 <= j < i ==> snaps[j].task != task
      {
        if snaps[i].task == task {
          assert snaps[i] in Elements(orphans) + Elements(pool);
          return Some(snaps[i]);
        }
      }
      forall e | e in Elements(orphans) + Elements(pool) ensures e.task != task {
        assert e in snaps;
      }
      return None;
    }
  }

  function Elements(es: seq<Exec>): set<Exec> {
    set e | e in es
  }

  /** The engine's recovery claims and orphans. Every method is one critical section. */
  class Engine {
    var recovering: set<Exec>
    var orphans: set<Exec>

    constructor ()
      ensures recovering == {} && orphans == {}
    {
      recovering, orphans := {}, {};
    }

    /** Of any number of claims on an executor not yet settled, exactly one is granted. */
    method BeginRecovery(e: Exec) returns (claimed: bool)
      modifies this`recovering
      ensures claimed <==> e !in old(recovering)
      ensures recovering == old(recovering) + {e}
    {
      if e in recovering {
        return false;
      }
      recovering := recovering + {e};
      return true;
    }

    method EndRecovery(e: Exec)
      modifies this`recovering
      ensures recovering == old(recovering) - {e}
    {
      recovering := recovering - {e};
    }

    method RecordOrphan(e: Exec)
      modifies this`orphans
      ensures orphans == old(orphans) + {e}
    {
      orphans := orphans + {e};
    }

    method DropOrphan(e: Exec)
      modifies this`orphans
      ensures orphans == old(orphans) - {e}
    {
      orphans := orphans - {e};
    }
  }
}
