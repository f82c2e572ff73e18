/** Boot reconciliation: every executor that the disk knows is adopted, relaunched, finalized,
    sealed, cancelled or left, by what it left behind and what the center says of its task. */
module BootReconcile {
  import opened Text
  import opened Center
  import opened ForkGate
  import Completion
  import Recovery

  type Answer = Recovery.Answer

  /** Who answers at the pid in an executor's record: nobody, also where there is no record; the
      executor's own process; or another one that was given the pid later. */
  datatype Recorded = Nobody | Own | Foreign

  /** One scanned executor. Boot sees whether somebody answers at the recorded pid, and the output
      and status files; it does not see whose process that is, and nothing of the `strays`, the
      processes of the executor under pids that its record does not name. */
  datatype Item = Item(
    exec: Exec, output: Option<bool>, status: Option<Completion.Status>, recorded: Recorded, strays: nat, tier: Recovery.Tier)

  datatype Action = Adopt | Recover | Finalize | QuietFinalize | VerifyCancel | LeaveAlone

  /** A line of the center's answer to the in-flight query. */
  datatype Listed = Listed(task: string, status: string)

  function KindOf(it: Item): Completion.Kind {
    Completion.Classify(Completion.Found(it.recorded != Nobody, it.output, it.status))
  }

  /** Nothing is classified as running without a recorded pid that answers. */
  predicate Alive(it: Item) {
    KindOf(it) == Completion.Running
  }

  predicate ClaimsAnEnd(status: Option<Completion.Status>) {
    status == Some(Completion.StatusDone) || status == Some(Completion.StatusFailed)
  }

  predicate HasTerminalFile(it: Item) {
    it.output.Some? || ClaimsAnEnd(it.status)
  }

  predicate Dead(it: Item) {
    Completion.IsDeath(KindOf(it), it.output.Some?)
  }

  predicate InFlight(inflight: Option<set<string>>, task: string) {
    inflight.Some? && task in inflight.value
  }

  function Classify(it: Item, inflight: Option<set<string>>): Action {
    var task := it.exec.task;
    if KindOf(it) == Completion.Succeeded then
      if task != "" && InFlight(inflight, task) then Finalize else QuietFinalize
    else if Alive(it) then
      if inflight.None? then Adopt
      else if task == "" then LeaveAlone
      else if !InFlight(inflight, task) then VerifyCancel
      else Adopt
    else if inflight.None? || task == "" then
      if HasTerminalFile(it) then QuietFinalize else Finalize
    else if !InFlight(inflight, task) then
      if HasTerminalFile(it) then QuietFinalize else VerifyCancel
    else if Dead(it) then Recover
    else Finalize
  }

  // ---------------------------------------------------------------------------
  // Effects
  // ---------------------------------------------------------------------------

  /** What the world has in store: the center's answers, whether the pool takes an adoption and
      whether a relaunch succeeds. */
  datatype Env = Env(answer: Exec -> Answer, slotFree: Exec -> bool, spawns: Exec -> bool, agent: string)

  datatype Effect =
    | Adopted | NotAdopted
    | Relaunched | NotRelaunched | CleanedUp
    | WrittenBack | Sealed
    | Cancelled | KeptLive | KeptDead
    | Untouched

  function EffectOf(it: Item, inflight: Option<set<string>>, env: Env): Effect {
    match Classify(it, inflight)
    case Adopt => if env.slotFree(it.exec) then Adopted else NotAdopted
    case Recover =>
      if it.tier == Recovery.StartOver then CleanedUp
      else if env.spawns(it.exec) then Relaunched else NotRelaunched
    case Finalize => WrittenBack
    case QuietFinalize => Sealed
    case VerifyCancel =>
      var answer := env.answer(it.exec);
      if answer.Detail? && CancelEvidence(answer.task, env.agent) then Cancelled
      else if Alive(it) then KeptLive else KeptDead
    case LeaveAlone => Untouched
  }

  predicate Registers(effect: Effect) {
    effect == Adopted || effect == KeptLive || effect == Relaunched
  }

  /** Whoever answers at a recorded pid, with no sign of an end on disk, is killed exactly when the
      center returned the task and it is settled, parked, blocked for a reason or reassigned, its
      absence from the in-flight set being what made boot ask. */
  lemma KilledExactlyWhen(it: Item, inflight: Option<set<string>>, env: Env)
    ensures Alive(it) && EffectOf(it, inflight, env) == Cancelled <==>
            && it.recorded != Nobody && it.output.None? && !ClaimsAnEnd(it.status)
            && inflight.Some? && it.exec.task != "" && it.exec.task !in inflight.value
            && env.answer(it.exec).Detail?
            && (var t := env.answer(it.exec).task;
                SettledOrParked(t.status) || TrimSpace(t.blockedReason) != "" || Reassigned(t.assignee, env.agent))
  {
  }

  /** Recovery is tried exactly for a task in flight whose executor left no output and whose status
      file claims an end or whose recorded pid does not answer. */
  lemma RecoveredExactlyWhen(it: Item, inflight: Option<set<string>>, env: Env)
    ensures EffectOf(it, inflight, env) in {Relaunched, NotRelaunched, CleanedUp} <==>
            && inflight.Some? && it.exec.task in inflight.value && it.exec.task != ""
            && it.output.None? && (it.recorded == Nobody || ClaimsAnEnd(it.status))
  {
  }

  /** What boot reports to the center, for every executor it scans. No backfill: an output, be it a
      success or a failure, is written back exactly if its task is in the confirmed in-flight set;
      without one, only what left no sign of an end and does not answer, while the set or the task
      is unknown. */
  lemma WrittenBackExactlyWhen(it: Item, inflight: Option<set<string>>, env: Env)
    ensures EffectOf(it, inflight, env) == WrittenBack <==>
            var known := inflight.Some? && it.exec.task != "";
            if it.output.Some? then known && it.exec.task in inflight.value
            else !known && it.recorded == Nobody && !ClaimsAnEnd(it.status)
  {
  }

  /** What becomes of a live executor: it is left alone exactly if it has no task, asked about
      exactly if its task is known not to be in flight, and adopted in every other case. */
  lemma FateOfTheLiving(it: Item, inflight: Option<set<string>>, env: Env)
    requires Alive(it)
    ensures EffectOf(it, inflight, env) == Untouched <==> inflight.Some? && it.exec.task == ""
    ensures EffectOf(it, inflight, env) in {Cancelled, KeptLive} <==> inflight.Some? && it.exec.task != "" && it.exec.task !in inflight.value
    ensures EffectOf(it, inflight, env) in {Adopted, NotAdopted} <==> inflight.None? || (it.exec.task != "" && it.exec.task in inflight.value)
  {
  }

  // ---------------------------------------------------------------------------
  // The in-flight set
  // ---------------------------------------------------------------------------

  predicate Dispatchable(line: Listed) {
    line.task != "" && !SettledOrParked(line.status)
  }

  method InflightTaskSet(listed: Option<seq<Listed>>) returns (inflight: Option<set<string>>)
    ensures inflight.Some? <==> listed.Some?
    ensures inflight.Some? ==> forall task ::
              task in inflight.value <==> exists i :: 0 <= i < |listed.value| && listed.value[i].task == task && Dispatchable(listed.value[i])
  {
    if listed.None? {
      return None;
    }
    var lines, found: set<string> := listed.value, {};
    for n := 0 to |lines|
      invariant forall task :: task in found <==> exists i :: 0 <= i < n && lines[i].task == task && Dispatchable(lines[i])
    {
      if lines[n].task == "" {
        continue;
      }
      if SettledOrParked(lines[n].status) {
        continue;
      }
      found := found + {lines[n].task};
    }
    return Some(found);
  }

  // ---------------------------------------------------------------------------
  // The driver
  // ---------------------------------------------------------------------------

  datatype Tally = Tally(adopted: nat, recovered: nat, finalized: nat, quietFinalized: nat, cancelled: nat, kept: nat)

  function Sum(t: Tally): nat {
    t.adopted + t.recovered + t.finalized + t.quietFinalized + t.cancelled + t.kept
  }

  /** Which counter an effect belongs to. */
  function Counted(t: Tally, effect: Effect): Tally {
    match effect
    case Adopted => t.(adopted := t.adopted + 1)
    case Relaunched => t.(recovered := t.recovered + 1)
    case NotRelaunched => t.(recovered := t.recovered + 1)
    case CleanedUp => t.(recovered := t.recovered + 1)
    case WrittenBack => t.(finalized := t.finalized + 1)
    case Sealed => t.(quietFinalized := t.quietFinalized + 1)
    case Cancelled => t.(cancelled := t.cancelled + 1)
    case _ => t.(kept := t.kept + 1)
  }

  function TallyOf(items: seq<Item>, inflight: Option<set<string>>, env: Env): (t: Tally)
    ensures Sum(t) == |items|
  {
    if items == [] then Tally(0, 0, 0, 0, 0, 0)
    else Counted(TallyOf(items[..|items| - 1], inflight, env), EffectOf(items[|items| - 1], inflight, env))
  }

  /** The executors of the items with one of the effects. */
  function With(items: seq<Item>, inflight: Option<set<string>>, env: Env, effects: set<Effect>): set<Exec> {
    set i | 0 <= i < |items| && EffectOf(items[i], inflight, env) in effects :: items[i].exec
  }

  const REGISTERING := {Adopted, KeptLive, Relaunched}

  predicate DistinctExecs(items: seq<Item>) {
    forall i, j :: 0 <= i < j < |items| ==> items[i].exec != items[j].exec
  }

  class Boot {
    var orphans: set<Exec>
    var pool: set<Exec>
    var killed: set<Exec>
    var writtenBack: set<Exec>
    var sealed: set<Exec>
    var relaunched: set<Exec>
    var tally: Tally

    constructor ()
      ensures orphans == {} && pool == {} && killed == {} && writtenBack == {} && sealed == {} && relaunched == {}
      ensures tally == Tally(0, 0, 0, 0, 0, 0)
    {
      orphans, pool, killed, writtenBack, sealed, relaunched := {}, {}, {}, {}, {}, {};
      tally := Tally(0, 0, 0, 0, 0, 0);
    }

    /** Adopt into the pool first; only then is the orphan recorded. */
    method AdoptOrphan(e: Exec, slotFree: bool) returns (ok: bool)
      modifies this`orphans, this`pool
      ensures ok <==> e in old(pool) || slotFree
      ensures orphans == if ok then old(orphans) + {e} else old(orphans)
      ensures pool == if ok then old(pool) + {e} else old(pool)
    {
      if e !in pool {
        if !slotFree {
          return false;
        }
        pool := pool + {e};
      }
      orphans := orphans + {e};
      return true;
    }

    /** Adopt, and keep track of the process even where the pool has no slot for it. */
    method AdoptOrRecord(e: Exec, slotFree: bool)
      modifies this`orphans, this`pool
      ensures orphans == old(orphans) + {e} && old(pool) <= pool <= old(pool) + {e}
    {
      var ok := AdoptOrphan(e, slotFree);
      if !ok {
        orphans := orphans + {e};
      }
    }

    method VerifyThenCancel(it: Item, env: Env) returns (cancelled: bool)
      requires it.exec !in orphans
      modifies this`orphans, this`pool, this`killed
      ensures cancelled <==> env.answer(it.exec).Detail? && CancelEvidence(env.answer(it.exec).task, env.agent)
      ensures orphans == if !cancelled && Alive(it) then old(orphans) + {it.exec} else old(orphans)
      ensures killed == if cancelled && Alive(it) then old(killed) + {it.exec} else old(killed)
      ensures old(pool) <= pool <= old(pool) + orphans
    {
      var answer := env.answer(it.exec);
      if answer.Detail? {
        if CancelEvidence(answer.task, env.agent) {
          if Alive(it) {
            killed := killed + {it.exec};
          }
          orphans := orphans - {it.exec};
          return true;
        }
      }
      if Alive(it) {
        AdoptOrRecord(it.exec, env.slotFree(it.exec));
      }
      return false;
    }

    /** One round of the driver's loop. */
    method ReconcileOne(it: Item, inflight: Option<set<string>>, env: Env) returns (effect: Effect)
      requires it.exec !in orphans && pool <= orphans
      modifies this
      ensures effect == EffectOf(it, inflight, env)
      ensures tally == Counted(old(tally), effect)
      ensures orphans == if effect in REGISTERING then old(orphans) + {it.exec} else old(orphans)
      ensures pool <= orphans
      ensures killed == if effect == Cancelled && Alive(it) then old(killed) + {it.exec} else old(killed)
      ensures writtenBack == if effect == WrittenBack then old(writtenBack) + {it.exec} else old(writtenBack)
      ensures sealed == if effect == Sealed then old(sealed) + {it.exec} else old(sealed)
      ensures relaunched == if effect == Relaunched then old(relaunched) + {it.exec} else old(relaunched)
    {
      effect := EffectOf(it, inflight, env);
      match Classify(it, inflight) {
        case Adopt =>
          var ok := AdoptOrphan(it.exec, env.slotFree(it.exec));
        case Recover =>
          if it.tier != Recovery.StartOver && env.spawns(it.exec) {
            relaunched := relaunched + {it.exec};
            AdoptOrRecord(it.exec, env.slotFree(it.exec));
          }
        case Finalize => writtenBack := writtenBack + {it.exec};
        case QuietFinalize => sealed := sealed + {it.exec};
        case VerifyCancel =>
          var cancelled := VerifyThenCancel(it, env);
        case LeaveAlone =>
      }
      tally := Counted(tally, effect);
    }

    /** The driver: exactly one outcome for each executor scanned. */
    method ReconcileExecutors(items: seq<Item>, inflight: Option<set<string>>, env: Env)
      requires orphans == {} && pool == {} && killed == {} && tally == Tally(0, 0, 0, 0, 0, 0) && DistinctExecs(items)
      requires writtenBack == {} && sealed == {} && relaunched == {}
      modifies this
      ensures tally == TallyOf(items, inflight, env) && Sum(tally) == |items|
      ensures orphans == With(items, inflight, env, REGISTERING) && pool <= orphans
      ensures killed == Killed(items, inflight, env)
      ensures writtenBack == With(items, inflight, env, {WrittenBack})
      ensures sealed == With(items, inflight, env, {Sealed})
      ensures relaunched == With(items, inflight, env, {Relaunched})
    {
      for n := 0 to |items|
        invariant tally == TallyOf(items[..n], inflight, env)
        invariant orphans == With(items[..n], inflight, env, REGISTERING) && pool <= orphans
        invariant killed == Killed(items[..n], inflight, env)
        invariant writtenBack == With(items[..n], inflight, env, {WrittenBack})
        invariant sealed == With(items[..n], inflight, env, {Sealed})
        invariant relaunched == With(items[..n], inflight, env, {Relaunched})
      {
        assert items[..n + 1][..n] == items[..n];
        OneMore(items, n, inflight, env, REGISTERING);
        OneMore(items, n, inflight, env, {WrittenBack});
        OneMore(items, n, inflight, env, {Sealed});
        OneMore(items, n, inflight, env, {Relaunched});
        KilledWithOneMore(items, n, inflight, env);
        var effect := ReconcileOne(items[n], inflight, env);
      }
      assert items[..|items|] == items;
    }
  }

  function Killed(items: seq<Item>, inflight: Option<set<string>>, env: Env): set<Exec> {
    set i | 0 <= i < |items| && IsKilled(items[i], inflight, env) :: items[i].exec
  }

  predicate IsKilled(it: Item, inflight: Option<set<string>>, env: Env) {
    EffectOf(it, inflight, env) == Cancelled && Alive(it)
  }

  lemma OneMore(items: seq<Item>, n: nat, inflight: Option<set<string>>, env: Env, effects: set<Effect>)
    requires n < |items| && DistinctExecs(items)
    ensures items[n].exec !in With(items[..n], inflight, env, effects)
    ensures With(items[..n + 1], inflight, env, effects) ==
            With(items[..n], inflight, env, effects) + (if EffectOf(items[n], inflight, env) in effects then {items[n].exec} else {})
  {
    var a, b := items[..n], items[..n + 1];
    assert forall i :: 0 <= i < n ==> a[i] == b[i] == items[i];
    assert b[n] == items[n];
  }

  lemma KilledWithOneMore(items: seq<Item>, n: nat, inflight: Option<set<string>>, env: Env)
    requires n < |items|
    ensures Killed(items[..n + 1], inflight, env) ==
            Killed(items[..n], inflight, env) + (if IsKilled(items[n], inflight, env) then {items[n].exec} else {})
  {
    var a, b := items[..n], items[..n + 1];
    assert forall i :: 0 <= i < n ==> a[i] == b[i] == items[i];
    assert b[n] == items[n];
  }

  // ---------------------------------------------------------------------------
  // From the disk to every run after boot
  // ---------------------------------------------------------------------------

  /** The processes that run for an executor when boot is done: its own at the recorded pid, unless
      it was killed; those that boot does not see; and the one that boot started. */
  function Remaining(it: Item, inflight: Option<set<string>>, env: Env): nat {
    (if it.recorded == Own && !IsKilled(it, inflight, env) then 1 else 0)
    + it.strays
    + (if EffectOf(it, inflight, env) == Relaunched then 1 else 0)
  }

  function Execs(items: seq<Item>): set<Exec> {
    set i | 0 <= i < |items| :: items[i].exec
  }

  function Strays(items: seq<Item>): set<Exec> {
    set i | 0 <= i < |items| && items[i].strays > 0 :: items[i].exec
  }

  function Processes(items: seq<Item>, inflight: Option<set<string>>, env: Env): map<Exec, nat>
    requires DistinctExecs(items)
  {
    map i | 0 <= i < |items| :: items[i].exec := Remaining(items[i], inflight, env)
  }

  /** The state in which the first fork command finds the runtime. */
  function StateAfterBoot(items: seq<Item>, inflight: Option<set<string>>, env: Env, pool: set<Exec>): State
    requires DistinctExecs(items)
  {
    State({}, map[], map[], With(items, inflight, env, REGISTERING), pool, {}, map[], WIdle, {},
          Processes(items, inflight, env), Execs(items), Strays(items))
  }

  /** A survivor whose adoption the pool refused. */
  predicate AdoptionFailed(it: Item, inflight: Option<set<string>>, env: Env) {
    it.exec.task != "" && it.recorded == Own && EffectOf(it, inflight, env) == NotAdopted
  }

  /** No process runs for the executor but the one that its record names, and that one has left no
      sign of an end on disk. */
  predicate AsRecorded(it: Item) {
    it.strays == 0 && (it.recorded == Own ==> !HasTerminalFile(it))
  }

  /** Boot knows of whatever runs for the executor. */
  predicate WellHeld(it: Item, inflight: Option<set<string>>, env: Env) {
    && it.strays == 0
    && (Remaining(it, inflight, env) > 0 ==> Remaining(it, inflight, env) == 1 && EffectOf(it, inflight, env) in REGISTERING)
  }

  lemma WellHeldExactlyWhen(it: Item, inflight: Option<set<string>>, env: Env)
    requires it.exec.task != ""
    ensures WellHeld(it, inflight, env) <==> AsRecorded(it) && !AdoptionFailed(it, inflight, env)
  {
  }

  /** No two executors that boot registers belong to one task. */
  ghost predicate OnePerTask(items: seq<Item>, inflight: Option<set<string>>, env: Env) {
    forall i, j ::
      0 <= i < |items| && 0 <= j < |items| && Registers(EffectOf(items[i], inflight, env)) && Registers(EffectOf(items[j], inflight, env)) ==>
        i == j || !SameTask(items[i].exec, items[j].exec)
  }

  /** Boot knows of whatever runs for any executor of a task. */
  ghost predicate AllWellHeld(items: seq<Item>, inflight: Option<set<string>>, env: Env) {
    forall i :: 0 <= i < |items| && items[i].exec.task != "" ==> WellHeld(items[i], inflight, env)
  }

  lemma ItemIsItsExec(items: seq<Item>, inflight: Option<set<string>>, env: Env, i: nat)
    requires DistinctExecs(items) && i < |items|
    ensures items[i].exec in With(items, inflight, env, REGISTERING) <==> Registers(EffectOf(items[i], inflight, env))
    ensures items[i].exec in Strays(items) <==> items[i].strays > 0
    ensures Count(Processes(items, inflight, env), items[i].exec) == Remaining(items[i], inflight, env)
  {
  }

  lemma RegisteredShareNoTask(items: seq<Item>, inflight: Option<set<string>>, env: Env, e: Exec, d: Exec)
    requires OnePerTask(items, inflight, env) && SameTask(e, d)
    requires e in With(items, inflight, env, REGISTERING) && d in With(items, inflight, env, REGISTERING)
    ensures e == d
  {
    var i :| 0 <= i < |items| && Registers(EffectOf(items[i], inflight, env)) && items[i].exec == e;
    var j :| 0 <= j < |items| && Registers(EffectOf(items[j], inflight, env)) && items[j].exec == d;
  }

  lemma SoundBootIsRegistered(items: seq<Item>, inflight: Option<set<string>>, env: Env, pool: set<Exec>)
    requires DistinctExecs(items) && OnePerTask(items, inflight, env) && AllWellHeld(items, inflight, env)
    ensures Registered(StateAfterBoot(items, inflight, env, pool))
  {
    var s := StateAfterBoot(items, inflight, env, pool);
    forall e: Exec | e.task != "" && (e in s.strays || Count(s.live, e) > 0) ensures e !in s.strays && Count(s.live, e) == 1 && e in s.orphans {
      var i :| 0 <= i < |items| && items[i].exec == e;
      ItemIsItsExec(items, inflight, env, i);
      assert WellHeld(items[i], inflight, env);
    }
    forall e, d | e in s.orphans && d in s.orphans && SameTask(e, d) ensures e == d {
      RegisteredShareNoTask(items, inflight, env, e, d);
    }
  }

  lemma RegisteredBootIsSound(items: seq<Item>, inflight: Option<set<string>>, env: Env, pool: set<Exec>)
    requires DistinctExecs(items) && Registered(StateAfterBoot(items, inflight, env, pool))
    ensures OnePerTask(items, inflight, env) && AllWellHeld(items, inflight, env)
  {
    var s := StateAfterBoot(items, inflight, env, pool);
    forall i | 0 <= i < |items|
      ensures items[i].exec in s.orphans <==> Registers(EffectOf(items[i], inflight, env))
      ensures items[i].exec.task != "" ==> WellHeld(items[i], inflight, env)
    {
      ItemIsItsExec(items, inflight, env, i);
    }
  }

  /** From boot on, over every interleaving of forks, drains, polls and relaunches, no task ever has
      two live executors, exactly when no executor of a task ran, as boot found it, in a process
      that its record does not name or beside a file that claims its end, boot adopted every
      survivor that it meant to, and registered no two executors of one task. */
  lemma OneLiveFromBootExactlyWhen(items: seq<Item>, inflight: Option<set<string>>, env: Env, pool: set<Exec>)
    requires DistinctExecs(items) && pool <= With(items, inflight, env, REGISTERING)
    ensures NeverTwo(StateAfterBoot(items, inflight, env, pool)) <==>
            && (forall i :: 0 <= i < |items| && items[i].exec.task != "" ==> AsRecorded(items[i]))
            && (forall i :: 0 <= i < |items| ==> !AdoptionFailed(items[i], inflight, env))
            && OnePerTask(items, inflight, env)
  {
    var s := StateAfterBoot(items, inflight, env, pool);
    StrayExecsLive(items, inflight, env);
    OneLiveExecutorExactlyWhen(s);
    if Registered(s) {
      RegisteredBootIsSound(items, inflight, env, pool);
    }
    if OnePerTask(items, inflight, env) && AllWellHeld(items, inflight, env) {
      SoundBootIsRegistered(items, inflight, env, pool);
    }
    forall i | 0 <= i < |items| && items[i].exec.task != ""
      ensures WellHeld(items[i], inflight, env) <==> AsRecorded(items[i]) && !AdoptionFailed(items[i], inflight, env)
    {
      WellHeldExactlyWhen(items[i], inflight, env);
    }
  }

  lemma StrayExecsLive(items: seq<Item>, inflight: Option<set<string>>, env: Env)
    requires DistinctExecs(items)
    ensures forall e :: e in Strays(items) ==> Count(Processes(items, inflight, env), e) > 0
  {
    forall e | e in Strays(items) ensures Count(Processes(items, inflight, env), e) > 0 {
      var i :| 0 <= i < |items| && items[i].strays > 0 && items[i].exec == e;
      ItemIsItsExec(items, inflight, env, i);
    }
  }

  // ---------------------------------------------------------------------------
  // How the conditions fail
  // ---------------------------------------------------------------------------

  /** Two executors that both died without a verdict on the same task in flight are both relaunched:
      the disk has to hold at most one of them. */
  lemma TwoDeadAreBothRelaunched(a: Item, b: Item, inflight: set<string>, env: Env)
    requires a.exec != b.exec && SameTask(a.exec, b.exec) && a.exec.task in inflight
    requires Dead(a) && Dead(b)
    requires a.tier != Recovery.StartOver && b.tier != Recovery.StartOver && env.spawns(a.exec) && env.spawns(b.exec)
    ensures !OneLive(StateAfterBoot([a, b], Some(inflight), env, {}))
  {
    var items := [a, b];
    ItemIsItsExec(items, Some(inflight), env, 0);
    ItemIsItsExec(items, Some(inflight), env, 1);
  }

  /** What the next boot finds of an executor that was relaunched in place and is still at work when
      the runtime goes down: the record keeps naming the dead process, since a relaunch does not
      write it, the new process has no output yet, whatever the status file says by then, and it
      outlives the runtime. */
  function AfterRelaunch(it: Item, status: Option<Completion.Status>): Item {
    it.(output := None, status := status, recorded := Nobody, strays := it.strays + 1)
  }

  /** A relaunch leaves one process at work for the executor, and the boot after it starts a second
      one if the task is still in flight and there is still something to relaunch. */
  lemma RelaunchedIsDoubledAtTheNextBoot(it: Item, inflight: set<string>, env: Env,
                                         status: Option<Completion.Status>, nextInflight: set<string>, nextEnv: Env)
    requires it.recorded == Nobody && it.strays == 0 && it.exec.task != ""
    requires EffectOf(it, Some(inflight), env) == Relaunched
    requires it.exec.task in nextInflight && nextEnv.spawns(it.exec)
    ensures NeverTwo(StateAfterBoot([it], Some(inflight), env, {}))
    ensures !OneLive(StateAfterBoot([AfterRelaunch(it, status)], Some(nextInflight), nextEnv, {}))
  {
    OneLiveFromBootExactlyWhen([it], Some(inflight), env, {});
    var items := [AfterRelaunch(it, status)];
    ItemIsItsExec(items, Some(nextInflight), nextEnv, 0);
    assert Count(StateAfterBoot(items, Some(nextInflight), nextEnv, {}).live, it.exec) == 2;
  }

  /** A process that has written a failed status without an output, and is still there, gets a
      second one beside it. */
  lemma ExitingIsDoubled(it: Item, inflight: set<string>, env: Env)
    requires it.recorded == Own && it.output.None? && ClaimsAnEnd(it.status)
    requires it.exec.task != "" && it.exec.task in inflight && it.tier != Recovery.StartOver && env.spawns(it.exec)
    ensures !OneLive(StateAfterBoot([it], Some(inflight), env, {}))
  {
    ItemIsItsExec([it], Some(inflight), env, 0);
    assert Count(StateAfterBoot([it], Some(inflight), env, {}).live, it.exec) >= 2;
  }
}
