/** Mid-life point recovery: one executor was seen to die or stall, and is either brought back in
    place, within its task's budget, or finalized. */
module Recovery {
  import opened Text
  import opened Center
  import Completion

  type Kind = Completion.Kind

  datatype Tier = Resume | Rerun | StartOver

  /** The durable record of an executor, as far as the ladder looks at it. */
  datatype Record = Record(sessionId: string, resumable: bool)

  /** What get_task answered. */
  datatype Answer = QueryFailed | NoDetail | Detail(task: Task)

  /** What a trigger finds out about the executor: `stopped` on entry and `stoppedLate` just
      before a relaunch, `fused` when the center revoked the task. */
  datatype Facts = Facts(
    stopped: bool, fused: bool, kind: Kind, hasOutput: bool, wasStall: bool, taskRef: string, answer: Answer,
    plannerFails: bool, record: Option<Record>, workspacePresent: bool, stoppedLate: bool)

  datatype Verdict = QuietStop | QuietFuse | Terminal | TerminalEscalated | Recovered(tier: Tier)

  /** A verdict and whether it makes the runtime forget the task's budget. */
  datatype Ruling = Ruling(verdict: Verdict, clears: bool)

  const MAX_CRASH := 3

  const MAX_STALL := 1

  function Allowed(stall: bool): nat {
    if stall then MAX_STALL else MAX_CRASH
  }

  datatype Budget = Budget(stall: nat, crash: nat)

  function BudgetOf(counts: map<string, Budget>, task: string): Budget {
    if task in counts then counts[task] else Budget(0, 0)
  }

  function Spent(b: Budget, stall: bool): nat {
    if stall then b.stall else b.crash
  }

  function OneMore(b: Budget, stall: bool): Budget {
    if stall then b.(stall := b.stall + 1) else b.(crash := b.crash + 1)
  }

  // ---------------------------------------------------------------------------
  // The decision
  // ---------------------------------------------------------------------------

  /** The executor died or stalled without having reached a verdict of its own. */
  predicate DeathOrStall(f: Facts) {
    Completion.DeathOrStall(f.kind, f.hasOutput, f.wasStall)
  }

  /** The center confirms that the task is still to be worked on here. */
  predicate Confirmed(answer: Answer, agent: string) {
    answer.Detail? && !CancelEvidence(answer.task, agent)
  }

  /** The ruling that comes before the budget is touched, if one does. */
  function EarlyRuling(f: Facts, agent: string): Option<Ruling> {
    if f.stopped then Some(Ruling(QuietStop, f.taskRef != ""))
    else if f.fused then Some(Ruling(QuietFuse, f.taskRef != ""))
    else if !DeathOrStall(f) || f.taskRef == "" then Some(Ruling(Terminal, false))
    else if !Confirmed(f.answer, agent) then Some(Ruling(Terminal, true))
    else None
  }

  /** The rung of the recovery ladder. */
  function Planned(record: Option<Record>, workspacePresent: bool): Tier {
    if record.None? || !workspacePresent then StartOver
    else if TrimSpace(record.value.sessionId) != "" && record.value.resumable then Resume
    else Rerun
  }

  /** A stalled conversation is not resumed: it would stall again. */
  function Rung(f: Facts): Tier {
    var tier := Planned(f.record, f.workspacePresent);
    if f.wasStall && tier == Resume && f.record.Some? then Rerun else tier
  }

  /** The ruling once the budget has granted a recovery. */
  function LateRuling(f: Facts): Ruling {
    if f.plannerFails then Ruling(Terminal, false)
    else if f.stoppedLate then Ruling(QuietStop, true)
    else Ruling(Recovered(Rung(f)), false)
  }

  /** The whole decision for one trigger that owns the executor. */
  function Ruled(counts: map<string, Budget>, f: Facts, agent: string): Ruling {
    match EarlyRuling(f, agent)
    case Some(r) => r
    case None =>
      if Spent(BudgetOf(counts, f.taskRef), f.wasStall) >= Allowed(f.wasStall) then Ruling(TerminalEscalated, true)
      else LateRuling(f)
  }

  /** The budgets after the decision. */
  function CountsAfter(counts: map<string, Budget>, f: Facts, agent: string): map<string, Budget> {
    var b := BudgetOf(counts, f.taskRef);
    var used := if EarlyRuling(f, agent).None? && Spent(b, f.wasStall) < Allowed(f.wasStall)
                then counts[f.taskRef := OneMore(b, f.wasStall)] else counts;
    if Ruled(counts, f, agent).clears then used - {f.taskRef} else used
  }

  /** An executor is brought back exactly when it died or stalled with no verdict of its own, the
      runtime is not stopping, the center did not revoke its task and confirms that it is still to
      be worked on here, and the budget for this cause is not spent. */
  lemma RecoveredExactlyWhen(counts: map<string, Budget>, f: Facts, agent: string)
    ensures Ruled(counts, f, agent).verdict.Recovered? <==>
            && !f.stopped && !f.stoppedLate && !f.fused && !f.plannerFails
            && (f.wasStall || f.kind == Completion.Crashed || (f.kind == Completion.Failed && !f.hasOutput))
            && f.taskRef != "" && f.answer.Detail?
            && !SettledOrParked(f.answer.task.status) && TrimSpace(f.answer.task.blockedReason) == ""
            && !Reassigned(f.answer.task.assignee, agent)
            && Spent(BudgetOf(counts, f.taskRef), f.wasStall) < Allowed(f.wasStall)
  {
  }

  /** A conversation is resumed only after a crash, and only where there is one to resume. */
  lemma ResumedExactlyWhen(f: Facts)
    ensures Rung(f) == Resume <==>
            && !f.wasStall && f.workspacePresent && f.record.Some?
            && TrimSpace(f.record.value.sessionId) != "" && f.record.value.resumable
  {
  }

  // ---------------------------------------------------------------------------
  // Steps: one per critical section
  // ---------------------------------------------------------------------------

  datatype Pc = Deciding | Consuming | Granted(grant: nat) | Finishing(ruling: Ruling) | Ending

  /** A trigger that owns an executor's recovery: a drain or the watchdog. */
  datatype Actor = Actor(id: nat, f: Facts, pc: Pc)

  datatype Entry =
    | Grant(task: string, stall: bool)
    | Refusal(task: string, stall: bool)
    | Clear(task: string)
    | Recovery(id: nat, task: string, stall: bool, grant: nat)

  datatype State = State(recovering: set<nat>, counts: map<string, Budget>, actors: map<nat, Actor>, log: seq<Entry>)

  const START := State({}, map[], map[], [])

  datatype Step =
    | Trigger(a: nat, id: nat, f: Facts)
    | Decide(a: nat)
    | Consume(a: nat)
    | Enact(a: nat)
    | Finish(a: nat)
    | End(a: nat)

  predicate At(s: State, a: nat, pc: Pc) {
    a in s.actors && s.actors[a].pc == pc
  }

  predicate Enabled(s: State, step: Step) {
    match step
    case Trigger(a, _, _) => a !in s.actors
    case Decide(a) => At(s, a, Deciding)
    case Consume(a) => At(s, a, Consuming)
    case Enact(a) => a in s.actors && s.actors[a].pc.Granted?
    case Finish(a) => a in s.actors && s.actors[a].pc.Finishing?
    case End(a) => At(s, a, Ending)
  }

  function MoveTo(s: State, a: nat, pc: Pc): State
    requires a in s.actors
  {
    s.(actors := s.actors[a := s.actors[a].(pc := pc)])
  }

  function Next(s: State, agent: string, step: Step): State
    requires Enabled(s, step)
  {
    match step
    case Trigger(a, id, f) =>
      if id in s.recovering then s
      else s.(recovering := s.recovering + {id}, actors := s.actors[a := Actor(id, f, Deciding)])
    case Decide(a) =>
      (match EarlyRuling(s.actors[a].f, agent)
       case Some(r) => MoveTo(s, a, Finishing(r))
       case None => MoveTo(s, a, Consuming))
    case Consume(a) =>
      var f := s.actors[a].f;
      var b := BudgetOf(s.counts, f.taskRef);
      if Spent(b, f.wasStall) >= Allowed(f.wasStall) then
        MoveTo(s, a, Finishing(Ruling(TerminalEscalated, true))).(log := s.log + [Refusal(f.taskRef, f.wasStall)])
      else
        MoveTo(s, a, Granted(|s.log|)).(counts := s.counts[f.taskRef := OneMore(b, f.wasStall)], log := s.log + [Grant(f.taskRef, f.wasStall)])
    case Enact(a) =>
      var f := s.actors[a].f;
      if LateRuling(f).verdict.Recovered? then
        MoveTo(s, a, Ending).(log := s.log + [Recovery(s.actors[a].id, f.taskRef, f.wasStall, s.actors[a].pc.grant)])
      else MoveTo(s, a, Finishing(LateRuling(f)))
    case Finish(a) =>
      if s.actors[a].pc.ruling.clears then
        MoveTo(s, a, Ending).(counts := s.counts - {s.actors[a].f.taskRef}, log := s.log + [Clear(s.actors[a].f.taskRef)])
      else MoveTo(s, a, Ending)
    case End(a) => s.(actors := s.actors - {a}, recovering := s.recovering - {s.actors[a].id})
  }

  // ---------------------------------------------------------------------------
  // What every run keeps
  // ---------------------------------------------------------------------------

  /** The grants for a task and a cause among the first `n` entries, since its budget was last cleared. */
  function Since(log: seq<Entry>, task: string, stall: bool, n: nat): nat
    requires n <= |log|
  {
    if n == 0 || log[n - 1] == Clear(task) then 0
    else Since(log, task, stall, n - 1) + if log[n - 1] == Grant(task, stall) then 1 else 0
  }

  lemma {:induction false} SinceOfLonger(log: seq<Entry>, x: Entry, task: string, stall: bool, n: nat)
    requires n <= |log|
    ensures Since(log + [x], task, stall, n) == Since(log, task, stall, n)
  {
    if n > 0 {
      assert (log + [x])[n - 1] == log[n - 1];
      if log[n - 1] != Clear(task) {
        SinceOfLonger(log, x, task, stall, n - 1);
      }
    }
  }

  ghost predicate CountedSo(s: State, task: string, stall: bool) {
    Spent(BudgetOf(s.counts, task), stall) == Since(s.log, task, stall, |s.log|) <= Allowed(stall)
  }

  /** The budgets count the grants since the last clear, and never exceed the bound. */
  ghost predicate Counted(s: State) {
    forall task, stall :: CountedSo(s, task, stall)
  }

  /** One owner for each executor being recovered. */
  ghost predicate Claimed(s: State) {
    && (forall a :: a in s.actors ==> s.actors[a].id in s.recovering)
    && (forall a, b :: a in s.actors && b in s.actors && s.actors[a].id == s.actors[b].id ==> a == b)
  }

  ghost predicate GrantFor(log: seq<Entry>, g: nat, task: string, stall: bool) {
    g < |log| && log[g] == Grant(task, stall)
  }

  ghost predicate Unused(log: seq<Entry>, g: nat) {
    forall i :: 0 <= i < |log| && log[i].Recovery? ==> log[i].grant != g
  }

  /** Every recovery has a grant of its own. */
  ghost predicate Covered(s: State) {
    && (forall i :: 0 <= i < |s.log| && s.log[i].Recovery? ==> GrantFor(s.log, s.log[i].grant, s.log[i].task, s.log[i].stall))
    && (forall i, j :: 0 <= i < j < |s.log| && s.log[i].Recovery? && s.log[j].Recovery? ==> s.log[i].grant != s.log[j].grant)
    && (forall a :: a in s.actors && s.actors[a].pc.Granted? ==>
          GrantFor(s.log, s.actors[a].pc.grant, s.actors[a].f.taskRef, s.actors[a].f.wasStall) && Unused(s.log, s.actors[a].pc.grant))
    && (forall a, b :: a in s.actors && b in s.actors && s.actors[a].pc.Granted? && s.actors[a].pc == s.actors[b].pc ==> a == b)
  }

  /** Whoever reached the budget had no ruling before it. */
  ghost predicate Entitled(s: State, agent: string) {
    forall a :: a in s.actors && (s.actors[a].pc.Consuming? || s.actors[a].pc.Granted?) ==> EarlyRuling(s.actors[a].f, agent).None?
  }

  ghost predicate Inv(s: State, agent: string) {
    Counted(s) && Claimed(s) && Covered(s) && Entitled(s, agent)
  }

  lemma StepKeepsClaims(s: State, agent: string, step: Step)
    requires Claimed(s) && Entitled(s, agent) && Enabled(s, step)
    ensures Claimed(Next(s, agent, step)) && Entitled(Next(s, agent, step), agent)
  {
  }

  lemma LoggedIsCounted(s: State, t: State, x: Entry, task: string, stall: bool)
    requires CountedSo(s, task, stall) && t.log == s.log + [x]
    requires BudgetOf(t.counts, task) ==
             if x == Clear(task) then Budget(0, 0)
             else if x.Grant? && x.task == task then OneMore(BudgetOf(s.counts, task), x.stall)
             else BudgetOf(s.counts, task)
    requires x.Grant? ==> Spent(BudgetOf(s.counts, x.task), x.stall) < Allowed(x.stall)
    ensures CountedSo(t, task, stall)
  {
    SinceOfLonger(s.log, x, task, stall, |s.log|);
  }

  lemma StepKeepsCounts(s: State, agent: string, step: Step)
    requires Counted(s) && Enabled(s, step)
    ensures Counted(Next(s, agent, step))
  {
    var t := Next(s, agent, step);
    if t.log != s.log {
      var x := t.log[|s.log|];
      forall task, stall ensures CountedSo(t, task, stall) {
        assert CountedSo(s, task, stall);
        LoggedIsCounted(s, t, x, task, stall);
      }
    } else {
      forall task, stall ensures CountedSo(t, task, stall) {
        assert CountedSo(s, task, stall);
      }
    }
  }

  lemma ConsumeKeepsCover(s: State, agent: string, a: nat)
    requires Covered(s) && Enabled(s, Consume(a))
    ensures Covered(Next(s, agent, Consume(a)))
  {
  }

  lemma EnactKeepsCover(s: State, agent: string, a: nat)
    requires Covered(s) && Enabled(s, Enact(a))
    ensures Covered(Next(s, agent, Enact(a)))
  {
  }

  lemma StepKeepsCover(s: State, agent: string, step: Step)
    requires Covered(s) && Enabled(s, step)
    ensures Covered(Next(s, agent, step))
  {
    match step
    case Consume(a) => ConsumeKeepsCover(s, agent, a);
    case Enact(a) => EnactKeepsCover(s, agent, a);
    case _ =>
  }

  ghost predicate Run(states: seq<State>, agent: string, steps: seq<Step>) {
    && |states| == |steps| + 1
    && states[0] == START
    && forall i :: 0 <= i < |steps| ==> Enabled(states[i], steps[i]) && states[i + 1] == Next(states[i], agent, steps[i])
  }

  lemma {:induction false} RunKeepsInv(states: seq<State>, agent: string, steps: seq<Step>, n: nat)
    requires Run(states, agent, steps) && n < |states|
    ensures Inv(states[n], agent)
  {
    if n > 0 {
      RunKeepsInv(states, agent, steps, n - 1);
      StepKeepsClaims(states[n - 1], agent, steps[n - 1]);
      StepKeepsCounts(states[n - 1], agent, steps[n - 1]);
      StepKeepsCover(states[n - 1], agent, steps[n - 1]);
    } else {
      forall task, stall ensures CountedSo(states[0], task, stall) {}
    }
  }

  // ---------------------------------------------------------------------------
  // The bounds over whole runs
  // ---------------------------------------------------------------------------

  /** The grants among the entries from `i` to `j`. */
  function Grants(log: seq<Entry>, task: string, stall: bool, i: nat, j: nat): nat
    requires i <= j <= |log|
    decreases j
  {
    if i == j then 0 else Grants(log, task, stall, i, j - 1) + if log[j - 1] == Grant(task, stall) then 1 else 0
  }

  lemma {:induction false} GrantsAreSince(log: seq<Entry>, task: string, stall: bool, i: nat, j: nat)
    requires i <= j <= |log| && forall k :: i <= k < j ==> log[k] != Clear(task)
    ensures Since(log, task, stall, j) == Since(log, task, stall, i) + Grants(log, task, stall, i, j)
    decreases j
  {
    if i < j {
      GrantsAreSince(log, task, stall, i, j - 1);
    }
  }

  lemma {:induction false} LogOnlyGrows(states: seq<State>, agent: string, steps: seq<Step>, m: nat, n: nat)
    requires Run(states, agent, steps) && m <= n < |states|
    ensures states[m].log <= states[n].log
  {
    if m < n {
      LogOnlyGrows(states, agent, steps, m, n - 1);
      assert states[n] == Next(states[n - 1], agent, steps[n - 1]);
    }
  }

  /** Between two clears of a task's budget, over any number of executors and from both kinds of
      trigger, at most three recoveries are granted for crashes and one for stalls. */
  lemma {:induction false} GrantsAreBounded(states: seq<State>, agent: string, steps: seq<Step>, n: nat, task: string, stall: bool, i: nat, j: nat)
    requires Run(states, agent, steps) && n < |states| && i <= j <= |states[n].log|
    requires forall k :: i <= k < j ==> states[n].log[k] != Clear(task)
    ensures Grants(states[n].log, task, stall, i, j) <= Allowed(stall)
  {
    RunKeepsInv(states, agent, steps, n);
    if j == |states[n].log| {
      assert CountedSo(states[n], task, stall);
      GrantsAreSince(states[n].log, task, stall, i, j);
    } else {
      assert states[n - 1].log <= states[n].log && |states[n - 1].log| >= |states[n].log| - 1 by {
        assert states[n] == Next(states[n - 1], agent, steps[n - 1]);
      }
      var shorter, longer := states[n - 1].log, states[n].log;
      assert forall k :: i <= k < j ==> shorter[k] == longer[k];
      GrantsAreBounded(states, agent, steps, n - 1, task, stall, i, j);
      GrantsAgree(states[n - 1].log, states[n].log, task, stall, i, j);
    }
  }

  lemma {:induction false} GrantsAgree(a: seq<Entry>, b: seq<Entry>, task: string, stall: bool, i: nat, j: nat)
    requires a <= b && i <= j <= |a|
    ensures Grants(a, task, stall, i, j) == Grants(b, task, stall, i, j)
    decreases j
  {
    if i < j {
      GrantsAgree(a, b, task, stall, i, j - 1);
    }
  }

  /** Every recovery that is enacted was granted, for its own task and cause, by a grant that no
      other recovery uses. */
  lemma EveryRecoveryHasItsGrant(states: seq<State>, agent: string, steps: seq<Step>, n: nat, i: nat, j: nat)
    requires Run(states, agent, steps) && n < |states| && i < |states[n].log| && j < |states[n].log|
    requires states[n].log[i].Recovery? && states[n].log[j].Recovery?
    ensures var g := states[n].log[i].grant;
            g < |states[n].log| && states[n].log[g] == Grant(states[n].log[i].task, states[n].log[i].stall)
    ensures i != j ==> states[n].log[i].grant != states[n].log[j].grant
  {
    RunKeepsInv(states, agent, steps, n);
  }

  /** A confirmed death is refused, finalized and escalated exactly when its task has used up the
      grants for that cause since the last clear. */
  lemma RefusedExactlyWhenSpent(states: seq<State>, agent: string, steps: seq<Step>, n: nat)
    requires Run(states, agent, steps) && n < |steps| && steps[n].Consume?
    ensures var f := states[n].actors[steps[n].a].f;
            && EarlyRuling(f, agent).None?
            && (states[n + 1].actors[steps[n].a].pc == Finishing(Ruling(TerminalEscalated, true)) <==>
                  Since(states[n].log, f.taskRef, f.wasStall, |states[n].log|) == Allowed(f.wasStall))
  {
    RunKeepsInv(states, agent, steps, n);
    var f := states[n].actors[steps[n].a].f;
    assert CountedSo(states[n], f.taskRef, f.wasStall);
  }

  /** A recovery is enacted only for an executor that was not fused, had no verdict of its own and
      whose task the center confirmed. */
  lemma OnlyConfirmedDeathsRecover(states: seq<State>, agent: string, steps: seq<Step>, n: nat)
    requires Run(states, agent, steps) && n < |steps| && steps[n].Enact? && |states[n + 1].log| > |states[n].log|
    ensures var f := states[n].actors[steps[n].a].f;
            !f.stopped && !f.stoppedLate && !f.fused && DeathOrStall(f) && f.taskRef != "" && Confirmed(f.answer, agent)
  {
    RunKeepsInv(states, agent, steps, n);
  }

  // ---------------------------------------------------------------------------
  // The engine
  // ---------------------------------------------------------------------------

  class PointRecovery {
    var recovering: set<nat>
    var recoverCount: map<string, Budget>
    var currentTaskId: string

    constructor ()
      ensures recovering == {} && recoverCount == map[] && currentTaskId == ""
    {
      recovering, recoverCount, currentTaskId := {}, map[], "";
    }

    method TryConsumeRecoverBudget(task: string, wasStall: bool) returns (granted: bool)
      modifies this`recoverCount
      ensures granted <==> Spent(BudgetOf(old(recoverCount), task), wasStall) < Allowed(wasStall)
      ensures recoverCount == if granted then old(recoverCount)[task := OneMore(BudgetOf(old(recoverCount), task), wasStall)] else old(recoverCount)
    {
      var b := Budget(0, 0);
      if task in recoverCount {
        b := recoverCount[task];
      }
      if wasStall {
        if b.stall >= MAX_STALL {
          return false;
        }
        b := b.(stall := b.stall + 1);
      } else {
        if b.crash >= MAX_CRASH {
          return false;
        }
        b := b.(crash := b.crash + 1);
      }
      recoverCount := recoverCount[task := b];
      return true;
    }

    method ClearRecoverBudget(task: string)
      modifies this`recoverCount
      ensures recoverCount == if task == "" then old(recoverCount) else old(recoverCount) - {task}
    {
      if task == "" {
        return;
      }
      recoverCount := recoverCount - {task};
    }

    /** The runtime stops renewing the lease of a task that it has given up. */
    method StopRenewing(task: string)
      modifies this`currentTaskId
      ensures currentTaskId == if old(currentTaskId) == task then "" else old(currentTaskId)
    {
      if currentTaskId == task {
        currentTaskId := "";
      }
    }

    /** One trigger, from claim to settlement. A trigger that does not get the claim does nothing. */
    method ReconcileOne(id: nat, f: Facts, agent: string) returns (verdict: Option<Verdict>)
      modifies this
      ensures recovering == old(recovering)
      ensures verdict.None? <==> id in old(recovering)
      ensures verdict.None? ==> recoverCount == old(recoverCount) && currentTaskId == old(currentTaskId)
      ensures verdict.Some? ==>
                && verdict.value == Ruled(old(recoverCount), f, agent).verdict
                && recoverCount == CountsAfter(old(recoverCount), f, agent)
                && currentTaskId == LeaseAfter(old(currentTaskId), f, verdict.value)
    {
      if id in recovering {
        return None;
      }
      recovering := recovering + {id};
      var v := Settle(f, agent);
      recovering := recovering - {id};
      return Some(v);
    }

    method Settle(f: Facts, agent: string) returns (verdict: Verdict)
      modifies this`recoverCount, this`currentTaskId
      ensures verdict == Ruled(old(recoverCount), f, agent).verdict
      ensures recoverCount == CountsAfter(old(recoverCount), f, agent)
      ensures currentTaskId == LeaseAfter(old(currentTaskId), f, verdict)
    {
      if f.stopped {
        ClearRecoverBudget(f.taskRef);
        return QuietStop;
      }
      if f.fused {
        ClearRecoverBudget(f.taskRef);
        return QuietFuse;
      }
      if !DeathOrStall(f) {
        return Terminal;
      }
      if f.taskRef == "" {
        return Terminal;
      }
      if !f.answer.Detail? || CancelEvidence(f.answer.task, agent) {
        ClearRecoverBudget(f.taskRef);
        return Terminal;
      }
      var granted := TryConsumeRecoverBudget(f.taskRef, f.wasStall);
      if !granted {
        StopRenewing(f.taskRef);
        ClearRecoverBudget(f.taskRef);
        return TerminalEscalated;
      }
      verdict := Enact(f);
    }

    /** What follows a granted recovery. */
    method Enact(f: Facts) returns (verdict: Verdict)
      requires f.taskRef != ""
      modifies this`recoverCount, this`currentTaskId
      ensures verdict == LateRuling(f).verdict
      ensures recoverCount == if LateRuling(f).clears then old(recoverCount) - {f.taskRef} else old(recoverCount)
      ensures currentTaskId == LeaseAfter(old(currentTaskId), f, verdict)
    {
      if f.plannerFails {
        return Terminal;
      }
      var tier := Planned(f.record, f.workspacePresent);
      if f.wasStall && tier == Resume && f.record.Some? {
        tier := Rerun;
      }
      if f.stoppedLate {
        ClearRecoverBudget(f.taskRef);
        return QuietStop;
      }
      if tier == StartOver {
        StopRenewing(f.taskRef);
      }
      return Recovered(tier);
    }
  }

  /** The task whose lease the runtime renews: given up together with the task itself. */
  function LeaseAfter(current: string, f: Facts, v: Verdict): string {
    if (v == TerminalEscalated || v == Recovered(StartOver)) && current == f.taskRef then "" else current
  }
}
