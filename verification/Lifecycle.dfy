/** Admission and stop: background work takes a ticket before it enters its group and returns
    the ticket after it has left it; stop closes admission and waits for the tickets, then for
    each group. */
module Lifecycle {
  import opened Text

  datatype Group = Sources | Clones | Drains | Background

  /** The wait-group counters, and who runs: `workers` holds every goroutine with a ticket, with
      the group that it is in, if any. */
  datatype State = State(stopping: bool, cancelled: bool, tickets: nat, entered: map<Group, nat>, workers: map<nat, Option<Group>>)

  const START := State(false, false, 0, map[], map[])

  datatype Step =
    | Begin(w: nat)
    | Enter(w: nat, group: Group)
    | Exit(w: nat)
    | End(w: nat)
    | CloseAdmission
    | CancelLifecycle

  function Entered(s: State, g: Group): nat {
    if g in s.entered then s.entered[g] else 0
  }

  predicate Enabled(s: State, step: Step) {
    match step
    case Begin(w) => w !in s.workers
    case Enter(w, _) => w in s.workers && s.workers[w] == None
    case Exit(w) => w in s.workers && s.workers[w].Some? && Entered(s, s.workers[w].value) > 0
    case End(w) => w in s.workers && s.workers[w] == None && s.tickets > 0
    case CloseAdmission => true
    case CancelLifecycle => s.stopping
  }

  function Next(s: State, step: Step): State
    requires Enabled(s, step)
  {
    match step
    case Begin(w) => if s.stopping then s else s.(tickets := s.tickets + 1, workers := s.workers[w := None])
    case Enter(w, g) => s.(entered := s.entered[g := Entered(s, g) + 1], workers := s.workers[w := Some(g)])
    case Exit(w) =>
      var g := s.workers[w].value;
      s.(entered := s.entered[g := Entered(s, g) - 1], workers := s.workers[w := None])
    case End(w) => s.(tickets := s.tickets - 1, workers := s.workers - {w})
    case CloseAdmission => s.(stopping := true)
    case CancelLifecycle => s.(cancelled := true)
  }

  function Members(workers: map<nat, Option<Group>>, g: Group): set<nat> {
    set w | w in workers && workers[w] == Some(g)
  }

  /** The counters count what runs, and admission is closed before the lifecycle is cancelled. */
  ghost predicate Inv(s: State) {
    && (s.cancelled ==> s.stopping)
    && s.tickets == |s.workers.Keys|
    && forall g :: Entered(s, g) == |Members(s.workers, g)|
  }

  lemma MembersAfterPut(workers: map<nat, Option<Group>>, w: nat, x: Option<Group>, g: Group)
    ensures Members(workers[w := x], g) == if x == Some(g) then Members(workers, g) + {w} else Members(workers, g) - {w}
  {
  }

  lemma BeginKeeps(s: State, w: nat)
    requires Inv(s) && Enabled(s, Begin(w))
    ensures Inv(Next(s, Begin(w)))
  {
    assert s.workers[w := None].Keys == s.workers.Keys + {w};
    var t := Next(s, Begin(w));
    forall g ensures Entered(t, g) == |Members(t.workers, g)| {
      MembersAfterPut(s.workers, w, None, g);
      assert Entered(t, g) == Entered(s, g) && w !in Members(s.workers, g);
    }
  }

  lemma EnterKeeps(s: State, w: nat, x: Group)
    requires Inv(s) && Enabled(s, Enter(w, x))
    ensures Inv(Next(s, Enter(w, x)))
  {
    assert s.workers[w := Some(x)].Keys == s.workers.Keys;
    forall g ensures Entered(Next(s, Enter(w, x)), g) == |Members(s.workers[w := Some(x)], g)| {
      MembersAfterPut(s.workers, w, Some(x), g);
    }
  }

  lemma ExitKeeps(s: State, w: nat)
    requires Inv(s) && Enabled(s, Exit(w))
    ensures Inv(Next(s, Exit(w)))
  {
    assert s.workers[w := None].Keys == s.workers.Keys;
    forall g ensures Entered(Next(s, Exit(w)), g) == |Members(s.workers[w := None], g)| {
      MembersAfterPut(s.workers, w, None, g);
    }
  }

  lemma EndKeeps(s: State, w: nat)
    requires Inv(s) && Enabled(s, End(w))
    ensures Inv(Next(s, End(w)))
  {
    assert (s.workers - {w}).Keys == s.workers.Keys - {w};
    forall g ensures Members(s.workers - {w}, g) == Members(s.workers, g) {}
  }

  lemma StepKeepsInv(s: State, step: Step)
    requires Inv(s) && Enabled(s, step)
    ensures Inv(Next(s, step))
  {
    match step
    case Begin(w) => BeginKeeps(s, w);
    case Enter(w, x) => EnterKeeps(s, w, x);
    case Exit(w) => ExitKeeps(s, w);
    case End(w) => EndKeeps(s, w);
    case CloseAdmission =>
    case CancelLifecycle =>
  }

  /** No counter is ever taken below zero: whoever leaves or ends is counted. */
  lemma CountersNeverUnderflow(s: State, w: nat)
    requires Inv(s) && w in s.workers
    ensures s.tickets > 0
    ensures s.workers[w].Some? ==> Entered(s, s.workers[w].value) > 0
  {
    assert w in s.workers.Keys;
    if s.workers[w].Some? {
      assert w in Members(s.workers, s.workers[w].value);
    }
  }

  ghost predicate Run(states: seq<State>, steps: seq<Step>) {
    && |states| == |steps| + 1
    && states[0] == START
    && forall i :: 0 <= i < |steps| ==> Enabled(states[i], steps[i]) && states[i + 1] == Next(states[i], steps[i])
  }

  lemma {:induction false} RunKeepsInv(states: seq<State>, steps: seq<Step>, n: nat)
    requires Run(states, steps) && n < |states|
    ensures Inv(states[n])
  {
    if n == 0 {
      forall g ensures Members(states[0].workers, g) == {} {}
    } else {
      RunKeepsInv(states, steps, n - 1);
      StepKeepsInv(states[n - 1], steps[n - 1]);
    }
  }

  /** Once admission is closed it stays closed, and no ticket is granted any more. */
  lemma {:induction false} NoTicketAfterClose(states: seq<State>, steps: seq<Step>, i: nat, j: nat)
    requires Run(states, steps) && i <= j < |states| && states[i].stopping
    ensures states[j].stopping && states[j].workers.Keys <= states[i].workers.Keys && states[j].tickets <= states[i].tickets
  {
    if i < j {
      NoTicketAfterClose(states, steps, i, j - 1);
    }
  }

  ghost predicate Quiet(s: State) {
    s.tickets == 0 && s.workers == map[] && forall g :: Entered(s, g) == 0
  }

  /** Whoever sees the lifecycle cancelled can rely on it that no ticket is granted any more. */
  lemma NoTicketAfterCancel(states: seq<State>, steps: seq<Step>, i: nat, j: nat)
    requires Run(states, steps) && i <= j < |states| && states[i].cancelled
    ensures states[j].stopping && states[j].workers.Keys <= states[i].workers.Keys && states[j].tickets <= states[i].tickets
  {
    RunKeepsInv(states, steps, i);
    NoTicketAfterClose(states, steps, i, j);
  }

  /** Stop quiesces: as soon as the tickets reach zero after admission closed, every group is
      empty too, and nothing of the runtime runs from then on. */
  lemma StopQuiesces(states: seq<State>, steps: seq<Step>, i: nat, j: nat)
    requires Run(states, steps) && i <= j < |states| && states[i].stopping && states[i].tickets == 0
    ensures Quiet(states[j])
  {
    RunKeepsInv(states, steps, i);
    RunKeepsInv(states, steps, j);
    NoTicketAfterClose(states, steps, i, j);
    assert states[j].workers.Keys == {};
    forall g ensures Members(states[j].workers, g) == {} {}
  }

  /** Tickets alone are not enough before admission closes, and a group that is empty once can
      fill again as long as a ticket is out: the order of the waits matters. */
  lemma GroupsFirstIsNotEnough() returns (states: seq<State>, steps: seq<Step>)
    ensures Run(states, steps) && |states| == 4
    ensures states[2].stopping && (forall g :: Entered(states[2], g) == 0) && Entered(states[3], Drains) > 0
  {
    steps := [Begin(0), CloseAdmission, Enter(0, Drains)];
    var s1 := Next(START, steps[0]);
    var s2 := Next(s1, steps[1]);
    var s3 := Next(s2, steps[2]);
    states := [START, s1, s2, s3];
  }

  // ---------------------------------------------------------------------------
  // The runtime
  // ---------------------------------------------------------------------------

  class Runtime {
    var stopping: bool
    var lifecycleCancelled: bool
    var lifeWG: nat
    var groups: map<Group, nat>
    ghost var workers: map<nat, Option<Group>>

    ghost function View(): State
      reads this
    {
      State(stopping, lifecycleCancelled, lifeWG, groups, workers)
    }

    ghost predicate Valid()
      reads this
    {
      Inv(View())
    }

    constructor ()
      ensures Valid() && View() == START
    {
      stopping, lifecycleCancelled, lifeWG, groups := false, false, 0, map[];
      workers := map[];
      new;
      forall g ensures Members(workers, g) == {} {}
    }

    /** `w` names the goroutine that is to run on the ticket. */
    method BeginRuntimeWork(ghost w: nat) returns (granted: bool)
      requires Valid() && Enabled(View(), Begin(w))
      modifies this`lifeWG, this`workers
      ensures granted <==> !stopping
      ensures Valid() && View() == Next(old(View()), Begin(w))
    {
      StepKeepsInv(View(), Begin(w));
      if stopping {
        return false;
      }
      lifeWG := lifeWG + 1;
      workers := workers[w := None];
      return true;
    }

    method EndRuntimeWork(ghost w: nat)
      requires Valid() && w in workers && workers[w] == None
      modifies this`lifeWG, this`workers
      ensures Valid() && Enabled(old(View()), End(w)) && View() == Next(old(View()), End(w))
    {
      CountersNeverUnderflow(View(), w);
      StepKeepsInv(View(), End(w));
      lifeWG := lifeWG - 1;
      workers := workers - {w};
    }

    /** A goroutine that holds a ticket is added to its wait group. */
    method EnterGroup(g: Group, ghost w: nat)
      requires Valid() && Enabled(View(), Enter(w, g))
      modifies this`groups, this`workers
      ensures Valid() && View() == Next(old(View()), Enter(w, g))
    {
      StepKeepsInv(View(), Enter(w, g));
      groups := groups[g := (if g in groups then groups[g] else 0) + 1];
      workers := workers[w := Some(g)];
    }

    method LeaveGroup(g: Group, ghost w: nat)
      requires Valid() && w in workers && workers[w] == Some(g)
      modifies this`groups, this`workers
      ensures Valid() && Enabled(old(View()), Exit(w)) && View() == Next(old(View()), Exit(w))
    {
      CountersNeverUnderflow(View(), w);
      StepKeepsInv(View(), Exit(w));
      groups := groups[g := groups[g] - 1];
      workers := workers[w := None];
    }

    method CloseRuntimeAdmission()
      requires Valid()
      modifies this`stopping
      ensures Valid() && View() == Next(old(View()), CloseAdmission)
    {
      StepKeepsInv(View(), CloseAdmission);
      stopping := true;
    }

    method CancelRuntimeLifecycle()
      requires Valid() && stopping
      modifies this`lifecycleCancelled
      ensures Valid() && Enabled(old(View()), CancelLifecycle) && View() == Next(old(View()), CancelLifecycle)
    {
      StepKeepsInv(View(), CancelLifecycle);
      lifecycleCancelled := true;
    }

    /** The beginning of stop: the other order would not be valid in between. */
    method Stop()
      requires Valid()
      modifies this`stopping, this`lifecycleCancelled
      ensures Valid() && View() == Next(Next(old(View()), CloseAdmission), CancelLifecycle)
    {
      CloseRuntimeAdmission();
      CancelRuntimeLifecycle();
    }
  }
}
