/** The question a spawn-time prune asks: is this executor live? It is answered by two separate
    reads, of the preparing marks and then of the pool, while executors come and go. */
module PruneGuard {

  /** How far an executor's spawn has come, apart from its preparing mark. */
  datatype Stage = Unborn | Provisioning | Pooled | Failed | Freed

  /** `marked` are the preparing executors. */
  datatype State = State(marked: set<nat>, stage: map<nat, Stage>)

  datatype Step = Mark(id: nat) | Launch(id: nat) | LaunchFails(id: nat) | Unmark(id: nat) | FreeSlot(id: nat)

  function StageOf(s: State, id: nat): Stage {
    if id in s.stage then s.stage[id] else Unborn
  }

  predicate InPool(s: State, id: nat) {
    StageOf(s, id) == Pooled
  }

  /** The spawn marks its new id first, launches at most once, and drops the mark when it
      returns, whether or not it launched. */
  predicate Enabled(s: State, step: Step) {
    match step
    case Mark(id) => StageOf(s, id) == Unborn
    case Launch(id) => StageOf(s, id) == Provisioning
    case LaunchFails(id) => StageOf(s, id) == Provisioning
    case Unmark(id) => id in s.marked && StageOf(s, id) !in {Unborn, Provisioning}
    case FreeSlot(id) => StageOf(s, id) == Pooled
  }

  function Next(s: State, step: Step): State
    requires Enabled(s, step)
  {
    match step
    case Mark(id) => State(s.marked + {id}, s.stage[id := Provisioning])
    case Launch(id) => s.(stage := s.stage[id := Pooled])
    case LaunchFails(id) => s.(stage := s.stage[id := Failed])
    case Unmark(id) => s.(marked := s.marked - {id})
    case FreeSlot(id) => s.(stage := s.stage[id := Freed])
  }

  ghost predicate Run(states: seq<State>, steps: seq<Step>) {
    && |states| == |steps| + 1
    && states[0] == State({}, map[])
    && forall i :: 0 <= i < |steps| ==> Enabled(states[i], steps[i]) && states[i + 1] == Next(states[i], steps[i])
  }

  /** Marked, and neither failed nor done: the executor whose worktree must not be pruned. */
  predicate Live(s: State, id: nat) {
    StageOf(s, id) == Provisioning || StageOf(s, id) == Pooled
  }

  predicate Answer(early: State, late: State, id: nat) {
    id in early.marked || InPool(late, id)
  }

  /** Until it is launched or has failed, an executor stays marked. */
  lemma {:induction false} ProvisioningIsMarked(states: seq<State>, steps: seq<Step>, n: nat, id: nat)
    requires Run(states, steps) && n < |states|
    ensures StageOf(states[n], id) == Provisioning ==> id in states[n].marked
  {
    if n > 0 {
      ProvisioningIsMarked(states, steps, n - 1, id);
    }
  }

  /** Once pooled, an executor that is still live is still pooled. */
  lemma {:induction false} PooledUntilFreed(states: seq<State>, steps: seq<Step>, i: nat, j: nat, id: nat)
    requires Run(states, steps) && i <= j < |states| && InPool(states[i], id) && Live(states[j], id)
    ensures InPool(states[j], id)
  {
    if i < j {
      if !Live(states[j - 1], id) {
        assert StageOf(states[j - 1], id) in {Unborn, Failed, Freed};
        NeverBackToUnborn(states, steps, i, j - 1, id);
      } else {
        PooledUntilFreed(states, steps, i, j - 1, id);
      }
    }
  }

  lemma {:induction false} NeverBackToUnborn(states: seq<State>, steps: seq<Step>, i: nat, j: nat, id: nat)
    requires Run(states, steps) && i <= j < |states| && StageOf(states[i], id) != Unborn
    ensures StageOf(states[j], id) != Unborn
  {
    if i < j {
      NeverBackToUnborn(states, steps, i, j - 1, id);
    }
  }

  /** Reading the marks first and the pool later, the prune spares every executor that was live
      when it began to ask and still is when it has its answer. */
  lemma MarksThenPoolNeverMisses(states: seq<State>, steps: seq<Step>, i: nat, j: nat, id: nat)
    requires Run(states, steps) && i <= j < |states| && Live(states[i], id) && Live(states[j], id)
    ensures Answer(states[i], states[j], id)
  {
    ProvisioningIsMarked(states, steps, i, id);
    if id !in states[i].marked {
      PooledUntilFreed(states, steps, i, j, id);
    }
  }

  /** Reading the pool first and the marks later can miss an executor that was live throughout. */
  lemma PoolThenMarksCanMiss() returns (states: seq<State>, steps: seq<Step>)
    ensures Run(states, steps) && |states| > 1
    ensures forall k :: 1 <= k < |states| ==> Live(states[k], 0)
    ensures !Answer(states[|states| - 1], states[1], 0)
  {
    var s0 := State({}, map[]);
    steps := [Mark(0), Launch(0), Unmark(0)];
    var s1 := Next(s0, steps[0]);
    var s2 := Next(s1, steps[1]);
    var s3 := Next(s2, steps[2]);
    states := [s0, s1, s2, s3];
  }
}
