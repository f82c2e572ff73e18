/** What an executor that was observed to exit, or that was found on disk, has come to. */
module Completion {
  import opened Text

  datatype Kind = Running | Succeeded | Failed | Crashed | NonDelivery

  /** What a readable status file says. */
  datatype Status = StatusRunning | StatusDone | StatusFailed

  /** What is known of an executor: how its process exited, or else whether anything answers at
      its recorded pid; its output file, if a valid one exists, with the verdict in it; and its
      status file. */
  datatype Harvest =
    | Reaped(exitedClean: bool, output: Option<bool>, status: Option<Status>)
    | Found(alive: bool, output: Option<bool>, status: Option<Status>)

  /** Terminal files beat liveness. */
  function Classify(h: Harvest): Kind {
    match h
    case Reaped(true, Some(success), _) => if success then Succeeded else Failed
    case Reaped(true, None, _) => Crashed
    case Reaped(false, _, _) => Failed
    case Found(_, Some(success), _) => if success then Succeeded else Failed
    case Found(_, None, Some(StatusFailed)) => Failed
    case Found(_, None, Some(StatusDone)) => Crashed
    case Found(alive, None, _) => if alive then Running else Crashed
  }

  /** Boot's test of a kind and of whether there is a valid output: the process ended without a
      verdict of its own. */
  predicate IsDeath(kind: Kind, hasOutput: bool) {
    kind == Crashed || kind == NonDelivery || (kind == Failed && !hasOutput)
  }

  /** The test of mid-life recovery. */
  predicate DeathOrStall(kind: Kind, hasOutput: bool, wasStall: bool) {
    wasStall || kind == Crashed || (kind == Failed && !hasOutput)
  }

  /** The output file decides whether there is a verdict: without one, whoever was reaped has died
      whatever its exit code and status file say, and whoever was found has died unless something
      answers at its pid and its status file does not claim an end. */
  lemma DeadExactlyWhen(h: Harvest)
    ensures IsDeath(Classify(h), h.output.Some?) <==>
            h.output.None? && (h.Reaped? || !h.alive || h.status == Some(StatusDone) || h.status == Some(StatusFailed))
  {
  }

  /** A success needs a success in the output file and, where the exit was seen, a clean exit. */
  lemma SucceededExactlyWhen(h: Harvest)
    ensures Classify(h) == Succeeded <==> h.output == Some(true) && (h.Reaped? ==> h.exitedClean)
    ensures Classify(h) == Running <==>
            h.Found? && h.alive && h.output.None? && (h.status.Some? ==> h.status.value == StatusRunning)
  {
  }

  /** Boot and mid-life recovery agree on every executor that is classified: on what a death is,
      and nothing is classified as an undelivered result, the one kind on which they would differ. */
  lemma DeathTestsAgree(h: Harvest)
    ensures Classify(h) != NonDelivery
    ensures IsDeath(Classify(h), h.output.Some?) <==> DeathOrStall(Classify(h), h.output.Some?, false)
  {
  }
}
