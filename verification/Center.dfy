/** What the center's task record proves about an executor's task. */
module Center {
  import opened Text

  datatype Task = Task(status: string, blockedReason: string, assignee: string)

  function LowerChar(c: char): char {
    if 'A' <= c <= 'Z' then (c as int + 32) as char else c
  }

  function Lower(s: string): (r: string)
    ensures |r| == |s|
  {
    seq(|s|, i requires 0 <= i < |s| => LowerChar(s[i]))
  }

  const SETTLED := {"completed", "discarded", "cancelled", "canceled"}

  const PARKED := "blocked"

  /** The task is concluded or parked: nothing of it is to be started again. */
  predicate SettledOrParked(status: string) {
    Lower(TrimSpace(status)) in SETTLED + {PARKED}
  }

  /** The task is known to belong to somebody else. An unknown assignee proves nothing. */
  predicate Reassigned(assignee: string, agent: string) {
    var a := TrimSpace(assignee);
    a != "" && TrimSpace(agent) != "" && a != agent && a != "agent:" + agent
  }

  /** Positive proof that an executor of this task is no longer wanted here. */
  predicate CancelEvidence(t: Task, agent: string) {
    SettledOrParked(t.status) || TrimSpace(t.blockedReason) != "" || Reassigned(t.assignee, agent)
  }

  /** A string that begins and ends with other than space, and only such a string or the empty
      one, is its own trimming. */
  lemma TrimmedExactlyWhen(s: string)
    ensures TrimSpace(s) == s <==> s == "" || (!IsSpace(s[0]) && !IsSpace(s[|s| - 1]))
  {
    TrimLeftStops(s);
    TrimRightStops(TrimLeft(s));
    TrimLeftShortens(s);
  }

  lemma {:induction false} TrimLeftShortens(s: string)
    ensures |TrimLeft(s)| <= |s| && (|TrimLeft(s)| == |s| ==> TrimLeft(s) == s)
  {
    if s != "" && IsSpace(s[0]) {
      TrimLeftShortens(s[1..]);
    }
  }

  lemma LoweringKeepsSpace(c: char)
    ensures IsSpace(LowerChar(c)) <==> IsSpace(c)
    ensures LowerChar(LowerChar(c)) == LowerChar(c)
  {
  }

  lemma LoweredStaysTrimmed(s: string)
    requires TrimSpace(s) == s
    ensures TrimSpace(Lower(s)) == Lower(s)
  {
    TrimmedExactlyWhen(s);
    TrimmedExactlyWhen(Lower(s));
    if s != "" {
      LoweringKeepsSpace(s[0]);
      LoweringKeepsSpace(s[|s| - 1]);
    }
  }

  lemma LowerIsIdempotent(s: string)
    ensures Lower(Lower(s)) == Lower(s)
  {
    forall i | 0 <= i < |s| ensures Lower(Lower(s))[i] == Lower(s)[i] {
      LoweringKeepsSpace(s[i]);
    }
  }

  /** How a status is spelled, in case or in surrounding space, makes no difference. */
  lemma SpellingMakesNoDifference(status: string)
    ensures SettledOrParked(Lower(TrimSpace(status))) <==> SettledOrParked(status)
  {
    TrimIsIdempotent(status);
    LoweredStaysTrimmed(TrimSpace(status));
    LowerIsIdempotent(TrimSpace(status));
  }
}
