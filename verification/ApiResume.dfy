/** Resuming a turn that an API error or a rate limit cut short: a doubling delay in 64-bit
    arithmetic, a bounded number of tries, and one slot for the next resume. */
module ApiResume {
  import opened Text

  const TWO_62 := 0x4000_0000_0000_0000

  const TWO_63 := 0x8000_0000_0000_0000

  const TWO_64 := 0x1_0000_0000_0000_0000

  // ---------------------------------------------------------------------------
  // The delay
  // ---------------------------------------------------------------------------

  /** What a 64-bit signed addition or multiplication keeps of its result. */
  function Wrap(x: int): int {
    (x + TWO_63) % TWO_64 - TWO_63
  }

  function Pow2(k: nat): nat {
    if k == 0 then 1 else 2 * Pow2(k - 1)
  }

  /** The loop, from the round `i` on, with the delay `d` so far. */
  function DoubledFrom(d: int, i: nat, attempt: int, cap: int): int
    decreases attempt - i
  {
    if i >= attempt then (if d > cap then cap else d)
    else if Wrap(d * 2) >= cap then cap
    else DoubledFrom(Wrap(d * 2), i + 1, attempt, cap)
  }

  /** The delay before the given attempt. */
  function Backoff(attempt: int, base: int, cap: int): int {
    DoubledFrom(base, 1, if attempt < 1 then 1 else attempt, cap)
  }

  method DecideAPIErrorBackoff(attempt: int, base: int, cap: int) returns (d: int)
    ensures d == Backoff(attempt, base, cap)
  {
    var n := attempt;
    if n < 1 {
      n := 1;
    }
    d := base;
    var i := 1;
    while i < n
      invariant 1 <= i <= n
      invariant DoubledFrom(d, i, n, cap) == Backoff(attempt, base, cap)
    {
      d := Wrap(d * 2);
      if d >= cap {
        return cap;
      }
      i := i + 1;
    }
    if d > cap {
      d := cap;
    }
  }

  function Min(a: int, b: int): int { if a < b then a else b }

  /** Some doubling reaches the cap before it leaves the 64-bit range. */
  ghost predicate CapIsReached(base: int, cap: int) {
    exists k: nat :: k >= 1 && CapReachedAt(base, cap, k)
  }

  predicate CapReachedAt(base: int, cap: int, k: nat) {
    cap <= base * Pow2(k) < TWO_63
  }

  lemma {:induction false} PowersGrow(base: int, i: nat, j: nat)
    requires base > 0 && i <= j
    ensures base <= base * Pow2(i) <= base * Pow2(j)
    ensures i < j ==> 2 * (base * Pow2(i)) <= base * Pow2(j)
  {
    Doubling(base, j);
    if i < j {
      PowersGrow(base, i, j - 1);
    } else if j > 0 {
      PowersGrow(base, j - 1, j - 1);
    }
  }

  lemma Doubling(base: int, k: nat)
    ensures k > 0 ==> base * Pow2(k) == 2 * (base * Pow2(k - 1))
    ensures k == 0 ==> base * Pow2(k) == base
  {
  }

  /** As long as the powers stay below the cap and in range, the loop's variable is the power. */
  lemma {:induction false} LoopFollowsPowers(base: int, cap: int, k: nat, i: nat, attempt: int)
    requires base > 0 && 1 <= i <= k && CapReachedAt(base, cap, k) && i <= attempt
    requires i > 1 ==> base * Pow2(i - 1) < cap
    ensures DoubledFrom(base * Pow2(i - 1), i, attempt, cap) == Min(base * Pow2(attempt - 1), cap)
    decreases attempt - i
  {
    if i < attempt {
      var d := base * Pow2(i - 1);
      Doubling(base, i);
      PowersGrow(base, i, k);
      assert Wrap(d * 2) == base * Pow2(i);
      if base * Pow2(i) >= cap {
        PowersGrow(base, i, attempt - 1);
      } else {
        assert i < k;
        LoopFollowsPowers(base, cap, k, i + 1, attempt);
      }
    }
  }

  /** The first power of two that takes the delay out of the 64-bit range. */
  lemma {:induction false} FirstOutOfRange(base: int, from: nat) returns (k: nat)
    requires 0 < base && base * Pow2(from) < TWO_63
    ensures k > from && base * Pow2(k) >= TWO_63 && base * Pow2(k - 1) < TWO_63
    decreases TWO_63 - base * Pow2(from)
  {
    Doubling(base, from + 1);
    PowersGrow(base, 0, from);
    if base * Pow2(from + 1) >= TWO_63 {
      k := from + 1;
    } else {
      k := FirstOutOfRange(base, from + 1);
    }
  }

  /** Where the cap is never reached in range, the loop runs out of range before it stops. */
  lemma {:induction false} LoopOverflows(base: int, cap: int, k: nat, i: nat)
    requires 0 < base && 0 < cap && 1 <= i <= k && !CapIsReached(base, cap)
    requires base * Pow2(k) >= TWO_63 && base * Pow2(k - 1) < TWO_63
    ensures DoubledFrom(base * Pow2(i - 1), i, k + 1, cap) < 0
    decreases k - i
  {
    Doubling(base, i);
    PowersGrow(base, i - 1, k - 1);
    if i == k {
      var x := base * Pow2(k);
      assert TWO_63 <= x < TWO_64;
      assert Wrap(x) == x - TWO_64;
    } else {
      PowersGrow(base, i, k - 1);
      assert !CapReachedAt(base, cap, i);
      assert Wrap(base * Pow2(i - 1) * 2) == base * Pow2(i) < cap;
      LoopOverflows(base, cap, k, i + 1);
    }
  }

  /** The delay is the base doubled once for each earlier attempt, up to the cap, for every
      attempt, exactly when some doubling reaches the cap within 64 bits. */
  lemma BackoffExactlyWhen(base: int, cap: int)
    requires 0 < base < TWO_63 && 0 < cap < TWO_63
    ensures CapIsReached(base, cap) <==> forall attempt: nat :: attempt >= 1 ==> Backoff(attempt, base, cap) == Min(base * Pow2(attempt - 1), cap)
  {
    assert base * Pow2(0) == base;
    if CapIsReached(base, cap) {
      var k: nat :| k >= 1 && CapReachedAt(base, cap, k);
      forall attempt: nat | attempt >= 1 ensures Backoff(attempt, base, cap) == Min(base * Pow2(attempt - 1), cap) {
        LoopFollowsPowers(base, cap, k, 1, attempt);
      }
    } else {
      var k := FirstOutOfRange(base, 0);
      LoopOverflows(base, cap, k, 1);
      PowersGrow(base, 0, k);
      assert Backoff(k + 1, base, cap) < 0 < Min(base * Pow2(k), cap);
    }
  }

  /** A cap of at most 2^62 and a smaller base are enough. */
  lemma {:induction false} SmallCapIsReached(base: int, cap: int, from: nat)
    requires 0 < base < TWO_62 && cap <= TWO_62 && from >= 1
    requires base * Pow2(from) < TWO_63
    ensures CapIsReached(base, cap)
    decreases TWO_63 - base * Pow2(from)
  {
    Doubling(base, from + 1);
    PowersGrow(base, 0, from);
    if cap <= base * Pow2(from) {
      assert CapReachedAt(base, cap, from);
    } else {
      SmallCapIsReached(base, cap, from + 1);
    }
  }

  /** The bound 2^62 is too generous by one: with base and cap both 2^62 the second attempt's
      delay is negative. */
  lemma BoundIsTight()
    ensures Backoff(2, TWO_62, TWO_62) < 0
  {
    assert Wrap(TWO_62 * 2) == -TWO_63;
    assert DoubledFrom(-TWO_63, 2, 2, TWO_62) == -TWO_63;
  }

  lemma DefaultsAreReached(attempt: nat)
    requires attempt >= 1
    ensures Backoff(attempt, 2_000_000_000, 60_000_000_000) == Min(2_000_000_000 * Pow2(attempt - 1), 60_000_000_000)
  {
    assert 2_000_000_000 * Pow2(1) < TWO_63;
    SmallCapIsReached(2_000_000_000, 60_000_000_000, 1);
    BackoffExactlyWhen(2_000_000_000, 60_000_000_000);
  }

  // ---------------------------------------------------------------------------
  // The rate-limit delay
  // ---------------------------------------------------------------------------

  /** The window that the provider names, or else the default, clamped. */
  function RateLimitDelay(retryAfter: int, resetAt: int, now: int, default: int, least: int, most: int): (d: int)
    ensures least <= most ==> least <= d <= most
  {
    var d := if retryAfter > 0 then retryAfter else if resetAt > 0 then resetAt - now else default;
    var raised := if d < least then least else d;
    if raised > most then most else raised
  }

  // ---------------------------------------------------------------------------
  // Turns, ticks and the slot
  // ---------------------------------------------------------------------------

  datatype Config = Config(base: int, cap: int, maxRetries: nat, rateDefault: int, rateLeast: int, rateMost: int)

  /** The end of a turn, as the session reported it. */
  datatype Turn = Turn(isError: bool, rateLimited: bool, transient: bool, sawIncomplete: bool, registryMissing: bool,
                       retryAfter: int, resetAt: int, noticePosted: bool)

  /** What happened, in order; a resume's `slot` is the index of the entry that scheduled it. */
  datatype Event =
    | Scheduled(attempt: nat, at: int, due: int)
    | RateScheduled(at: int, due: int)
    | Reset
    | Surfaced
    | Injected(slot: nat, at: int)

  datatype Slot = Slot(due: int, entry: nat)

  datatype State = State(live: bool, task: bool, conversation: bool, retries: nat, slot: Option<Slot>, log: seq<Event>)

  datatype Step =
    | TurnEnds(turn: Turn, now: int)
    | Tick(now: int)
    | ContextChanges(live: bool, task: bool, conversation: bool)
    | SessionStarts

  function Log(s: State, e: Event): State {
    s.(log := s.log + [e])
  }

  predicate RateClaims(s: State, t: Turn) {
    t.rateLimited && s.live && s.task
  }

  function RateResume(c: Config, s: State, t: Turn, now: int): State {
    var due := now + RateLimitDelay(t.retryAfter, t.resetAt, now, c.rateDefault, c.rateLeast, c.rateMost);
    Log(s, RateScheduled(now, due)).(slot := Some(Slot(due, |s.log|)))
  }

  predicate ApiApplies(s: State, t: Turn) {
    (t.transient || t.sawIncomplete) && s.live && (s.task || s.conversation)
  }

  predicate ApiClaims(c: Config, s: State, t: Turn) {
    ApiApplies(s, t) && s.retries < c.maxRetries
  }

  function ApiResumed(c: Config, s: State, t: Turn, now: int): State {
    if ApiClaims(c, s, t) then
      var attempt := s.retries + 1;
      var due := now + Backoff(attempt, c.base, c.cap);
      Log(s, Scheduled(attempt, now, due)).(retries := attempt, slot := Some(Slot(due, |s.log|)))
    else if ApiApplies(s, t) then Log(s, Reset).(retries := 0, slot := None)
    else s
  }

  /** A failed turn of a work item is over for the runtime; one of a conversation, once the
      conversation was told. */
  function SurfacedTurn(s: State, t: Turn): State {
    if s.task then Log(s, Surfaced).(task := false)
    else Log(s, Surfaced).(conversation := s.conversation && !t.noticePosted)
  }

  function Ended(c: Config, s: State, t: Turn, now: int): State {
    if t.isError then
      if RateClaims(s, t) then RateResume(c, s, t, now)
      else if ApiClaims(c, s, t) then ApiResumed(c, s, t, now)
      else SurfacedTurn(ApiResumed(c, s, t, now), t)
    else
      var u := if t.sawIncomplete then ApiResumed(c, s, t, now) else s;
      if t.sawIncomplete && ApiClaims(c, s, t) then u
      else if t.registryMissing then u
      else Log(u, Reset).(retries := 0, conversation := u.conversation && u.task)
  }

  function Drained(s: State, now: int): State {
    if s.slot.None? || s.slot.value.due > now then s
    else if !s.live then s.(slot := None)
    else Log(s, Injected(s.slot.value.entry, now)).(slot := None)
  }

  function Next(c: Config, s: State, step: Step): State {
    match step
    case TurnEnds(turn, now) => Ended(c, s, turn, now)
    case Tick(now) => Drained(s, now)
    case ContextChanges(live, task, conversation) => s.(live := live, task := task, conversation := conversation)
    case SessionStarts => Log(s, Reset).(live := true, task := false, conversation := false, retries := 0, slot := None)
  }

  const START := State(false, false, false, 0, None, [])

  function After(c: Config, steps: seq<Step>): State {
    if steps == [] then START else Next(c, After(c, steps[..|steps| - 1]), steps[|steps| - 1])
  }

  // ---------------------------------------------------------------------------
  // What every run keeps
  // ---------------------------------------------------------------------------

  /** The API resumes scheduled among the first `n` entries since the last reset. */
  function Since(log: seq<Event>, n: nat): nat
    requires n <= |log|
  {
    if n == 0 || log[n - 1].Reset? then 0 else Since(log, n - 1) + if log[n - 1].Scheduled? then 1 else 0
  }

  lemma {:induction false} SinceOfLonger(log: seq<Event>, e: Event, n: nat)
    requires n <= |log|
    ensures Since(log + [e], n) == Since(log, n)
  {
    if n > 0 {
      assert (log + [e])[n - 1] == log[n - 1];
      SinceOfLonger(log, e, n - 1);
    }
  }

  function DueOf(e: Event): Option<int> {
    match e
    case Scheduled(_, _, due) => Some(due)
    case RateScheduled(_, due) => Some(due)
    case _ => None
  }

  /** Each try is numbered by the tries since the last reset, and delayed by its number. */
  ghost predicate WellNumbered(c: Config, log: seq<Event>) {
    forall i :: 0 <= i < |log| && log[i].Scheduled? ==>
      && log[i].attempt == Since(log, i + 1) <= c.maxRetries
      && log[i].due == log[i].at + Backoff(log[i].attempt, c.base, c.cap)
  }

  /** An injection is of a slot that some entry scheduled, not before it was due, and of a slot
      that was not injected before. */
  ghost predicate InjectionSound(log: seq<Event>, i: nat)
    requires i < |log|
  {
    log[i].Injected? ==>
      && log[i].slot < i
      && DueOf(log[log[i].slot]).Some? && DueOf(log[log[i].slot]).value <= log[i].at
      && forall j :: 0 <= j < i && log[j].Injected? ==> log[j].slot < log[i].slot
  }

  ghost predicate SlotSound(s: State) {
    s.slot.Some? ==>
      && s.slot.value.entry < |s.log|
      && DueOf(s.log[s.slot.value.entry]) == Some(s.slot.value.due)
      && forall j :: 0 <= j < |s.log| && s.log[j].Injected? ==> s.log[j].slot < s.slot.value.entry
  }

  ghost predicate Inv(c: Config, s: State) {
    && s.retries == Since(s.log, |s.log|) && s.retries <= c.maxRetries
    && WellNumbered(c, s.log)
    && (forall i :: 0 <= i < |s.log| ==> InjectionSound(s.log, i))
    && SlotSound(s)
  }

  /** One more entry keeps the log well numbered and its injections sound. */
  lemma LoggedKeeps(c: Config, s: State, e: Event)
    requires Inv(c, s)
    requires e.Scheduled? ==> e.attempt == s.retries + 1 <= c.maxRetries && e.due == e.at + Backoff(e.attempt, c.base, c.cap)
    requires e.Injected? ==> s.slot.Some? && e.slot == s.slot.value.entry && s.slot.value.due <= e.at
    ensures WellNumbered(c, s.log + [e])
    ensures forall i :: 0 <= i < |s.log + [e]| ==> InjectionSound(s.log + [e], i)
    ensures Since(s.log + [e], |s.log| + 1) == if e.Reset? then 0 else s.retries + if e.Scheduled? then 1 else 0
  {
    var log := s.log + [e];
    SinceOfLonger(s.log, e, |s.log|);
    forall n | 0 <= n <= |s.log| ensures Since(log, n) == Since(s.log, n) {
      SinceOfLonger(s.log, e, n);
    }
    forall i | 0 <= i < |log| ensures InjectionSound(log, i) {
      if i < |s.log| {
        assert InjectionSound(s.log, i);
      }
    }
  }

  /** A new slot is younger than every injection so far. */
  lemma NewSlotIsSound(c: Config, s: State, t: State, e: Event)
    requires Inv(c, s) && DueOf(e).Some?
    requires t.log == s.log + [e] && t.slot == Some(Slot(DueOf(e).value, |s.log|))
    ensures SlotSound(t)
  {
    forall j | 0 <= j < |t.log| && t.log[j].Injected? ensures t.log[j].slot < |s.log| {
      assert InjectionSound(s.log, j);
    }
  }

  lemma ApiKeeps(c: Config, s: State, t: Turn, now: int)
    requires Inv(c, s)
    ensures Inv(c, ApiResumed(c, s, t, now))
  {
    if ApiApplies(s, t) {
      var u := ApiResumed(c, s, t, now);
      LoggedKeeps(c, s, u.log[|s.log|]);
      if ApiClaims(c, s, t) {
        NewSlotIsSound(c, s, u, u.log[|s.log|]);
      }
    }
  }

  lemma PlainLogKeeps(c: Config, s: State, t: State, e: Event)
    requires Inv(c, s) && (e.Reset? || e.Surfaced?)
    requires t.log == s.log + [e] && (t.slot == s.slot || t.slot == None) && t.retries == (if e.Reset? then 0 else s.retries)
    ensures Inv(c, t)
  {
    LoggedKeeps(c, s, e);
  }

  lemma RateKeeps(c: Config, s: State, t: Turn, now: int)
    requires Inv(c, s)
    ensures Inv(c, RateResume(c, s, t, now))
  {
    var u := RateResume(c, s, t, now);
    LoggedKeeps(c, s, u.log[|s.log|]);
    NewSlotIsSound(c, s, u, u.log[|s.log|]);
  }

  lemma EndedKeeps(c: Config, s: State, t: Turn, now: int)
    requires Inv(c, s)
    ensures Inv(c, Ended(c, s, t, now))
  {
    ApiKeeps(c, s, t, now);
    if t.isError {
      if RateClaims(s, t) {
        RateKeeps(c, s, t, now);
      } else if !ApiClaims(c, s, t) {
        PlainLogKeeps(c, ApiResumed(c, s, t, now), Ended(c, s, t, now), Surfaced);
      }
    } else if !(t.sawIncomplete && ApiClaims(c, s, t)) && !t.registryMissing {
      PlainLogKeeps(c, if t.sawIncomplete then ApiResumed(c, s, t, now) else s, Ended(c, s, t, now), Reset);
    }
  }

  lemma DrainedKeeps(c: Config, s: State, now: int)
    requires Inv(c, s)
    ensures Inv(c, Drained(s, now))
  {
    if s.slot.Some? && s.slot.value.due <= now && s.live {
      LoggedKeeps(c, s, Injected(s.slot.value.entry, now));
    }
  }

  lemma {:induction false} RunKeepsInv(c: Config, steps: seq<Step>)
    ensures Inv(c, After(c, steps))
  {
    if steps != [] {
      var s, step := After(c, steps[..|steps| - 1]), steps[|steps| - 1];
      RunKeepsInv(c, steps[..|steps| - 1]);
      match step
      case TurnEnds(turn, now) => EndedKeeps(c, s, turn, now);
      case Tick(now) => DrainedKeeps(c, s, now);
      case SessionStarts => PlainLogKeeps(c, s, Next(c, s, step), Reset);
      case ContextChanges(_, _, _) =>
    }
  }

  /** Over any sequence of turns and ticks, at most `maxRetries` resumes are scheduled between
      resets, each with the delay of its number. */
  lemma RetriesAreBounded(c: Config, steps: seq<Step>, i: nat)
    requires i < |After(c, steps).log| && After(c, steps).log[i].Scheduled?
    ensures var log := After(c, steps).log;
            && Since(log, i + 1) == log[i].attempt <= c.maxRetries
            && log[i].due == log[i].at + Backoff(log[i].attempt, c.base, c.cap)
  {
    RunKeepsInv(c, steps);
  }

  /** The delays of the API resumes scheduled among the first `n` entries since the last reset. */
  function Delays(log: seq<Event>, n: nat): int
    requires n <= |log|
  {
    if n == 0 || log[n - 1].Reset? then 0
    else Delays(log, n - 1) + if log[n - 1].Scheduled? then log[n - 1].due - log[n - 1].at else 0
  }

  lemma {:induction false} BackoffWithinCap(d: int, i: nat, attempt: int, cap: int)
    ensures DoubledFrom(d, i, attempt, cap) <= cap
    decreases attempt - i
  {
    if i < attempt && Wrap(d * 2) < cap {
      BackoffWithinCap(Wrap(d * 2), i + 1, attempt, cap);
    }
  }

  lemma Monotone(a: nat, b: nat, c: int)
    requires c >= 0 && a <= b
    ensures a * c <= b * c
  {
  }

  lemma OneMoreDelay(n: nat, c: int)
    ensures (n + 1) * c == n * c + c
  {
  }

  lemma {:induction false} DelaysWithinTries(c: Config, log: seq<Event>, n: nat)
    requires n <= |log| && WellNumbered(c, log) && c.cap >= 0
    ensures Delays(log, n) <= Since(log, n) * c.cap
    ensures Since(log, n) <= c.maxRetries
  {
    if n > 0 && !log[n - 1].Reset? {
      DelaysWithinTries(c, log, n - 1);
      if log[n - 1].Scheduled? {
        BackoffWithinCap(c.base, 1, log[n - 1].attempt, c.cap);
        OneMoreDelay(Since(log, n - 1), c.cap);
      }
    }
  }

  /** Between resets the runtime never plans to wait longer than `maxRetries` times the cap. */
  lemma TotalDelayIsBounded(c: Config, steps: seq<Step>, n: nat)
    requires n <= |After(c, steps).log| && c.cap >= 0
    ensures Delays(After(c, steps).log, n) <= c.maxRetries * c.cap
  {
    RunKeepsInv(c, steps);
    DelaysWithinTries(c, After(c, steps).log, n);
    Monotone(Since(After(c, steps).log, n), c.maxRetries, c.cap);
  }

  /** Every resume that is injected was scheduled, is not early, and is injected once. */
  lemma InjectedOnceAndNotEarly(c: Config, steps: seq<Step>, i: nat, j: nat)
    requires i < j < |After(c, steps).log| && After(c, steps).log[i].Injected? && After(c, steps).log[j].Injected?
    ensures var log := After(c, steps).log;
            && log[i].slot < log[j].slot < j
            && DueOf(log[log[j].slot]).Some? && DueOf(log[log[j].slot]).value <= log[j].at
  {
    RunKeepsInv(c, steps);
    assert InjectionSound(After(c, steps).log, j);
  }

  // ---------------------------------------------------------------------------
  // The session state
  // ---------------------------------------------------------------------------

  class SessionState {
    var live: bool
    var task: bool
    var conversation: bool
    var apiErrorRetries: nat
    var resumeAt: Option<Slot>
    var log: seq<Event>

    ghost function View(): State
      reads this
    {
      State(live, task, conversation, apiErrorRetries, resumeAt, log)
    }

    constructor ()
      ensures View() == START
    {
      live, task, conversation, apiErrorRetries, resumeAt, log := false, false, false, 0, None, [];
    }

    method MaybeScheduleRateLimitResume(c: Config, t: Turn, now: int) returns (claimed: bool)
      modifies this`resumeAt, this`log
      ensures claimed <==> RateClaims(old(View()), t)
      ensures View() == if claimed then RateResume(c, old(View()), t, now) else old(View())
    {
      if !t.rateLimited {
        return false;
      }
      var due := now + RateLimitDelay(t.retryAfter, t.resetAt, now, c.rateDefault, c.rateLeast, c.rateMost);
      if !live || !task {
        return false;
      }
      resumeAt := Some(Slot(due, |log|));
      log := log + [RateScheduled(now, due)];
      return true;
    }

    method MaybeScheduleAPIErrorResume(c: Config, t: Turn, now: int) returns (claimed: bool)
      modifies this`resumeAt, this`apiErrorRetries, this`log
      ensures claimed <==> ApiClaims(c, old(View()), t)
      ensures View() == ApiResumed(c, old(View()), t, now)
    {
      if !t.transient && !t.sawIncomplete {
        return false;
      }
      if !live || (!task && !conversation) {
        return false;
      }
      if apiErrorRetries >= c.maxRetries {
        apiErrorRetries, resumeAt := 0, None;
        log := log + [Reset];
        return false;
      }
      apiErrorRetries := apiErrorRetries + 1;
      var delay := DecideAPIErrorBackoff(apiErrorRetries, c.base, c.cap);
      resumeAt := Some(Slot(now + delay, |log|));
      log := log + [Scheduled(apiErrorRetries, now, now + delay)];
      return true;
    }

    /** The end of a turn: who claims it, in this order. */
    method OnTurnEnd(c: Config, t: Turn, now: int)
      modifies this
      ensures View() == Ended(c, old(View()), t, now)
    {
      if t.isError {
        var claimed := MaybeScheduleRateLimitResume(c, t, now);
        if claimed {
          return;
        }
        claimed := MaybeScheduleAPIErrorResume(c, t, now);
        if claimed {
          return;
        }
        log := log + [Surfaced];
        if task {
          task := false;
        } else if t.noticePosted {
          conversation := false;
        }
        return;
      }
      if t.sawIncomplete {
        var claimed := MaybeScheduleAPIErrorResume(c, t, now);
        if claimed {
          return;
        }
      }
      if t.registryMissing {
        return;
      }
      apiErrorRetries := 0;
      log := log + [Reset];
      if !task {
        conversation := false;
      }
    }

    method DrainResume(now: int) returns (injected: bool)
      modifies this`resumeAt, this`log
      ensures View() == Drained(old(View()), now)
      ensures injected ==> old(resumeAt).Some? && old(resumeAt).value.due <= now && old(live)
    {
      if resumeAt.None? || resumeAt.value.due > now {
        return false;
      }
      var slot := resumeAt.value;
      resumeAt := None;
      if !live {
        return false;
      }
      log := log + [Injected(slot.entry, now)];
      return true;
    }
  }
}
