/**
 The control-plane rate gate: after a rate limit no operation may start before a
 deadline that is kept in memory and in a small state file. The file stores the
 deadline in whole seconds.
 */
module RateGate {
  import opened FairShare
  import opened Policy
  import opened Backoff

  const MAX_FAILURES: nat := 1000

  const CRASH_RETRY_BASE: int := MINUTE

  /** The stored retry state of one profile and credential. */
  datatype Saved = Saved(credential: string, failures: nat, nextAttemptAt: int)

  /** The gate in memory and its file; the jitters are fixed per profile, None stands for no deadline. */
  datatype Gate = Gate(
    credential: string,
    jitter: nat,
    crashJitter: nat,
    inFlight: nat,
    rateLimited: bool,
    failures: nat,
    nextAttemptAt: Option<int>,
    file: Option<Saved>)

  predicate Waiting(g: Gate, now: int) {
    g.nextAttemptAt.Some? && now < g.nextAttemptAt.value
  }

  function Write(g: Gate, succeeds: bool): Gate {
    if succeeds && g.nextAttemptAt.Some?
    then g.(file := Some(Saved(g.credential, g.failures, WholeSeconds(g.nextAttemptAt.value))))
    else g
  }

  function CrashDelay(g: Gate): int {
    CRASH_RETRY_BASE + g.crashJitter
  }

  /** Asks to start an operation; the second component says whether it may. */
  function Before(g: Gate, now: int, saved: bool): (Gate, bool) {
    if (g.rateLimited || g.inFlight == 0) && Waiting(g, now) then (g, false)
    else if g.inFlight == 0 then
      var armed := Write(g.(rateLimited := false, nextAttemptAt := Some(now + CrashDelay(g))), saved);
      if saved then (armed.(inFlight := 1), true) else (armed, false)
    else (g.(inFlight := g.inFlight + 1), true)
  }

  function RecordRateLimit(g: Gate, now: int, saved: bool): Gate {
    var failures := if g.failures < MAX_FAILURES then g.failures + 1 else g.failures;
    Write(g.(rateLimited := true, failures := failures,
             nextAttemptAt := Some(now + NextDelay(g.jitter, failures, true))), saved)
  }

  /** An operation ended, rate limited or not. */
  function After(g: Gate, limited: bool, now: int, saved: bool): Gate {
    var done := g.(inFlight := if g.inFlight > 0 then g.inFlight - 1 else 0);
    if limited then RecordRateLimit(done, now, saved)
    else if done.inFlight > 0 || done.rateLimited || !saved then done
    else done.(file := None, failures := 0, nextAttemptAt := None)
  }

  function Observe(g: Gate, limited: bool, now: int, saved: bool): Gate {
    if limited then RecordRateLimit(g, now, saved) else g
  }

  /** A new process with the given credential reads the file. */
  function Load(g: Gate, credential: string, now: int, saved: bool): Gate {
    var blank := g.(credential := credential, inFlight := 0, rateLimited := false, failures := 0, nextAttemptAt := None);
    if g.file.None? || g.file.value.credential != credential then blank
    else
      var failures: nat := Min(g.file.value.failures, MAX_FAILURES);
      var loaded := blank.(failures := failures, rateLimited := failures > 0, nextAttemptAt := Some(g.file.value.nextAttemptAt));
      if failures == 0 && g.file.value.nextAttemptAt > now + CrashDelay(g)
      then Write(loaded.(nextAttemptAt := Some(now + CrashDelay(g))), saved)
      else loaded
  }

  // ---------------------------------------------------------------------
  // Runs

  datatype Event =
    | Asks(now: int, saved: bool)
    | Ends(limited: bool, now: int, saved: bool)
    | Observes(limited: bool, now: int, saved: bool)
    | Restarts(credential: string, now: int, saved: bool)

  function Next(g: Gate, e: Event): Gate {
    match e
    case Asks(now, saved) => Before(g, now, saved).0
    case Ends(limited, now, saved) => After(g, limited, now, saved)
    case Observes(limited, now, saved) => Observe(g, limited, now, saved)
    case Restarts(credential, now, saved) => Load(g, credential, now, saved)
  }

  /** The event lets a gated operation start. */
  predicate Starts(g: Gate, e: Event) {
    e.Asks? && Before(g, e.now, e.saved).1
  }

  /** The event records a rate limit, and the record is saved. */
  predicate RecordsLimit(e: Event) {
    (e.Ends? || e.Observes?) && e.limited && e.saved
  }

  datatype Run = Run(gates: seq<Gate>, events: seq<Event>)

  ghost predicate StepsTo(r: Run, i: nat)
    requires i < |r.events| && i + 1 < |r.gates|
  {
    r.gates[i + 1] == Next(r.gates[i], r.events[i])
  }

  /** A run of one profile with one credential whose clock never goes back, restarts included. */
  ghost predicate ValidRun(r: Run) {
    && |r.gates| == |r.events| + 1
    && (forall i {:trigger StepsTo(r, i)} :: 0 <= i < |r.events| ==> StepsTo(r, i))
    && (forall i, j :: 0 <= i < j < |r.events| ==> r.events[i].now <= r.events[j].now)
    && (forall i :: 0 <= i < |r.events| && r.events[i].Restarts? ==> r.events[i].credential == r.gates[0].credential)
    && r.gates[0].failures <= MAX_FAILURES
    && (r.gates[0].file.Some? ==> r.gates[0].file.value.credential == r.gates[0].credential)
  }

  // ---------------------------------------------------------------------
  // The deadline holds

  /** Until `deadline`, memory and file both keep operations from starting, also if limits recur. */
  ghost predicate HeldBack(g: Gate, deadline: int, now: int) {
    now < deadline ==>
      && g.rateLimited && g.failures > 0
      && g.nextAttemptAt.Some? && deadline <= g.nextAttemptAt.value
      && deadline <= now + NextDelay(g.jitter, g.failures, true)
      && g.file.Some? && g.file.value.credential == g.credential
      && g.file.value.failures > 0
      && WholeSeconds(deadline) <= g.file.value.nextAttemptAt
      && deadline <= now + NextDelay(g.jitter, Min(g.file.value.failures, MAX_FAILURES), true)
      && g.failures <= MAX_FAILURES
  }

  lemma WholeSecondsMonotone(a: int, b: int)
    requires a <= b
    ensures WholeSeconds(a) <= WholeSeconds(b) && WholeSeconds(WholeSeconds(a)) == WholeSeconds(a)
  {}

  lemma RecordHoldsBack(g: Gate, now: int, saved: bool, deadline: int)
    requires HeldBack(g, deadline, now) && now < deadline
    ensures HeldBack(RecordRateLimit(g, now, saved), deadline, now)
  {
    hide NextDelay, WholeSeconds;
    var failures := if g.failures < MAX_FAILURES then g.failures + 1 else g.failures;
    RateLimitDelayMonotone(g.jitter, g.failures, failures);
    WholeSecondsMonotone(deadline, now + NextDelay(g.jitter, failures, true));
  }

  /** Inside one process no event lets an operation start before the deadline. */
  lemma StepHoldsBack(g: Gate, e: Event, deadline: int, now: int)
    requires HeldBack(g, deadline, now) && now <= e.now && !e.Restarts?
    ensures HeldBack(Next(g, e), deadline, e.now)
    ensures Starts(g, e) ==> deadline <= e.now
  {
    hide NextDelay, WholeSeconds, RecordRateLimit;
    if e.now < deadline {
      match e
      case Asks(_, _) =>
      case Ends(limited, t, saved) =>
        var done := g.(inFlight := if g.inFlight > 0 then g.inFlight - 1 else 0);
        if limited { RecordHoldsBack(done, t, saved, deadline); }
      case Observes(limited, t, saved) => if limited { RecordHoldsBack(g, t, saved, deadline); }
    }
  }

  /** A restart with the same credential keeps the deadline cut down to the second. */
  lemma RestartHoldsBack(g: Gate, e: Event, deadline: int, now: int)
    requires HeldBack(g, deadline, now) && now <= e.now && e.Restarts? && e.credential == g.credential
    ensures HeldBack(Next(g, e), WholeSeconds(deadline), e.now)
  {
    hide NextDelay, WholeSeconds;
    WholeSecondsMonotone(deadline, deadline);
  }

  lemma WeakerDeadline(g: Gate, deadline: int, now: int)
    requires HeldBack(g, deadline, now)
    ensures HeldBack(g, WholeSeconds(deadline), now)
  {
    hide NextDelay, WholeSeconds;
    WholeSecondsMonotone(deadline, deadline);
  }

  /** A saved rate limit starts a hold until its deadline. */
  lemma LimitStartsHold(g: Gate, e: Event)
    requires RecordsLimit(e) && g.failures <= MAX_FAILURES
    ensures Next(g, e).nextAttemptAt.Some? && HeldBack(Next(g, e), Next(g, e).nextAttemptAt.value, e.now)
  {
    hide NextDelay, WholeSeconds;
    var failures := if g.failures < MAX_FAILURES then g.failures + 1 else g.failures;
    RateLimitDelayMonotone(g.jitter, failures, failures);
    WholeSecondsMonotone(e.now + NextDelay(g.jitter, failures, true), e.now + NextDelay(g.jitter, failures, true));
  }

  lemma {:induction false} RunFrame(r: Run, i: nat)
    requires ValidRun(r) && i <= |r.events|
    ensures r.gates[i].credential == r.gates[0].credential && r.gates[i].failures <= MAX_FAILURES
  {
    hide NextDelay, WholeSeconds;
    if i > 0 {
      RunFrame(r, i - 1);
      assert StepsTo(r, i - 1);
    }
  }

  lemma {:induction false} HoldInProcess(r: Run, i: nat, j: nat, deadline: int)
    requires ValidRun(r) && i < j <= |r.events| && HeldBack(r.gates[i + 1], deadline, r.events[i].now)
    requires forall m :: i < m < j ==> !r.events[m].Restarts?
    ensures HeldBack(r.gates[j], deadline, r.events[j - 1].now)
    decreases j
  {
    hide HeldBack, Next;
    if j > i + 1 {
      HoldInProcess(r, i, j - 1, deadline);
      assert StepsTo(r, j - 1);
      StepHoldsBack(r.gates[j - 1], r.events[j - 1], deadline, r.events[j - 2].now);
    }
  }

  lemma {:induction false} HoldAcrossRestarts(r: Run, i: nat, j: nat, deadline: int)
    requires ValidRun(r) && i < j <= |r.events| && HeldBack(r.gates[i + 1], deadline, r.events[i].now) && WholeSeconds(deadline) == deadline
    ensures HeldBack(r.gates[j], deadline, r.events[j - 1].now)
    decreases j
  {
    hide HeldBack, Next, WholeSeconds;
    if j > i + 1 {
      HoldAcrossRestarts(r, i, j - 1, deadline);
      assert StepsTo(r, j - 1);
      RunFrame(r, j - 1);
      if r.events[j - 1].Restarts? {
        RestartHoldsBack(r.gates[j - 1], r.events[j - 1], deadline, r.events[j - 2].now);
      } else {
        StepHoldsBack(r.gates[j - 1], r.events[j - 1], deadline, r.events[j - 2].now);
      }
    }
  }

  /**
   After a saved rate limit, no gated operation starts before its deadline while the
   process lives, and after restarts none starts before the deadline cut to the
   second; other completions and further rate limits make no difference.
   */
  lemma NoStartBeforeDeadline(r: Run, i: nat, j: nat)
    requires ValidRun(r) && i < j < |r.events| && RecordsLimit(r.events[i]) && Starts(r.gates[j], r.events[j])
    ensures r.gates[i + 1].nextAttemptAt.Some?
    ensures
      var deadline := r.gates[i + 1].nextAttemptAt.value;
      && WholeSeconds(deadline) <= r.events[j].now
      && ((forall m :: i < m < j ==> !r.events[m].Restarts?) ==> deadline <= r.events[j].now)
      && (WholeSeconds(deadline) == deadline ==> deadline <= r.events[j].now)
  {
    hide HeldBack, Next, WholeSeconds, Starts;
    RunFrame(r, i);
    assert StepsTo(r, i);
    LimitStartsHold(r.gates[i], r.events[i]);
    var deadline, start := r.gates[i + 1].nextAttemptAt.value, r.events[i].now;
    assert !r.events[j].Restarts? by { StartsAsks(r.gates[j], r.events[j]); }
    WeakerDeadline(r.gates[i + 1], deadline, start);
    WholeSecondsMonotone(deadline, deadline);
    HoldAcrossRestarts(r, i, j, WholeSeconds(deadline));
    StepHoldsBack(r.gates[j], r.events[j], WholeSeconds(deadline), r.events[j - 1].now);
    if forall m :: i < m < j ==> !r.events[m].Restarts? {
      HoldInProcess(r, i, j, deadline);
      StepHoldsBack(r.gates[j], r.events[j], deadline, r.events[j - 1].now);
    }
  }

  lemma StartsAsks(g: Gate, e: Event)
    requires Starts(g, e)
    ensures e.Asks?
  {}

  // ---------------------------------------------------------------------
  // The second that a restart can lose

  /**
   For every gate, every saved rate limit and every later restart with the same
   credential: an operation may start exactly from the deadline cut to the second on,
   and so before the deadline exactly when the deadline is not a whole second.
   */
  lemma RestartLosesTheFraction(g: Gate, e: Event, restartedAt: int, saved: bool, now: int)
    requires g.failures <= MAX_FAILURES && RecordsLimit(e)
    ensures Next(g, e).nextAttemptAt.Some?
    ensures
      var deadline := Next(g, e).nextAttemptAt.value;
      var restarted := Next(Next(g, e), Restarts(g.credential, restartedAt, saved));
      && (Starts(restarted, Asks(now, true)) <==> WholeSeconds(deadline) <= now)
      && ((exists early :: early < deadline && Starts(restarted, Asks(early, true))) <==> deadline % SECOND != 0)
  {
    hide NextDelay;
    var deadline := Next(g, e).nextAttemptAt.value;
    var restarted := Next(Next(g, e), Restarts(g.credential, restartedAt, saved));
    RestartedGate(g, e, restartedAt, saved);
    OpensAtDeadline(restarted, now);
    forall early ensures Starts(restarted, Asks(early, true)) <==> WholeSeconds(deadline) <= early {
      OpensAtDeadline(restarted, early);
    }
    if deadline % SECOND != 0 { assert Starts(restarted, Asks(WholeSeconds(deadline), true)); }
  }

  lemma RestartedGate(g: Gate, e: Event, restartedAt: int, saved: bool)
    requires g.failures <= MAX_FAILURES && RecordsLimit(e)
    ensures Next(g, e).nextAttemptAt.Some?
    ensures
      var restarted := Next(Next(g, e), Restarts(g.credential, restartedAt, saved));
      && restarted.inFlight == 0 && restarted.rateLimited
      && restarted.nextAttemptAt == Some(WholeSeconds(Next(g, e).nextAttemptAt.value))
  {
    hide NextDelay, WholeSeconds;
  }

  /** An idle gate lets an operation start exactly from its deadline on, given that the save succeeds. */
  lemma OpensAtDeadline(g: Gate, now: int)
    requires g.inFlight == 0 && g.nextAttemptAt.Some?
    ensures Starts(g, Asks(now, true)) <==> g.nextAttemptAt.value <= now
  {
    hide WholeSeconds;
  }

  // ---------------------------------------------------------------------
  // How long a limit lasts

  /** The last operation in flight ended well, no limit is in force, and that is saved. */
  predicate Clears(g: Gate, e: Event) {
    e.Ends? && !e.limited && e.saved && g.inFlight <= 1 && !g.rateLimited
  }

  predicate Limits(e: Event) {
    (e.Ends? || e.Observes?) && e.limited
  }

  /** Rate limits that the events i..j record. */
  function LimitsIn(r: Run, i: nat, j: nat): nat
    requires i <= j <= |r.events|
  {
    if i == j then 0 else LimitsIn(r, i, j - 1) + if Limits(r.events[j - 1]) then 1 else 0
  }

  lemma FailuresStep(g: Gate, e: Event)
    requires !e.Restarts? && g.failures <= MAX_FAILURES
    ensures
      Next(g, e).failures ==
        if Limits(e) then Min(g.failures + 1, 1000) else if Clears(g, e) then 0 else g.failures
  {
    hide NextDelay, WholeSeconds;
  }

  /** In one process the failure count is the number of limits since the last clearing, at most 1000. */
  lemma {:induction false} FailuresCountLimits(r: Run, i: nat, j: nat)
    requires ValidRun(r) && i <= j <= |r.events| && r.gates[i].failures == 0
    requires forall m :: i <= m < j ==> !r.events[m].Restarts? && !Clears(r.gates[m], r.events[m])
    ensures r.gates[j].failures == Min(LimitsIn(r, i, j), 1000)
    decreases j
  {
    hide Next, Clears;
    if i < j {
      FailuresCountLimits(r, i, j - 1);
      RunFrame(r, j - 1);
      assert StepsTo(r, j - 1);
      FailuresStep(r.gates[j - 1], r.events[j - 1]);
    }
  }

  /**
   The n-th limit since the last clearing closes the gate for fifteen minutes doubled n - 1
   times, at most an hour, plus the jitter of the profile.
   */
  lemma LimitLasts(r: Run, i: nat, j: nat)
    requires ValidRun(r) && i <= j < |r.events| && r.gates[i].failures == 0 && Limits(r.events[j])
    requires forall m :: i <= m <= j ==> !r.events[m].Restarts? && !Clears(r.gates[m], r.events[m])
    ensures
      r.gates[j + 1].nextAttemptAt ==
        Some(r.events[j].now + r.gates[j].jitter + Delay(15 * MINUTE, 60 * MINUTE, Min(LimitsIn(r, i, j + 1), 1000)))
    ensures r.gates[j + 1].rateLimited
  {
    hide Delay, WholeSeconds, Clears;
    FailuresCountLimits(r, i, j + 1);
    FailuresCountLimits(r, i, j);
    RunFrame(r, j);
    assert StepsTo(r, j);
    LimitSets(r.gates[j], r.events[j]);
  }

  lemma LimitSets(g: Gate, e: Event)
    requires Limits(e) && g.failures <= MAX_FAILURES
    ensures
      var g' := Next(g, e);
      g'.rateLimited && g'.nextAttemptAt == Some(e.now + g.jitter + Delay(15 * MINUTE, 60 * MINUTE, g'.failures))
  {
    hide Delay, WholeSeconds;
  }

  /** When an operation may start: the first only from the deadline on and if its guard is saved, another unless limited. */
  lemma StartsExactly(g: Gate, now: int, saved: bool)
    ensures
      Starts(g, Asks(now, saved)) <==>
        if g.inFlight == 0 then saved && (g.nextAttemptAt.None? || g.nextAttemptAt.value <= now)
        else !g.rateLimited || g.nextAttemptAt.None? || g.nextAttemptAt.value <= now
    ensures Starts(g, Asks(now, saved)) ==> Next(g, Asks(now, saved)).inFlight == g.inFlight + 1
    ensures !Starts(g, Asks(now, saved)) ==> Next(g, Asks(now, saved)).inFlight == g.inFlight
  {
    hide WholeSeconds;
  }

  /**
   The crash guard: if the process dies during a first operation started at t, the next
   process starts one exactly from one minute plus jitter after t on, cut to the second,
   but without earlier limits never later than that long after its own start.
   */
  lemma CrashGuardHolds(g: Gate, t: int, restartedAt: int, now: int)
    requires g.inFlight == 0 && g.failures <= MAX_FAILURES && Starts(g, Asks(t, true))
    ensures
      var restarted := Next(Next(g, Asks(t, true)), Restarts(g.credential, restartedAt, true));
      var guard, latest := WholeSeconds(t + MINUTE + g.crashJitter), restartedAt + MINUTE + g.crashJitter;
      Starts(restarted, Asks(now, true)) <==> (if g.failures == 0 then Min(guard, latest) else guard) <= now
  {
    hide WholeSeconds;
  }

  /** A cleared gate is open at once, and so is every process that starts after it. */
  lemma ClearedGateIsOpen(g: Gate, e: Event, restartedAt: int, now: int)
    requires Clears(g, e)
    ensures Next(g, e).failures == 0 && Next(g, e).inFlight == 0 && Starts(Next(g, e), Asks(now, true))
    ensures Starts(Next(Next(g, e), Restarts(g.credential, restartedAt, true)), Asks(now, true))
  {
    hide WholeSeconds;
  }

  // ---------------------------------------------------------------------
  // The gate as it runs

  class RetryFile {
    var content: Option<Saved>

    constructor ()
      ensures content.None?
    {
      content := None;
    }
  }

  class ControlPlaneRateGate {
    const file: RetryFile
    const credential: string
    const jitter: nat
    const crashJitter: nat
    var inFlight: nat
    var rateLimited: bool
    var failures: nat
    var nextAttemptAt: Option<int>

    ghost function View(): Gate
      reads this, file
    {
      Gate(credential, jitter, crashJitter, inFlight, rateLimited, failures, nextAttemptAt, file.content)
    }

    /** A fresh gate that has read its file. */
    constructor (path: RetryFile, identity: string, jitterOf: nat, crashJitterOf: nat, now: int, saved: bool, ghost before: Gate)
      requires before.file == path.content && before.jitter == jitterOf && before.crashJitter == crashJitterOf
      modifies path
      ensures file == path && View() == Load(before, identity, now, saved)
    {
      file, credential, jitter, crashJitter := path, identity, jitterOf, crashJitterOf;
      inFlight, rateLimited, failures, nextAttemptAt := 0, false, 0, None;
      new;
      if path.content.None? || path.content.value.credential != identity { return; }
      failures := Min(path.content.value.failures, MAX_FAILURES);
      rateLimited := failures > 0;
      nextAttemptAt := Some(path.content.value.nextAttemptAt);
      if !rateLimited {
        var latest := now + CRASH_RETRY_BASE + crashJitter;
        if nextAttemptAt.value > latest {
          nextAttemptAt := Some(latest);
          SaveState(saved);
        }
      }
    }

    method SaveState(succeeds: bool)
      requires nextAttemptAt.Some?
      modifies file
      ensures View() == Write(old(View()), succeeds)
    {
      if succeeds { file.content := Some(Saved(credential, failures, WholeSeconds(nextAttemptAt.value))); }
    }

    method Start(now: int, saved: bool) returns (ok: bool)
      modifies this, file
      ensures (View(), ok) == Before(old(View()), now, saved)
    {
      if (rateLimited || inFlight == 0) && nextAttemptAt.Some? && now < nextAttemptAt.value { return false; }
      if inFlight == 0 {
        rateLimited := false;
        nextAttemptAt := Some(now + CRASH_RETRY_BASE + crashJitter);
        SaveState(saved);
        if !saved { return false; }
      }
      inFlight := inFlight + 1;
      ok := true;
    }

    method End(limited: bool, now: int, saved: bool)
      modifies this, file
      ensures View() == After(old(View()), limited, now, saved)
    {
      if inFlight > 0 { inFlight := inFlight - 1; }
      if limited {
        LimitNow(now, saved);
        return;
      }
      if inFlight > 0 || rateLimited || !saved { return; }
      file.content := None;
      failures, nextAttemptAt := 0, None;
    }

    method ObserveResult(limited: bool, now: int, saved: bool)
      modifies this, file
      ensures View() == Observe(old(View()), limited, now, saved)
    {
      if limited { LimitNow(now, saved); }
    }

    method LimitNow(now: int, saved: bool)
      modifies this, file
      ensures View() == RecordRateLimit(old(View()), now, saved)
    {
      rateLimited := true;
      if failures < MAX_FAILURES { failures := failures + 1; }
      var delay, _ := BoundedExponentialBackoff(RATE_LIMIT_BASE, RATE_LIMIT_MAXIMUM, failures);
      nextAttemptAt := Some(now + if failures <= 0 then SUCCESS_INTERVAL + jitter else delay + jitter);
      SaveState(saved);
    }
  }
}
