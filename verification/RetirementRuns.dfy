/**
 Retirement over whole runs: what an acceptance writes, which acceptance recorded
 each departure, when a departed target is retiring, and how start-up attempts of
 a retiring target are paced.
 */
module RetirementRuns {
  import opened Policy
  import opened Backoff
  import opened Retirement

  // ---------------------------------------------------------------------
  // One acceptance

  /** The desired state is newer than the last valid one. */
  predicate Newer(m: Manager, next: Desired) {
    m.lastValid.None? || next.generation > m.lastValid.value.generation
  }

  /** The intent that an acceptance of `next` leaves for a recorded or departed target. */
  function IntentFor(m: Manager, next: Desired, k: string): Record
    requires k in RecordsIn(m) || k in TargetsIn(m)
  {
    if k in RecordsIn(m) then RecordsIn(m)[k] else Record(TargetsIn(m)[k], next.generation, 0, None)
  }

  /**
   A newer state whose writes all succeed becomes the last valid one, with an intent
   for every target, recorded before or desired before, that it does not want.
   */
  lemma AcceptanceIsExact(m: Manager, next: Desired, w: Writes)
    ensures
      var m' := Accept(m, next, w);
      && m'.lastValid == (if Newer(m, next) && w.intents && w.lastValid then Some(next) else m.lastValid)
      && (Newer(m, next) && w.intents && w.lastValid && w.tidy ==>
            && RecordsIn(m').Keys == (RecordsIn(m).Keys + TargetsIn(m).Keys) - next.targets.Keys
            && forall k {:trigger RecordsIn(m')[k]} :: k in RecordsIn(m') ==> RecordsIn(m')[k] == IntentFor(m, next, k))
      && (!Newer(m, next) || !w.intents ==> m' == m)
  {
    hide EnsureCurrent;
    if Newer(m, next) && w.intents && w.lastValid {
      var recorded := Persist(m, next.generation, WithNewRetirements(RecordsIn(m), TargetsIn(m), next), true);
      var moved := recorded.(lastValid := Some(next), accepted := m.accepted + next.targets.Keys,
                             finalised := m.finalised - next.targets.Keys);
      TidyIsExact(moved, w.tidy);
    }
  }

  /** Tidying drops exactly the intents of desired targets and touches nothing else. */
  lemma TidyIsExact(m: Manager, saved: bool)
    ensures
      var m' := EnsureCurrent(m, saved);
      && m'.(document := m.document) == m
      && RecordsIn(m') == if saved && m.lastValid.Some? then RecordsIn(m) - m.lastValid.value.targets.Keys else RecordsIn(m)
  {
    if m.lastValid.Some? {
      var records, gone := RecordsIn(m), m.lastValid.value.targets.Keys;
      SameSizeNothingDropped(records, gone);
    }
  }

  lemma SameSizeNothingDropped(records: Records, gone: set<string>)
    ensures |records - gone| == |records| ==> records - gone == records
  {
    var rest := records - gone;
    assert rest.Keys == records.Keys - gone;
    assert |rest.Keys| == |rest| && |records.Keys| == |records|;
    SameSizeSubset(rest.Keys, records.Keys);
  }

  lemma SameSizeSubset(a: set<string>, b: set<string>)
    requires a <= b
    ensures |a| == |b| ==> a == b
  {
    assert b == a + (b - a);
    assert |b| == |a| + |b - a|;
  }

  // ---------------------------------------------------------------------
  // Which acceptance recorded a departure

  /** Event m recorded the departure of k: its state drops a target that was desired then. */
  ghost predicate RecordsDeparture(r: Run, m: nat, k: string)
    requires m < |r.events| && m < |r.states|
  {
    && r.events[m].Accepts? && r.events[m].writes.intents && Newer(r.states[m], r.events[m].next)
    && k in TargetsIn(r.states[m]) && k !in r.events[m].next.targets && k !in RecordsIn(r.states[m])
  }

  /** The record of k describes the target that departed at event m. */
  ghost predicate DescribesDeparture(r: Run, m: nat, k: string, x: Record)
    requires m < |r.events| && m < |r.states|
  {
    && RecordsDeparture(r, m, k)
    && x.target == TargetsIn(r.states[m])[k] && x.retireAtGeneration == r.events[m].next.generation
  }

  /** A record after an event is the one before, up to its pacing, or a fresh one of a departure. */
  lemma RecordStep(m: Manager, e: Event, k: string)
    requires k in RecordsIn(Next(m, e))
    ensures
      var x := RecordsIn(Next(m, e))[k];
      if k in RecordsIn(m)
      then x == RecordsIn(m)[k].(startupAttempts := x.startupAttempts, startupRetryAt := x.startupRetryAt)
      else e.Accepts? && e.writes.intents && Newer(m, e.next) && k in TargetsIn(m) && k !in e.next.targets
           && x == Record(TargetsIn(m)[k], e.next.generation, 0, None)
  {
    hide Delay, EnsureCurrent;
    match e
    case Accepts(next, w) =>
      if Newer(m, next) && w.intents && w.lastValid {
        var recorded := Persist(m, next.generation, WithNewRetirements(RecordsIn(m), TargetsIn(m), next), true);
        var moved := recorded.(lastValid := Some(next), accepted := m.accepted + next.targets.Keys,
                               finalised := m.finalised - next.targets.Keys);
        TidyIsExact(moved, w.tidy);
      }
    case Tidies(saved) => TidyIsExact(m, saved);
    case _ =>
  }

  /** Every stored intent comes from the acceptance that recorded the departure, with the target it had then. */
  lemma {:induction false} IntentsComeFromDepartures(r: Run, i: nat, k: string)
    requires ValidRun(r) && i <= |r.events| && k in RecordsIn(r.states[i])
    ensures exists m :: 0 <= m < i && DescribesDeparture(r, m, k, RecordsIn(r.states[i])[k])
  {
    hide Next;
    if i > 0 {
      assert StepsTo(r, i - 1);
      RecordStep(r.states[i - 1], r.events[i - 1], k);
      if k in RecordsIn(r.states[i - 1]) {
        IntentsComeFromDepartures(r, i - 1, k);
        var m :| 0 <= m < i - 1 && DescribesDeparture(r, m, k, RecordsIn(r.states[i - 1])[k]);
        assert DescribesDeparture(r, m, k, RecordsIn(r.states[i])[k]);
      } else {
        assert DescribesDeparture(r, i - 1, k, RecordsIn(r.states[i])[k]);
      }
    }
  }

  /** Generations handed to the manager never go back, whether or not their acceptance succeeded. */
  ghost predicate GenerationsGrow(r: Run) {
    forall i, j :: 0 <= i < j < |r.events| && r.events[i].Accepts? && r.events[j].Accepts? ==>
      r.events[i].next.generation <= r.events[j].next.generation
  }

  /** The last valid state came from one of the run's acceptances. */
  lemma {:induction false} LastValidOrigin(r: Run, i: nat) returns (m: nat)
    requires ValidRun(r) && i <= |r.events| && r.states[i].lastValid.Some?
    ensures
      && m < i && r.events[m].Accepts? && r.states[i].lastValid == Some(r.events[m].next)
      && forall x :: m < x <= i ==> r.states[x].lastValid == r.states[i].lastValid
  {
    hide Next;
    assert StepsTo(r, i - 1);
    LastValidStep(r.states[i - 1], r.events[i - 1]);
    if r.states[i].lastValid == r.states[i - 1].lastValid {
      m := LastValidOrigin(r, i - 1);
    } else {
      m := i - 1;
    }
  }

  lemma LastValidStep(m: Manager, e: Event)
    ensures
      || Next(m, e).lastValid == m.lastValid
      || (e.Accepts? && Next(m, e).lastValid == Some(e.next))
  {
    hide Accept, EnsureCurrent, Delay;
    match e
    case Accepts(next, w) => AcceptanceIsExact(m, next, w);
    case Tidies(saved) => TidyIsExact(m, saved);
    case _ =>
  }

  /**
   A recorded target that is not desired is retiring exactly if the acceptance that recorded
   its departure carried no later generation than the last valid state has.
   */
  lemma RetiringExactly(r: Run, i: nat, k: string)
    requires ValidRun(r) && i <= |r.events| && r.states[i].lastValid.Some?
    requires k in RecordsIn(r.states[i]) && k !in TargetsIn(r.states[i])
    ensures
      Retiring(r.states[i], k) <==>
        exists m :: 0 <= m < i && DescribesDeparture(r, m, k, RecordsIn(r.states[i])[k])
                    && r.events[m].next.generation <= r.states[i].lastValid.value.generation
  {
    hide Next;
    IntentsComeFromDepartures(r, i, k);
  }

  /** If generations never go back, every recorded target that is not desired is retiring. */
  lemma DepartedTargetsRetire(r: Run, i: nat, k: string)
    requires ValidRun(r) && GenerationsGrow(r) && i <= |r.events| && r.states[i].lastValid.Some?
    requires k in RecordsIn(r.states[i]) && k !in TargetsIn(r.states[i])
    ensures Retiring(r.states[i], k)
  {
    hide Next;
    IntentsComeFromDepartures(r, i, k);
    var m :| 0 <= m < i && DescribesDeparture(r, m, k, RecordsIn(r.states[i])[k]);
    var a := LastValidOrigin(r, i);
  }

  const FIRST := Desired(1, map["r" := Target("https://github.com/o/r", "r", 1, "set")])

  const INTERRUPTED := Desired(5, map[])

  const OVERTAKEN := Desired(3, map[])

  /**
   If generations do go back it can fail: generation 5 drops a target and is interrupted
   after its first write, then generation 3 is accepted without the target. The target is
   then recorded, not desired and not retiring, until a generation of at least 5 comes.
   */
  lemma OvertakenDepartureStalls() returns (r: Run)
    ensures ValidRun(r) && |r.events| == 3 && r.events[1].Accepts? && !r.events[1].writes.lastValid
    ensures
      var m := r.states[3];
      m.lastValid == Some(OVERTAKEN) && "r" in RecordsIn(m) && "r" !in TargetsIn(m) && !Retiring(m, "r")
  {
    hide Accept, EnsureCurrent;
    var start, all := Manager(None, None, {}, {}), Writes(true, true, true);
    var one := Accept(start, FIRST, all);
    var two := Accept(one, INTERRUPTED, Writes(true, false, false));
    var three := Accept(two, OVERTAKEN, all);
    AcceptanceIsExact(start, FIRST, all);
    Interrupted(one, INTERRUPTED);
    AcceptanceIsExact(two, OVERTAKEN, all);
    r := Run([start, one, two, three],
             [Accepts(FIRST, all), Accepts(INTERRUPTED, Writes(true, false, false)), Accepts(OVERTAKEN, all)]);
    assert StepsTo(r, 0) && StepsTo(r, 1) && StepsTo(r, 2);
  }

  /** An acceptance cut off after its first write has recorded the departures and nothing else. */
  lemma Interrupted(m: Manager, next: Desired)
    requires Newer(m, next)
    ensures
      var m' := Accept(m, next, Writes(true, false, false));
      && m'.lastValid == m.lastValid
      && RecordsIn(m').Keys == RecordsIn(m).Keys + (TargetsIn(m).Keys - next.targets.Keys)
      && forall k {:trigger RecordsIn(m')[k]} :: k in RecordsIn(m') ==> RecordsIn(m')[k] == IntentFor(m, next, k)
  {}

  // ---------------------------------------------------------------------
  // Pacing of start-up attempts

  /** The event makes a start-up attempt of k and commits its pacing first. */
  predicate Attempts(m: Manager, e: Event, k: string) {
    && e.Prepares? && e.key == k && e.saved && Retiring(m, k)
    && (RecordsIn(m)[k].startupRetryAt.None? || e.now >= RecordsIn(m)[k].startupRetryAt.value)
  }

  function RetryAfter(now: int, attempts: int): int {
    WholeSeconds(now + Delay(MINUTE, 15 * MINUTE, attempts))
  }

  /** An attempt counts itself and sets the next one; any other preparation changes nothing. */
  lemma PreparationIsExact(m: Manager, e: Event)
    requires e.Prepares?
    ensures
      var m' := Next(m, e);
      if Attempts(m, e, e.key) then
        && m'.(document := m.document) == m && RecordsIn(m').Keys == RecordsIn(m).Keys
        && (forall k :: k in RecordsIn(m) && k != e.key ==> RecordsIn(m')[k] == RecordsIn(m)[k])
        && var x, x' := RecordsIn(m)[e.key], RecordsIn(m')[e.key];
           && x'.target == x.target && x'.retireAtGeneration == x.retireAtGeneration
           && x'.startupAttempts == (if x.startupAttempts < 1000 then x.startupAttempts + 1 else 1000)
           && x'.startupRetryAt == Some(RetryAfter(e.now, x'.startupAttempts))
      else m' == m
  {
    hide Delay, WholeSeconds;
  }

  /** A saved success starts the pacing over; a saved completion drops the intent and finalises the target. */
  lemma CompletionIsExact(m: Manager, k: string, saved: bool)
    ensures
      var started := Next(m, Starts(k, saved));
      if Retiring(m, k) && saved then
        && started.lastValid == m.lastValid && RecordsIn(started).Keys == RecordsIn(m).Keys
        && RecordsIn(started)[k].startupRetryAt.None? && RecordsIn(started)[k].startupAttempts == 0
        && RecordsIn(started)[k].target == RecordsIn(m)[k].target
      else started == m
    ensures
      var ended := Next(m, Finalises(k, saved));
      if Retiring(m, k) && saved
      then RecordsIn(ended) == RecordsIn(m) - {k} && k in ended.finalised && ended.lastValid == m.lastValid
      else ended == m
  {}

  /** The event leaves the pacing of k alone while its intent stays. */
  lemma PacingStep(m: Manager, e: Event, k: string)
    requires k in RecordsIn(m) && k in RecordsIn(Next(m, e)) && !Attempts(m, e, k) && !(e.Starts? && e.key == k)
    ensures RecordsIn(Next(m, e))[k] == RecordsIn(m)[k]
  {
    hide Delay, WholeSeconds, EnsureCurrent;
    match e
    case Accepts(next, w) =>
      if Newer(m, next) && w.intents && w.lastValid {
        var recorded := Persist(m, next.generation, WithNewRetirements(RecordsIn(m), TargetsIn(m), next), true);
        var moved := recorded.(lastValid := Some(next), accepted := m.accepted + next.targets.Keys,
                               finalised := m.finalised - next.targets.Keys);
        TidyIsExact(moved, w.tidy);
      }
    case Tidies(saved) => TidyIsExact(m, saved);
    case _ =>
  }

  lemma {:induction false} PacingLasts(r: Run, i: nat, j: nat, k: string)
    requires ValidRun(r) && i < j <= |r.events| && Attempts(r.states[i], r.events[i], k)
    requires forall m :: i < m <= j ==> k in RecordsIn(r.states[m])
    requires forall m :: i < m < j ==> !Attempts(r.states[m], r.events[m], k) && !(r.events[m].Starts? && r.events[m].key == k)
    ensures
      var x := RecordsIn(r.states[j])[k];
      x.startupAttempts >= 1 && x.startupRetryAt == Some(RetryAfter(r.events[i].now, x.startupAttempts))
    decreases j
  {
    hide Next, Attempts, RetryAfter;
    assert StepsTo(r, j - 1);
    if j == i + 1 {
      AttemptedPacing(r.states[i], r.events[i], k);
    } else {
      PacingLasts(r, i, j - 1, k);
      PacingStep(r.states[j - 1], r.events[j - 1], k);
    }
  }

  lemma AttemptedPacing(m: Manager, e: Event, k: string)
    requires Attempts(m, e, k)
    ensures k in RecordsIn(Next(m, e))
    ensures
      var x := RecordsIn(Next(m, e))[k];
      x.startupAttempts >= 1 && x.startupRetryAt == Some(RetryAfter(e.now, x.startupAttempts))
  {
    hide RetryAfter, Next;
    PreparationIsExact(m, e);
  }

  /**
   Between two start-up attempts of one retirement that did not succeed lies at least the
   bounded exponential delay of the attempts so far, cut to the second, restarts included.
   */
  lemma StartupsArePaced(r: Run, i: nat, j: nat, k: string)
    requires ValidRun(r) && i < j < |r.events| && Attempts(r.states[i], r.events[i], k) && Attempts(r.states[j], r.events[j], k)
    requires forall m :: i < m <= j ==> k in RecordsIn(r.states[m])
    requires forall m :: i < m < j ==> !Attempts(r.states[m], r.events[m], k) && !(r.events[m].Starts? && r.events[m].key == k)
    ensures r.events[j].now >= RetryAfter(r.events[i].now, RecordsIn(r.states[j])[k].startupAttempts)
    ensures r.events[j].now > r.events[i].now + MINUTE - SECOND
  {
    hide Next, WholeSeconds, Delay;
    PacingLasts(r, i, j, k);
    var attempts := RecordsIn(r.states[j])[k].startupAttempts;
    DelayMonotone(MINUTE, 15 * MINUTE, 1, attempts);
    FirstStartupDelay();
  }

  lemma FirstStartupDelay()
    ensures Delay(MINUTE, 15 * MINUTE, 1) == MINUTE
  {
    PowerOfZero(MINUTE);
  }
}
