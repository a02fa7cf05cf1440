/**
 Retrying host lease releases: a failed release is tried again fifteen seconds
 later, not before, and a confirmed answer then releases the slot. Restarts may
 only bring a retry forward.
 */
module ReleaseRetries {
  import opened Policy
  import opened Backoff
  import opened HostLeaseRelease

  /** Nothing about the slot changes. */
  ghost predicate Unmoved(s: Scaler, slot: string, s': Scaler) {
    && (slot in s'.pending <==> slot in s.pending)
    && (slot in s.pending ==> s'.pending[slot] == s.pending[slot])
    && (slot in s'.released <==> slot in s.released)
  }

  /** The release of the slot was tried: confirmed, it is released; else it waits fifteen seconds, cut to the second. */
  ghost predicate Tried(s: Scaler, slot: string, a: Answers, s': Scaler) {
    if a.released then slot !in s'.pending && slot in s'.released
    else
      && slot in s.pending && slot in s'.pending && s'.pending[slot].attempts == s.pending[slot].attempts + 1
      && s'.pending[slot].nextAttemptAt == Some(WholeSeconds(a.triedAt + 15 * SECOND))
      && (slot in s'.released <==> slot in s.released)
  }

  lemma AttemptTries(s: Scaler, record: CleanupRecord, a: Answers, slot: string)
    requires record.hostSlotKey in s.pending
    ensures if slot == record.hostSlotKey then Tried(s, slot, a, Attempt(s, record, a)) else Unmoved(s, slot, Attempt(s, record, a))
  {
    hide RecordsOf, WholeSeconds;
  }

  /** What a retry round does to a pending slot, by its next attempt and the clock reading it gets. */
  ghost predicate RoundEntry(s: Scaler, script: Script, slot: string, s': Scaler)
    requires slot in s.pending
  {
    var next, a := s.pending[slot].nextAttemptAt, AnswersFor(script, slot);
    if next.Some? && a.queuedAt < next.value then Unmoved(s, slot, s') else Tried(s, slot, a, s')
  }

  lemma {:induction false} RoundTouches(s: Scaler, records: seq<CleanupRecord>, script: Script, slot: string)
    requires ScalerOk(s) && Acceptable(s.targetKey, records) && Slots(records) <= s.pending.Keys && slot in s.pending
    requires forall i :: 0 <= i < |records| && records[i].hostSlotKey == slot ==> records[i] == s.pending[slot]
    ensures
      var s' := RetryEach(s, records, script);
      if slot in Slots(records) then RoundEntry(s, script, slot, s') else Unmoved(s, slot, s')
  {
    hide ScalerOk, Attempt, Complete, Slots, WholeSeconds;
    if records == [] {
      NoSlots();
    } else {
      var front, r := records[..|records| - 1], records[|records| - 1];
      assert records == front + [r];
      SlotsGrow(front, r);
      LastIsNew(s.targetKey, front, r);
      RoundTouches(s, front, script, slot);
      RoundIsOk(s, front, script);
      var before := RetryEach(s, front, script);
      if IsDue(r, AnswersFor(script, r.hostSlotKey).queuedAt) {
        assert r.hostSlotKey in before.pending;
        AttemptTries(before, r, AnswersFor(script, r.hostSlotKey), slot);
      }
    }
  }

  /**
   A retry round tries a pending release exactly if its next attempt, if it has one, has
   come; a confirmed answer releases the slot, any other sets the next attempt.
   */
  lemma RetryRoundIsExact(s: Scaler, script: Script, slot: string)
    requires ScalerOk(s)
    ensures
      var s' := Retry(s, script);
      if slot in s.pending then RoundEntry(s, script, slot, s') else Unmoved(s, slot, s')
  {
    hide RecordsOf, RoundEntry, Unmoved;
    WrittenSlots(s.targetKey, s.pending);
    if slot in s.pending {
      forall i | 0 <= i < |RecordsOf(s.pending)| && RecordsOf(s.pending)[i].hostSlotKey == slot
        ensures RecordsOf(s.pending)[i] == s.pending[slot]
      {
        SameLength(s.pending);
        RecordAt(s.pending, i);
      }
      RoundTouches(s, RecordsOf(s.pending), script, slot);
    } else {
      UntouchedRound(s, RecordsOf(s.pending), script, slot);
    }
  }

  lemma {:induction false} UntouchedRound(s: Scaler, records: seq<CleanupRecord>, script: Script, slot: string)
    requires ScalerOk(s) && Acceptable(s.targetKey, records) && Slots(records) <= s.pending.Keys && slot !in s.pending
    ensures Unmoved(s, slot, RetryEach(s, records, script))
  {
    hide ScalerOk, Attempt, Complete, Slots, IsDue;
    if records != [] {
      var front, r := records[..|records| - 1], records[|records| - 1];
      assert records == front + [r];
      SlotsGrow(front, r);
      LastIsNew(s.targetKey, front, r);
      UntouchedRound(s, front, script, slot);
      RoundIsOk(s, front, script);
      if IsDue(r, AnswersFor(script, r.hostSlotKey).queuedAt) {
        AttemptTries(RetryEach(s, front, script), r, AnswersFor(script, r.hostSlotKey), slot);
      }
    }
  }

  // ---------------------------------------------------------------------
  // Where a next attempt comes from

  /** When the event tries to release the slot without a confirmation: the instant of that attempt. */
  function FailTime(s: Scaler, e: Event, slot: string): Option<int> {
    match e
    case Settles(key, a) =>
      if key in s.runners && s.runners[key].hostSlotKey == slot && a.queueSaved && !a.released then Some(a.triedAt) else None
    case Releases(_, own, a) => if own == slot && !a.released then Some(a.triedAt) else None
    case Retries(script) =>
      var a := AnswersFor(script, slot);
      if slot in s.pending && !a.released
         && !(s.pending[slot].nextAttemptAt.Some? && a.queuedAt < s.pending[slot].nextAttemptAt.value)
      then Some(a.triedAt) else None
    case _ => None
  }

  function AfterFailure(t: int): int {
    WholeSeconds(t + 15 * SECOND)
  }

  /** A record found after the event is an older one, has not been tried yet, or was tried by the event. */
  ghost predicate Explained(s: Scaler, e: Event, x: CleanupRecord) {
    || x in s.document
    || x.nextAttemptAt.None?
    || (x.hostSlotKey in s.pending && x == s.pending[x.hostSlotKey])
    || (FailTime(s, e, x.hostSlotKey).Some? && x.nextAttemptAt == Some(AfterFailure(FailTime(s, e, x.hostSlotKey).value)))
  }

  ghost predicate AllExplained(s: Scaler, e: Event, s': Scaler) {
    && (forall slot {:trigger s'.pending[slot]} :: slot in s'.pending ==> Explained(s, e, s'.pending[slot]))
    && (forall i {:trigger s'.document[i]} :: 0 <= i < |s'.document| ==> Explained(s, e, s'.document[i]))
  }

  lemma SaveExplained(s: Scaler, e: Event, s': Scaler, succeeds: bool)
    requires AllExplained(s, e, s')
    ensures AllExplained(s, e, Saved(s', succeeds))
  {
    hide RecordsOf, Explained;
    if succeeds {
      SameLength(s'.pending);
      forall i | 0 <= i < |RecordsOf(s'.pending)| ensures Explained(s, e, RecordsOf(s'.pending)[i]) { RecordAt(s'.pending, i); }
    }
  }

  lemma StartExplained(s: Scaler, e: Event)
    requires ScalerOk(s)
    ensures AllExplained(s, e, s)
  {
    hide Acceptable;
  }

  lemma AttemptExplained(s: Scaler, e: Event, s': Scaler, record: CleanupRecord, a: Answers)
    requires ScalerOk(s') && record.hostSlotKey in s'.pending && AllExplained(s, e, s')
    requires a.released || FailTime(s, e, record.hostSlotKey) == Some(a.triedAt)
    ensures AllExplained(s, e, Attempt(s', record, a))
  {
    hide Acceptable, FailTime, Saved, WholeSeconds;
    var slot := record.hostSlotKey;
    var marked :=
      if a.released then s'.(pending := s'.pending - {slot}, released := s'.released + {slot})
      else s'.(pending := s'.pending[slot := Failed(s'.pending[slot], a.triedAt)]);
    SaveExplained(s, e, marked, a.resultSaved);
  }

  lemma QueueExplained(s: Scaler, e: Event, runnerKey: string, slot: string, now: int)
    requires ScalerOk(s)
    ensures AllExplained(s, e, Queue(s, runnerKey, slot, now))
  {
    hide FailTime, Acceptable;
    StartExplained(s, e);
  }

  lemma SettleExplained(s: Scaler, key: string, a: Answers)
    requires ScalerOk(s)
    ensures AllExplained(s, Settles(key, a), Settle(s, key, a))
  {
    hide ScalerOk, Attempt, Saved, Queue, Explained, Complete, Slots;
    var e := Settles(key, a);
    StartExplained(s, e);
    if key in s.runners {
      RunnerIsLive(s, key);
      var slot := s.runners[key].hostSlotKey;
      if slot != "" {
        QueueExplained(s, e, key, slot, a.queuedAt);
        if a.queueSaved {
          SaveExplained(s, e, Queue(s, key, slot, a.queuedAt), true);
          SettleParts(s, key, a);
          var stored := Saved(Queue(s, key, slot, a.queuedAt), true).(runners := s.runners - {key});
          AttemptExplained(s, e, stored, stored.pending[slot], a);
        }
      }
    }
  }

  lemma ReleaseExplained(s: Scaler, runnerKey: string, slot: string, a: Answers)
    requires ScalerOk(s) && runnerKey != ""
    ensures AllExplained(s, Releases(runnerKey, slot, a), ReleaseOrEnqueue(s, runnerKey, slot, a))
  {
    hide ScalerOk, Attempt, Saved, Queue, Explained, Complete, Slots;
    var e := Releases(runnerKey, slot, a);
    StartExplained(s, e);
    if slot != "" {
      QueueExplained(s, e, runnerKey, slot, a.queuedAt);
      SaveExplained(s, e, Queue(s, runnerKey, slot, a.queuedAt), a.queueSaved);
      ReleaseParts(s, runnerKey, slot, a);
      var stored := Saved(Queue(s, runnerKey, slot, a.queuedAt), a.queueSaved);
      AttemptExplained(s, e, stored, stored.pending[slot], a);
    }
  }

  lemma {:induction false} RoundExplained(s: Scaler, records: seq<CleanupRecord>, script: Script)
    requires ScalerOk(s) && Acceptable(s.targetKey, records) && Slots(records) <= s.pending.Keys
    requires forall i :: 0 <= i < |records| && records[i].hostSlotKey in s.pending ==> records[i] == s.pending[records[i].hostSlotKey]
    ensures AllExplained(s, Retries(script), RetryEach(s, records, script))
  {
    hide ScalerOk, Attempt, AllExplained, Complete, Slots;
    StartExplained(s, Retries(script));
    if records != [] {
      var front, r := records[..|records| - 1], records[|records| - 1];
      assert records == front + [r];
      SlotsGrow(front, r);
      LastIsNew(s.targetKey, front, r);
      RoundExplained(s, front, script);
      RoundIsOk(s, front, script);
      var a := AnswersFor(script, r.hostSlotKey);
      if IsDue(r, a.queuedAt) {
        AttemptExplained(s, Retries(script), RetryEach(s, front, script), r, a);
      }
    }
  }

  lemma RetryExplained(s: Scaler, script: Script)
    requires ScalerOk(s)
    ensures AllExplained(s, Retries(script), Retry(s, script))
  {
    hide RecordsOf, AllExplained;
    WrittenSlots(s.targetKey, s.pending);
    forall i | 0 <= i < |RecordsOf(s.pending)|
      ensures
        RecordsOf(s.pending)[i].hostSlotKey in s.pending ==> RecordsOf(s.pending)[i] == s.pending[RecordsOf(s.pending)[i].hostSlotKey]
    {
      SameLength(s.pending);
      RecordAt(s.pending, i);
    }
    RoundExplained(s, RecordsOf(s.pending), script);
  }

  lemma {:induction false} LoadedFrom(records: seq<CleanupRecord>)
    ensures forall slot {:trigger Loaded(records)[slot]} :: slot in Loaded(records) ==> Loaded(records)[slot] in records
  {
    if records != [] {
      var front := records[..|records| - 1];
      LoadedFrom(front);
      assert forall x :: x in front ==> x in records;
    }
  }

  lemma EventExplained(s: Scaler, e: Event)
    requires ScalerOk(s) && Allowed(s, e)
    ensures AllExplained(s, e, Next(s, e))
  {
    hide ScalerOk, Settle, ReleaseOrEnqueue, Retry;
    StartExplained(s, e);
    match e
    case Settles(key, a) => SettleExplained(s, key, a);
    case Releases(key, slot, a) => ReleaseExplained(s, key, slot, a);
    case Retries(script) => RetryExplained(s, script);
    case Restarts(_) => LoadedFrom(s.document);
    case _ =>
  }

  // ---------------------------------------------------------------------
  // Over whole runs

  /** A failed attempt of the run set this next attempt. */
  ghost predicate Backed(r: Run, j: nat, x: CleanupRecord)
    requires j <= |r.events| && j < |r.states|
  {
    x.nextAttemptAt.Some? ==>
      exists m :: 0 <= m < j && FailTime(r.states[m], r.events[m], x.hostSlotKey).Some?
                  && x.nextAttemptAt.value == AfterFailure(FailTime(r.states[m], r.events[m], x.hostSlotKey).value)
  }

  lemma BackedStep(r: Run, j: nat, x: CleanupRecord)
    requires j < |r.events| && j + 1 < |r.states|
    requires Explained(r.states[j], r.events[j], x)
    requires forall y :: y in r.states[j].document ==> Backed(r, j, y)
    requires forall slot {:trigger r.states[j].pending[slot]} :: slot in r.states[j].pending ==> Backed(r, j, r.states[j].pending[slot])
    ensures Backed(r, j + 1, x)
  {
    hide FailTime, AfterFailure;
    var slot := x.hostSlotKey;
    assert x in r.states[j].document ==> Backed(r, j, x);
    assert slot in r.states[j].pending && x == r.states[j].pending[slot] ==> Backed(r, j, x);
  }

  /** Every next attempt, in memory and in the document, across restarts, was set by a failed attempt of its slot. */
  lemma {:induction false} NextAttemptsAreBacked(r: Run, j: nat)
    requires ValidRun(r) && j <= |r.events|
    ensures forall y :: y in r.states[j].document ==> Backed(r, j, y)
    ensures forall slot {:trigger r.states[j].pending[slot]} :: slot in r.states[j].pending ==> Backed(r, j, r.states[j].pending[slot])
  {
    hide ScalerOk, Next, Backed, Explained;
    if j > 0 {
      NextAttemptsAreBacked(r, j - 1);
      EveryStateOk(r, j - 1);
      assert StepsTo(r, j - 1);
      EventExplained(r.states[j - 1], r.events[j - 1]);
      forall y | y in r.states[j].document ensures Backed(r, j, y) {
        var i :| 0 <= i < |r.states[j].document| && r.states[j].document[i] == y;
        BackedStep(r, j - 1, y);
      }
      forall slot | slot in r.states[j].pending ensures Backed(r, j, r.states[j].pending[slot]) {
        BackedStep(r, j - 1, r.states[j].pending[slot]);
      }
    }
  }

  /**
   A retry round at least fifteen seconds after every failed attempt of a pending slot tries
   its release again, whatever restarts came between; a confirmed answer releases it.
   */
  lemma RetriedAfterDelay(r: Run, j: nat, slot: string)
    requires ValidRun(r) && j < |r.events| && r.events[j].Retries? && slot in r.states[j].pending
    requires
      forall m :: 0 <= m < j && FailTime(r.states[m], r.events[m], slot).Some? ==>
        AnswersFor(r.events[j].script, slot).queuedAt >= FailTime(r.states[m], r.events[m], slot).value + 15 * SECOND
    ensures Tried(r.states[j], slot, AnswersFor(r.events[j].script, slot), r.states[j + 1])
  {
    hide Retry, FailTime, Tried, Unmoved, Acceptable;
    assert StepsTo(r, j);
    EveryStateOk(r, j);
    NextAttemptsAreBacked(r, j);
    assert Backed(r, j, r.states[j].pending[slot]);
    RetryRoundIsExact(r.states[j], r.events[j].script, slot);
  }

  /** The event neither restarts the process nor tries the slot by itself, and its retry round, if it is one, is early. */
  ghost predicate Early(s: Scaler, e: Event, slot: string, until: int) {
    match e
    case Settles(key, _) => !(key in s.runners && s.runners[key].hostSlotKey == slot)
    case Releases(_, own, _) => own != slot
    case Retries(script) => AnswersFor(script, slot).queuedAt < until
    case Restarts(_) => false
    case _ => true
  }

  lemma SettleTries(s: Scaler, key: string, a: Answers, slot: string)
    requires ScalerOk(s) && slot != ""
    ensures
      var s', e := Settle(s, key, a), Settles(key, a);
      && (Early(s, e, slot, 0) ==> slot in s.pending ==> slot in s'.pending && s'.pending[slot] == s.pending[slot])
      && (FailTime(s, e, slot).Some? ==>
            slot in s'.pending && s'.pending[slot].nextAttemptAt == Some(AfterFailure(FailTime(s, e, slot).value)))
  {
    hide ScalerOk, Attempt, Complete, Slots, WholeSeconds, RecordsOf;
    if key in s.runners {
      RunnerIsLive(s, key);
      var own := s.runners[key].hostSlotKey;
      if own != "" && a.queueSaved {
        SettleParts(s, key, a);
        var stored := Saved(Queue(s, key, own, a.queuedAt), true).(runners := s.runners - {key});
        AttemptTries(stored, stored.pending[own], a, slot);
      }
    }
  }

  lemma ReleaseTries(s: Scaler, runnerKey: string, own: string, a: Answers, slot: string)
    requires ScalerOk(s) && slot != "" && runnerKey != ""
    ensures
      var s', e := ReleaseOrEnqueue(s, runnerKey, own, a), Releases(runnerKey, own, a);
      && (Early(s, e, slot, 0) ==> slot in s.pending ==> slot in s'.pending && s'.pending[slot] == s.pending[slot])
      && (FailTime(s, e, slot).Some? ==>
            slot in s'.pending && s'.pending[slot].nextAttemptAt == Some(AfterFailure(FailTime(s, e, slot).value)))
  {
    hide ScalerOk, Attempt, Complete, Slots, WholeSeconds, RecordsOf;
    if own != "" {
      ReleaseParts(s, runnerKey, own, a);
      var stored := Saved(Queue(s, runnerKey, own, a.queuedAt), a.queueSaved);
      AttemptTries(stored, stored.pending[own], a, slot);
    }
  }

  lemma EventTries(s: Scaler, e: Event, slot: string)
    requires ScalerOk(s) && Allowed(s, e) && slot != ""
    ensures
      FailTime(s, e, slot).Some? ==>
        slot in Next(s, e).pending && Next(s, e).pending[slot].nextAttemptAt == Some(AfterFailure(FailTime(s, e, slot).value))
    ensures
      slot in s.pending && s.pending[slot].nextAttemptAt.Some? && Early(s, e, slot, s.pending[slot].nextAttemptAt.value) ==>
        slot in Next(s, e).pending && Next(s, e).pending[slot] == s.pending[slot]
  {
    hide ScalerOk, Settle, ReleaseOrEnqueue, Retry;
    match e
    case Settles(key, a) => SettleTries(s, key, a, slot);
    case Releases(key, own, a) => ReleaseTries(s, key, own, a, slot);
    case Retries(script) => RetryRoundIsExact(s, script, slot);
    case _ =>
  }

  /** A release that failed at event i stays pending, untried, through every retry round before its fifteen seconds are over. */
  lemma {:induction false} NotRetriedEarly(r: Run, i: nat, j: nat, slot: string)
    requires ValidRun(r) && i < j <= |r.events| && slot != "" && FailTime(r.states[i], r.events[i], slot).Some?
    requires
      forall m :: i < m < j ==>
        Early(r.states[m], r.events[m], slot, AfterFailure(FailTime(r.states[i], r.events[i], slot).value))
    ensures slot in r.states[j].pending && slot in r.states[i + 1].pending && r.states[j].pending[slot] == r.states[i + 1].pending[slot]
    ensures r.states[j].pending[slot].nextAttemptAt == Some(AfterFailure(FailTime(r.states[i], r.events[i], slot).value))
    decreases j
  {
    hide ScalerOk, Next, FailTime, Early, AfterFailure;
    EveryStateOk(r, j - 1);
    assert StepsTo(r, j - 1);
    EventTries(r.states[j - 1], r.events[j - 1], slot);
    if j > i + 1 { NotRetriedEarly(r, i, j - 1, slot); }
  }
}
