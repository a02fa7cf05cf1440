/**
 Write-ahead release of host leases: before a stopped runner's identity is
 forgotten, its lease is recorded in a durable release document, and the record
 stays until the host coordinator has confirmed the release. Operations of one
 target are serialised; every save and every release may fail, workers may stop at
 any time, and a restart knows only the document and the workers still running.
 */
module HostLeaseRelease {
  import opened Ordering
  import opened Policy
  import opened Backoff

  const RETRY_DELAY: int := 15 * SECOND

  /** A runner and the host lease it holds; the slot is empty when host admission is off. */
  datatype Runner = Runner(hostSlotKey: string, leaseReleased: bool)

  datatype CleanupRecord = CleanupRecord(
    targetKey: string,
    runnerKey: string,
    hostSlotKey: string,
    attempts: nat,
    firstFailedAt: Option<int>,
    lastAttemptAt: Option<int>,
    nextAttemptAt: Option<int>)

  type Pending = map<string, CleanupRecord>

  /**
   The state of one target's scaler: runner map, pending releases in memory, the
   stored document and the running workers with their slots. `tracked` holds every
   slot a runner ever held, `released` those whose release is confirmed since.
   */
  datatype Scaler = Scaler(
    targetKey: string,
    runners: map<string, Runner>,
    pending: Pending,
    document: seq<CleanupRecord>,
    workers: map<string, string>,
    tracked: set<string>,
    released: set<string>)

  /** Clock readings and outcomes of one attempt: the write-ahead save, the release, the save of its result. */
  datatype Answers = Answers(queuedAt: int, queueSaved: bool, released: bool, triedAt: int, resultSaved: bool)

  /** The answers that each slot gets in a retry round. */
  datatype Script = Script(bySlot: map<string, Answers>, otherwise: Answers)

  function AnswersFor(script: Script, slot: string): Answers {
    if slot in script.bySlot then script.bySlot[slot] else script.otherwise
  }

  // ---------------------------------------------------------------------
  // The release document

  /** Pending records ordered by slot, as they are written. */
  ghost function RecordsOf(pending: Pending): seq<CleanupRecord> {
    var keys := SortedView(pending.Keys);
    seq(|keys|, i requires 0 <= i < |keys| => ListedKey(pending.Keys, i); pending[keys[i]])
  }

  lemma ListedKey(s: set<string>, i: nat)
    requires i < |SortedView(s)|
    ensures SortedView(s)[i] in s
  {
    assert SortedView(s)[i] in Elements(SortedView(s));
  }

  predicate Complete(targetKey: string, r: CleanupRecord) {
    r.targetKey == targetKey && r.runnerKey != "" && r.hostSlotKey != ""
  }

  /** The check of a reload: complete records for this target, no slot twice. */
  ghost predicate Acceptable(targetKey: string, records: seq<CleanupRecord>) {
    && (forall i :: 0 <= i < |records| ==> Complete(targetKey, records[i]))
    && (forall i, j :: 0 <= i < j < |records| ==> records[i].hostSlotKey != records[j].hostSlotKey)
  }

  method ParseDocument(targetKey: string, records: seq<CleanupRecord>) returns (ok: bool)
    ensures ok <==> Acceptable(targetKey, records)
  {
    var seen: set<string> := {};
    for i := 0 to |records|
      invariant seen == set j | 0 <= j < i :: records[j].hostSlotKey
      invariant Acceptable(targetKey, records[..i])
    {
      if !Complete(targetKey, records[i]) { return false; }
      if records[i].hostSlotKey in seen { return false; }
      seen := seen + {records[i].hostSlotKey};
    }
    assert records[..|records|] == records;
    ok := true;
  }

  /** The in-memory map a reload builds. */
  ghost function Loaded(records: seq<CleanupRecord>): Pending {
    if records == [] then map[]
    else Loaded(records[..|records| - 1])[records[|records| - 1].hostSlotKey := records[|records| - 1]]
  }

  function Slots(records: seq<CleanupRecord>): set<string> {
    set i | 0 <= i < |records| :: records[i].hostSlotKey
  }

  ghost predicate PendingOk(targetKey: string, pending: Pending) {
    forall s {:trigger pending[s]} :: s in pending ==> Complete(targetKey, pending[s]) && pending[s].hostSlotKey == s
  }

  lemma RecordAt(pending: Pending, i: nat)
    requires i < |SortedView(pending.Keys)|
    ensures |RecordsOf(pending)| == |SortedView(pending.Keys)| && SortedView(pending.Keys)[i] in pending
    ensures RecordsOf(pending)[i] == pending[SortedView(pending.Keys)[i]]
  {
    ListedKey(pending.Keys, i);
  }

  lemma RecordOf(pending: Pending, slot: string) returns (i: nat)
    requires slot in pending
    ensures i < |RecordsOf(pending)| && RecordsOf(pending)[i] == pending[slot]
  {
    hide RecordsOf, SortedView, StrictlySorted;
    var keys := SortedView(pending.Keys);
    assert slot in Elements(keys);
    i :| 0 <= i < |keys| && keys[i] == slot;
    RecordAt(pending, i);
  }

  lemma WrittenSlots(targetKey: string, pending: Pending)
    requires PendingOk(targetKey, pending)
    ensures Slots(RecordsOf(pending)) == pending.Keys && Acceptable(targetKey, RecordsOf(pending))
  {
    hide RecordsOf, SortedView, StrictlySorted, Complete;
    var keys, records := SortedView(pending.Keys), RecordsOf(pending);
    SameLength(pending);
    SortedIsDistinct(keys);
    forall s | s in pending ensures s in Slots(records) {
      var i := RecordOf(pending, s);
      assert records[i].hostSlotKey == s;
    }
    forall i | 0 <= i < |records| ensures keys[i] in pending && records[i] == pending[keys[i]] { RecordAt(pending, i); }
  }

  lemma SameLength(pending: Pending)
    ensures |RecordsOf(pending)| == |SortedView(pending.Keys)|
  {}

  lemma {:induction false} LoadedSlots(targetKey: string, records: seq<CleanupRecord>)
    requires Acceptable(targetKey, records)
    ensures Loaded(records).Keys == Slots(records) && PendingOk(targetKey, Loaded(records))
  {
    hide Complete;
    if records != [] {
      var front, last := records[..|records| - 1], records[|records| - 1];
      LoadedSlots(targetKey, front);
      SlotsGrow(front, last);
      assert records == front + [last];
    }
  }

  lemma SlotsGrow(front: seq<CleanupRecord>, last: CleanupRecord)
    ensures Slots(front + [last]) == Slots(front) + {last.hostSlotKey}
  {
    var records := front + [last];
    assert records[|front|] == last;
    forall i | 0 <= i < |front| ensures front[i].hostSlotKey in Slots(records) { assert records[i] == front[i]; }
  }

  lemma {:induction false} LoadedRecord(targetKey: string, records: seq<CleanupRecord>, i: nat)
    requires Acceptable(targetKey, records) && i < |records|
    ensures records[i].hostSlotKey in Loaded(records) && Loaded(records)[records[i].hostSlotKey] == records[i]
  {
    hide Complete;
    if i < |records| - 1 {
      var front := records[..|records| - 1];
      LoadedRecord(targetKey, front, i);
      assert front[i] == records[i];
    }
  }

  /** What a save writes, a later start reads back unchanged. */
  lemma SavedReleasesReload(targetKey: string, pending: Pending)
    requires PendingOk(targetKey, pending)
    ensures Acceptable(targetKey, RecordsOf(pending)) && Loaded(RecordsOf(pending)) == pending
  {
    hide RecordsOf, Acceptable, Loaded;
    WrittenSlots(targetKey, pending);
    LoadedSlots(targetKey, RecordsOf(pending));
    forall s | s in pending ensures s in Loaded(RecordsOf(pending)) && Loaded(RecordsOf(pending))[s] == pending[s] {
      var i := RecordOf(pending, s);
      LoadedRecord(targetKey, RecordsOf(pending), i);
    }
  }

  // ---------------------------------------------------------------------
  // Steps

  /** Writes the pending releases when the save succeeds. */
  ghost function Saved(s: Scaler, succeeds: bool): Scaler {
    if succeeds then s.(document := RecordsOf(s.pending)) else s
  }

  /** The pending record of a slot, fresh unless it is pending already. */
  function Queued(targetKey: string, pending: Pending, runnerKey: string, slot: string, now: int): CleanupRecord {
    if slot in pending then pending[slot]
    else CleanupRecord(targetKey, runnerKey, slot, 0, Some(WholeSeconds(now)), None, None)
  }

  function Queue(s: Scaler, runnerKey: string, slot: string, now: int): Scaler {
    s.(pending := s.pending[slot := Queued(s.targetKey, s.pending, runnerKey, slot, now)])
  }

  function Failed(r: CleanupRecord, now: int): CleanupRecord {
    r.(attempts := r.attempts + 1,
       firstFailedAt := if r.firstFailedAt.None? then Some(WholeSeconds(now)) else r.firstFailedAt,
       lastAttemptAt := Some(WholeSeconds(now)), nextAttemptAt := Some(WholeSeconds(now + RETRY_DELAY)))
  }

  /** One attempt to release a recorded lease. */
  ghost function Attempt(s: Scaler, record: CleanupRecord, a: Answers): Scaler {
    var slot := record.hostSlotKey;
    if !a.released then
      var current := if slot in s.pending then s.pending[slot] else record;
      Saved(s.(pending := s.pending[slot := Failed(current, a.triedAt)]), a.resultSaved)
    else
      var done := s.(pending := s.pending - {slot}, released := s.released + {slot});
      if slot in s.pending then Saved(done, a.resultSaved) else done
  }

  /** A stopped runner leaves the runner map only after its lease is durably queued for release. */
  ghost function Settle(s: Scaler, key: string, a: Answers): Scaler {
    if key !in s.runners then s
    else if s.runners[key].hostSlotKey == "" || s.runners[key].leaseReleased then s.(runners := s.runners - {key})
    else
      var slot := s.runners[key].hostSlotKey;
      var queued := Queue(s, key, slot, a.queuedAt);
      if !a.queueSaved then queued
      else
        var stored := Saved(queued, true);
        Attempt(stored.(runners := stored.runners - {key}), queued.pending[slot], a)
  }

  /** Releases a lease that no runner holds, recording it first; a failed record is only reported. */
  ghost function ReleaseOrEnqueue(s: Scaler, runnerKey: string, slot: string, a: Answers): Scaler {
    if slot == "" then s else
      var queued := Queue(s, runnerKey, slot, a.queuedAt);
      Attempt(Saved(queued, a.queueSaved), queued.pending[slot], a)
  }

  predicate IsDue(r: CleanupRecord, now: int) {
    r.nextAttemptAt.None? || now >= r.nextAttemptAt.value
  }

  /** Retries the listed records that are due, one after the other. */
  ghost function RetryEach(s: Scaler, records: seq<CleanupRecord>, script: Script): Scaler {
    if records == [] then s else
      var before := RetryEach(s, records[..|records| - 1], script);
      var r := records[|records| - 1];
      var a := AnswersFor(script, r.hostSlotKey);
      if IsDue(r, a.queuedAt) then Attempt(before, r, a) else before
  }

  ghost function Retry(s: Scaler, script: Script): Scaler {
    RetryEach(s, RecordsOf(s.pending), script)
  }

  /** A runner enters the map with its slot; a slot that is held again is no longer released. */
  function Hold(s: Scaler, key: string, slot: string): Scaler {
    s.(runners := s.runners[key := Runner(slot, false)],
       tracked := if slot == "" then s.tracked else s.tracked + {slot},
       released := s.released - {slot})
  }

  /** A launch: the worker runs and its runner is in the map. */
  function Track(s: Scaler, key: string, slot: string): Scaler {
    Hold(s.(workers := s.workers[key := slot]), key, slot)
  }

  function HeldSlots(runners: map<string, Runner>): set<string> {
    set k | k in runners :: runners[k].hostSlotKey
  }

  function WorkerSlots(workers: map<string, string>): set<string> {
    set k | k in workers :: workers[k]
  }

  /** A new process: the runner map is empty, and the pending releases come from the document if it loads. */
  ghost function Restart(s: Scaler, loads: bool): Scaler {
    s.(runners := map[], pending := if loads then Loaded(s.document) else map[])
  }

  datatype Event =
    | Tracks(key: string, slot: string)
    | Recovers(key: string)
    | Stops(key: string)
    | Settles(key: string, answers: Answers)
    | Releases(key: string, slot: string, answers: Answers)
    | Retries(script: Script)
    | Restarts(loads: bool)

  /** Runner keys are never empty and never taken twice; recovery takes up a running worker. */
  predicate Allowed(s: Scaler, e: Event) {
    match e
    case Tracks(key, _) => key != "" && key !in s.runners && key !in s.workers
    case Recovers(key) => key != "" && key !in s.runners && key in s.workers
    case Releases(key, _, _) => key != ""
    case _ => true
  }

  ghost function Next(s: Scaler, e: Event): Scaler
    requires Allowed(s, e)
  {
    match e
    case Tracks(key, slot) => Track(s, key, slot)
    case Recovers(key) => Hold(s, key, s.workers[key])
    case Stops(key) => s.(workers := s.workers - {key})
    case Settles(key, a) => Settle(s, key, a)
    case Releases(key, slot, a) => ReleaseOrEnqueue(s, key, slot, a)
    case Retries(script) => Retry(s, script)
    case Restarts(loads) => Restart(s, loads)
  }

  // ---------------------------------------------------------------------
  // The invariant

  ghost predicate ScalerOk(s: Scaler) {
    && PendingOk(s.targetKey, s.pending)
    && Acceptable(s.targetKey, s.document)
    && (forall k {:trigger s.runners[k]} :: k in s.runners ==> k != "" && !s.runners[k].leaseReleased)
  }

  /** Memory and document both know the slot, a runner or a running worker has it, or it is released. */
  ghost predicate Safe(s: Scaler, slot: string) {
    || slot in HeldSlots(s.runners)
    || slot in WorkerSlots(s.workers)
    || slot in s.released
    || (slot in s.pending && slot in Slots(s.document))
  }

  /** What an outsider can find: a runner, a running worker, a stored record or a confirmed release. */
  ghost predicate Accounted(s: Scaler, slot: string) {
    || slot in HeldSlots(s.runners)
    || slot in WorkerSlots(s.workers)
    || slot in Slots(s.document)
    || slot in s.released
  }

  /** Nothing is left of the slot, in memory or on disk. */
  ghost predicate Lost(s: Scaler, slot: string) {
    !Accounted(s, slot) && slot !in s.pending
  }

  /** The events that lose a slot: losing memory or the last worker while nothing else knows the slot. */
  ghost predicate Strands(s: Scaler, e: Event, slot: string) {
    match e
    case Restarts(_) =>
      slot !in WorkerSlots(s.workers) && slot !in Slots(s.document) && slot !in s.released
    case Stops(key) =>
      && slot !in WorkerSlots(s.workers - {key}) && slot !in HeldSlots(s.runners) && slot !in s.released
      && !(slot in s.pending && slot in Slots(s.document))
    case _ => false
  }

  lemma SaveOk(s: Scaler, succeeds: bool)
    requires ScalerOk(s)
    ensures ScalerOk(Saved(s, succeeds))
    ensures Slots(Saved(s, succeeds).document) == if succeeds then s.pending.Keys else Slots(s.document)
  {
    hide Acceptable, RecordsOf, Slots;
    WrittenSlots(s.targetKey, s.pending);
  }

  lemma QueueOk(s: Scaler, runnerKey: string, slot: string, now: int)
    requires ScalerOk(s) && runnerKey != "" && slot != ""
    ensures ScalerOk(Queue(s, runnerKey, slot, now))
    ensures Complete(s.targetKey, Queue(s, runnerKey, slot, now).pending[slot])
    ensures Queue(s, runnerKey, slot, now).pending[slot].hostSlotKey == slot
  {
    hide Acceptable;
  }

  /** What an attempt does to the document and to the pending slots. */
  lemma AttemptOk(s: Scaler, record: CleanupRecord, a: Answers)
    requires ScalerOk(s) && Complete(s.targetKey, record) && record.hostSlotKey in s.pending
    ensures
      var s', slot := Attempt(s, record, a), record.hostSlotKey;
      && ScalerOk(s')
      && s' == s.(pending := s'.pending, document := s'.document, released := s'.released)
      && s'.pending.Keys == (if a.released then s.pending.Keys - {slot} else s.pending.Keys)
      && s'.released == (if a.released then s.released + {slot} else s.released)
      && Slots(s'.document) == if a.resultSaved then s'.pending.Keys else Slots(s.document)
  {
    hide Acceptable, Slots, Saved;
    var slot := record.hostSlotKey;
    var marked :=
      if a.released then s.(pending := s.pending - {slot}, released := s.released + {slot})
      else s.(pending := s.pending[slot := Failed(s.pending[slot], a.triedAt)]);
    SaveOk(marked, a.resultSaved);
    SaveFrame(marked, a.resultSaved);
  }

  lemma SaveFrame(s: Scaler, succeeds: bool)
    ensures Saved(s, succeeds) == s.(document := Saved(s, succeeds).document)
  {}

  lemma AttemptIsSafe(s: Scaler, record: CleanupRecord, a: Answers, slot: string)
    requires ScalerOk(s) && Complete(s.targetKey, record) && record.hostSlotKey in s.pending && Safe(s, slot)
    ensures Safe(Attempt(s, record, a), slot)
  {
    hide ScalerOk, Attempt, Slots, HeldSlots, WorkerSlots, Complete;
    AttemptOk(s, record, a);
  }

  lemma SettleParts(s: Scaler, key: string, a: Answers)
    requires ScalerOk(s) && key in s.runners && s.runners[key].hostSlotKey != "" && a.queueSaved
    ensures
      var slot := s.runners[key].hostSlotKey;
      var stored := Saved(Queue(s, key, slot, a.queuedAt), true).(runners := s.runners - {key});
      && ScalerOk(stored) && slot in stored.pending && Complete(s.targetKey, stored.pending[slot])
      && stored.pending[slot].hostSlotKey == slot
      && Slots(stored.document) == s.pending.Keys + {slot}
      && Settle(s, key, a) == Attempt(stored, stored.pending[slot], a)
  {
    hide Acceptable, Slots, Attempt, RecordsOf, Complete;
    var slot := s.runners[key].hostSlotKey;
    var queued := Queue(s, key, slot, a.queuedAt);
    QueueOk(s, key, slot, a.queuedAt);
    SaveOk(queued, true);
  }

  lemma SettleOk(s: Scaler, key: string, a: Answers)
    requires ScalerOk(s)
    ensures ScalerOk(Settle(s, key, a)) && Settle(s, key, a).tracked == s.tracked
  {
    hide Acceptable, Slots, Attempt, Saved, Complete;
    if key in s.runners && s.runners[key].hostSlotKey != "" {
      QueueOk(s, key, s.runners[key].hostSlotKey, a.queuedAt);
      if a.queueSaved {
        SettleParts(s, key, a);
        var slot := s.runners[key].hostSlotKey;
        var stored := Saved(Queue(s, key, slot, a.queuedAt), true).(runners := s.runners - {key});
        SaveFrame(Queue(s, key, slot, a.queuedAt), true);
        AttemptOk(stored, stored.pending[slot], a);
      }
    }
  }

  /** A runner is forgotten only when its slot is pending in memory and in the document. */
  lemma SettleIsSafe(s: Scaler, key: string, a: Answers, slot: string)
    requires ScalerOk(s) && slot != "" && Safe(s, slot)
    ensures Safe(Settle(s, key, a), slot)
  {
    hide ScalerOk, Attempt, Slots, WorkerSlots, Saved, Complete, HeldSlots;
    if key in s.runners {
      RunnerIsLive(s, key);
      ForgottenRunner(s.runners, key, slot);
      if s.runners[key].hostSlotKey != "" && a.queueSaved {
        var own := s.runners[key].hostSlotKey;
        var queued := Queue(s, key, own, a.queuedAt);
        SettleParts(s, key, a);
        SaveFrame(queued, true);
        var stored := Saved(queued, true).(runners := s.runners - {key});
        AttemptIsSafe(stored, stored.pending[own], a, slot);
      }
    }
  }

  lemma ForgottenRunner(runners: map<string, Runner>, key: string, slot: string)
    requires key in runners
    ensures slot in HeldSlots(runners) ==> slot in HeldSlots(runners - {key}) || slot == runners[key].hostSlotKey
    ensures slot in HeldSlots(runners - {key}) ==> slot in HeldSlots(runners)
  {
    var rest := runners - {key};
    if slot in HeldSlots(runners) && slot != runners[key].hostSlotKey {
      var k :| k in runners && runners[k].hostSlotKey == slot;
      assert rest[k].hostSlotKey == slot;
    }
    assert forall k :: k in rest ==> k in runners && runners[k] == rest[k];
  }

  lemma RunnerIsLive(s: Scaler, key: string)
    requires ScalerOk(s) && key in s.runners
    ensures key != "" && !s.runners[key].leaseReleased
  {
    hide PendingOk, Acceptable;
  }

  lemma ReleaseParts(s: Scaler, runnerKey: string, slot: string, a: Answers)
    requires ScalerOk(s) && runnerKey != "" && slot != ""
    ensures
      var stored := Saved(Queue(s, runnerKey, slot, a.queuedAt), a.queueSaved);
      && ScalerOk(stored) && slot in stored.pending && Complete(s.targetKey, stored.pending[slot])
      && stored.pending[slot].hostSlotKey == slot
      && stored == s.(pending := stored.pending, document := stored.document)
      && stored.pending.Keys == s.pending.Keys + {slot}
      && Slots(stored.document) == (if a.queueSaved then s.pending.Keys + {slot} else Slots(s.document))
      && ReleaseOrEnqueue(s, runnerKey, slot, a) == Attempt(stored, stored.pending[slot], a)
  {
    hide Acceptable, Slots, Attempt, RecordsOf, Complete;
    QueueOk(s, runnerKey, slot, a.queuedAt);
    SaveOk(Queue(s, runnerKey, slot, a.queuedAt), a.queueSaved);
    SaveFrame(Queue(s, runnerKey, slot, a.queuedAt), a.queueSaved);
  }

  lemma ReleaseOk(s: Scaler, runnerKey: string, slot: string, a: Answers)
    requires ScalerOk(s) && runnerKey != ""
    ensures ScalerOk(ReleaseOrEnqueue(s, runnerKey, slot, a)) && ReleaseOrEnqueue(s, runnerKey, slot, a).tracked == s.tracked
  {
    hide ScalerOk, Attempt, Saved, Slots, Complete;
    if slot != "" {
      ReleaseParts(s, runnerKey, slot, a);
      var stored := Saved(Queue(s, runnerKey, slot, a.queuedAt), a.queueSaved);
      AttemptOk(stored, stored.pending[slot], a);
    }
  }

  lemma ReleaseIsSafe(s: Scaler, runnerKey: string, own: string, a: Answers, slot: string)
    requires ScalerOk(s) && runnerKey != "" && Safe(s, slot)
    ensures Safe(ReleaseOrEnqueue(s, runnerKey, own, a), slot)
  {
    hide ScalerOk, Attempt, Saved, Slots, HeldSlots, WorkerSlots, Complete;
    if own != "" {
      ReleaseParts(s, runnerKey, own, a);
      var stored := Saved(Queue(s, runnerKey, own, a.queuedAt), a.queueSaved);
      AttemptIsSafe(stored, stored.pending[own], a, slot);
    }
  }

  // ---------------------------------------------------------------------
  // Retry rounds

  /** Some due record among the listed ones gets its result saved. */
  ghost predicate SavesResult(records: seq<CleanupRecord>, script: Script) {
    exists i :: 0 <= i < |records| && SavesOne(records[i], script)
  }

  predicate SavesOne(r: CleanupRecord, script: Script) {
    IsDue(r, AnswersFor(script, r.hostSlotKey).queuedAt) && AnswersFor(script, r.hostSlotKey).resultSaved
  }

  /** After a round over the listed records: what is pending, and what the document holds of an unlisted slot. */
  ghost predicate RoundOk(s: Scaler, records: seq<CleanupRecord>, script: Script, s': Scaler) {
    && ScalerOk(s')
    && s' == s.(pending := s'.pending, document := s'.document, released := s'.released)
    && s'.pending.Keys <= s.pending.Keys
    && s.pending.Keys - Slots(records) <= s'.pending.Keys
    && (SavesResult(records, script) ==> Slots(s'.document) <= s.pending.Keys)
    && (!SavesResult(records, script) ==> s'.document == s.document)
  }

  lemma {:induction false} RoundIsOk(s: Scaler, records: seq<CleanupRecord>, script: Script)
    requires ScalerOk(s) && Acceptable(s.targetKey, records) && Slots(records) <= s.pending.Keys
    ensures RoundOk(s, records, script, RetryEach(s, records, script))
  {
    hide ScalerOk, Attempt, Complete, SavesOne, IsDue, Slots;
    if records == [] {
      assert Slots(records) == {} by { NoSlots(); }
    } else {
      var front, r := records[..|records| - 1], records[|records| - 1];
      assert records == front + [r];
      SlotsGrow(front, r);
      LastIsNew(s.targetKey, front, r);
      RoundIsOk(s, front, script);
      RoundGrows(s, front, r, script);
    }
  }

  lemma NoSlots()
    ensures Slots([]) == {}
  {}

  lemma LastIsNew(targetKey: string, front: seq<CleanupRecord>, r: CleanupRecord)
    requires Acceptable(targetKey, front + [r])
    ensures Acceptable(targetKey, front) && Complete(targetKey, r) && r.hostSlotKey !in Slots(front)
  {
    var records := front + [r];
    assert records[|front|] == r;
    assert forall i :: 0 <= i < |front| ==> front[i] == records[i];
  }

  lemma RoundGrows(s: Scaler, front: seq<CleanupRecord>, r: CleanupRecord, script: Script)
    requires RoundOk(s, front, script, RetryEach(s, front, script)) && Complete(s.targetKey, r)
    requires r.hostSlotKey !in Slots(front) && r.hostSlotKey in s.pending
    ensures RoundOk(s, front + [r], script, RetryEach(s, front + [r], script))
  {
    hide ScalerOk, Attempt, Complete, IsDue, Slots, RecordsOf;
    var before := RetryEach(s, front, script);
    var a := AnswersFor(script, r.hostSlotKey);
    assert (front + [r])[..|front|] == front;
    SlotsGrow(front, r);
    SavesGrow(front, r, script);
    if IsDue(r, a.queuedAt) {
      AttemptOk(before, r, a);
      UnsavedAttempt(before, r, a);
    }
  }

  lemma UnsavedAttempt(s: Scaler, r: CleanupRecord, a: Answers)
    ensures !a.resultSaved ==> Attempt(s, r, a).document == s.document
  {}

  lemma SavesGrow(front: seq<CleanupRecord>, r: CleanupRecord, script: Script)
    ensures SavesResult(front + [r], script) <==> SavesResult(front, script) || SavesOne(r, script)
  {
    hide SavesOne;
    var records := front + [r];
    if SavesResult(front, script) {
      var i :| 0 <= i < |front| && SavesOne(front[i], script);
      assert records[i] == front[i];
    }
    assert records[|front|] == r;
  }

  lemma {:induction false} RoundIsSafe(s: Scaler, records: seq<CleanupRecord>, script: Script, slot: string)
    requires ScalerOk(s) && Acceptable(s.targetKey, records) && Slots(records) <= s.pending.Keys && Safe(s, slot)
    ensures Safe(RetryEach(s, records, script), slot)
  {
    hide ScalerOk, Attempt, Complete, IsDue, Slots, Safe;
    if records != [] {
      var front, r := records[..|records| - 1], records[|records| - 1];
      assert records == front + [r];
      SlotsGrow(front, r);
      LastIsNew(s.targetKey, front, r);
      RoundIsOk(s, front, script);
      RoundIsSafe(s, front, script, slot);
      if IsDue(r, AnswersFor(script, r.hostSlotKey).queuedAt) {
        AttemptIsSafe(RetryEach(s, front, script), r, AnswersFor(script, r.hostSlotKey), slot);
      }
    }
  }

  lemma RetryOk(s: Scaler, script: Script)
    requires ScalerOk(s)
    ensures RoundOk(s, RecordsOf(s.pending), script, Retry(s, script))
  {
    hide RecordsOf, RoundOk;
    WrittenSlots(s.targetKey, s.pending);
    RoundIsOk(s, RecordsOf(s.pending), script);
  }

  lemma RetryIsSafe(s: Scaler, script: Script, slot: string)
    requires ScalerOk(s) && Safe(s, slot)
    ensures Safe(Retry(s, script), slot)
  {
    hide RecordsOf, Safe;
    WrittenSlots(s.targetKey, s.pending);
    RoundIsSafe(s, RecordsOf(s.pending), script, slot);
  }

  // ---------------------------------------------------------------------
  // No lease is stranded unless an event strands it

  lemma RestartOk(s: Scaler, loads: bool)
    requires ScalerOk(s)
    ensures ScalerOk(Restart(s, loads))
    ensures Restart(s, loads).pending.Keys == if loads then Slots(s.document) else {}
  {
    LoadedSlots(s.targetKey, s.document);
  }

  lemma HoldIsSafe(s: Scaler, key: string, own: string, slot: string)
    requires key !in s.runners && (Safe(s, slot) || slot == own)
    ensures Safe(Hold(s, key, own), slot)
  {
    hide Slots, WorkerSlots;
    var s' := Hold(s, key, own);
    assert s'.runners[key].hostSlotKey == own;
    if slot in HeldSlots(s.runners) {
      var k :| k in s.runners && s.runners[k].hostSlotKey == slot;
      assert s'.runners[k].hostSlotKey == slot;
    }
  }

  lemma MoreWorkers(workers: map<string, string>, key: string, own: string, slot: string)
    requires key !in workers && slot in WorkerSlots(workers)
    ensures slot in WorkerSlots(workers[key := own])
  {
    var k :| k in workers && workers[k] == slot;
    assert workers[key := own][k] == slot;
  }

  lemma EventOk(s: Scaler, e: Event)
    requires ScalerOk(s) && Allowed(s, e)
    ensures ScalerOk(Next(s, e)) && s.tracked <= Next(s, e).tracked
  {
    hide Acceptable, PendingOk, Settle, ReleaseOrEnqueue, Retry, RecordsOf, Slots, Restart;
    match e
    case Tracks(_, _) =>
    case Recovers(_) =>
    case Stops(_) =>
    case Settles(key, a) => SettleOk(s, key, a);
    case Releases(key, slot, a) => ReleaseOk(s, key, slot, a);
    case Retries(script) => RetryOk(s, script);
    case Restarts(loads) => RestartOk(s, loads); RestartFrame(s, loads);
  }

  lemma RestartFrame(s: Scaler, loads: bool)
    ensures Restart(s, loads).tracked == s.tracked && Restart(s, loads).runners == map[]
  {}

  /** A safe slot stays safe exactly when the event does not strand it; a failed load is treated below. */
  lemma SafeStep(s: Scaler, e: Event, slot: string)
    requires ScalerOk(s) && Allowed(s, e) && e != Restarts(false) && slot != "" && Safe(s, slot)
    ensures Safe(Next(s, e), slot) <==> !Strands(s, e, slot)
  {
    hide ScalerOk, Settle, ReleaseOrEnqueue, Retry, Slots, HeldSlots, WorkerSlots, Hold;
    match e
    case Tracks(key, own) =>
      if slot in WorkerSlots(s.workers) { MoreWorkers(s.workers, key, own, slot); }
      HoldIsSafe(s.(workers := s.workers[key := own]), key, own, slot);
    case Recovers(key) => HoldIsSafe(s, key, s.workers[key], slot);
    case Stops(_) =>
    case Settles(key, a) => SettleIsSafe(s, key, a, slot);
    case Releases(key, own, a) => ReleaseIsSafe(s, key, own, a, slot);
    case Retries(script) => RetryIsSafe(s, script, slot);
    case Restarts(_) => RestartOk(s, true); NobodyHeld();
  }

  lemma NobodyHeld()
    ensures HeldSlots(map[]) == {}
  {}

  lemma NewlyTracked(s: Scaler, e: Event, slot: string)
    requires ScalerOk(s) && Allowed(s, e) && slot in Next(s, e).tracked && slot !in s.tracked
    ensures slot != "" && Safe(Next(s, e), slot)
  {
    hide ScalerOk, Settle, ReleaseOrEnqueue, Retry, Slots, WorkerSlots, RecordsOf, Restart;
    match e
    case Tracks(key, own) => assert Next(s, e).runners[key].hostSlotKey == own;
    case Recovers(key) => assert Next(s, e).runners[key].hostSlotKey == s.workers[key];
    case Stops(_) =>
    case Settles(key, a) => SettleOk(s, key, a);
    case Releases(key, own, a) => ReleaseOk(s, key, own, a);
    case Retries(script) => RetryOk(s, script);
    case Restarts(loads) => RestartFrame(s, loads);
  }

  datatype Run = Run(states: seq<Scaler>, events: seq<Event>)

  ghost predicate StepsTo(r: Run, i: nat)
    requires i < |r.events| && i + 1 < |r.states|
  {
    Allowed(r.states[i], r.events[i]) && r.states[i + 1] == Next(r.states[i], r.events[i])
  }

  ghost predicate ValidRun(r: Run) {
    && |r.states| == |r.events| + 1
    && r.states[0] == Scaler(r.states[0].targetKey, map[], map[], [], map[], {}, {})
    && forall i {:trigger StepsTo(r, i)} :: 0 <= i < |r.events| ==> StepsTo(r, i)
  }

  lemma {:induction false} EveryStateOk(r: Run, i: nat)
    requires ValidRun(r) && i <= |r.events|
    ensures ScalerOk(r.states[i]) && "" !in r.states[i].tracked
  {
    hide Next, Acceptable;
    if i == 0 {
      FreshScalerOk(r.states[0].targetKey);
    } else {
      EveryStateOk(r, i - 1);
      assert StepsTo(r, i - 1);
      EventOk(r.states[i - 1], r.events[i - 1]);
      if "" in r.states[i].tracked { NewlyTracked(r.states[i - 1], r.events[i - 1], ""); }
    }
  }

  lemma FreshScalerOk(targetKey: string)
    ensures ScalerOk(Scaler(targetKey, map[], map[], [], map[], {}, {}))
  {}

  /**
   For every pattern of failed saves, failed releases, stopping workers and restarts
   that load their document: a slot that a runner ever held and that no event
   stranded is held by a runner or a running worker, in the stored release
   document, or confirmed released.
   */
  lemma {:induction false} NoLeaseIsStranded(r: Run, i: nat, slot: string)
    requires ValidRun(r) && i <= |r.events| && slot in r.states[i].tracked
    requires forall j :: 0 <= j < i ==> r.events[j] != Restarts(false)
    requires forall j :: 0 <= j < i ==> !Strands(r.states[j], r.events[j], slot)
    ensures slot != "" && Safe(r.states[i], slot) && Accounted(r.states[i], slot)
  {
    hide Next, ScalerOk, Strands, HeldSlots, WorkerSlots, Slots;
    if i > 0 {
      EveryStateOk(r, i - 1);
      assert StepsTo(r, i - 1);
      if slot in r.states[i - 1].tracked {
        NoLeaseIsStranded(r, i - 1, slot);
        SafeStep(r.states[i - 1], r.events[i - 1], slot);
      } else {
        NewlyTracked(r.states[i - 1], r.events[i - 1], slot);
      }
    }
  }

  /** A restart that loads keeps a slot exactly when a running worker, the document or a release accounts for it. */
  lemma RestartKeepsExactly(s: Scaler, slot: string)
    requires ScalerOk(s)
    ensures Strands(s, Restarts(true), slot) ==> Lost(Restart(s, true), slot)
    ensures !Strands(s, Restarts(true), slot) ==> Safe(Restart(s, true), slot) && Accounted(Restart(s, true), slot)
  {
    hide Slots, WorkerSlots, Acceptable;
    RestartOk(s, true);
    NobodyHeld();
  }

  /** The event brings the slot up again: a launch with it, or a release of it. */
  predicate Names(e: Event, slot: string) {
    match e
    case Tracks(_, own) => own == slot
    case Releases(_, own, _) => own == slot
    case _ => false
  }

  lemma LostStep(s: Scaler, e: Event, slot: string)
    requires ScalerOk(s) && Allowed(s, e) && slot != "" && Lost(s, slot) && !Names(e, slot)
    ensures Lost(Next(s, e), slot)
  {
    hide ScalerOk, Settle, ReleaseOrEnqueue, Retry, Slots, Restart, Complete;
    match e
    case Tracks(_, _) =>
    case Recovers(key) => assert s.workers[key] in WorkerSlots(s.workers);
    case Stops(_) =>
    case Settles(key, a) => LostThroughSettle(s, key, a, slot);
    case Releases(key, own, a) => LostThroughRelease(s, key, own, a, slot);
    case Retries(script) => LostThroughRetry(s, script, slot);
    case Restarts(loads) => RestartOk(s, loads); NobodyHeld(); RestartParts(s, loads);
  }

  lemma RestartParts(s: Scaler, loads: bool)
    ensures
      var s' := Restart(s, loads);
      s'.runners == map[] && s'.workers == s.workers && s'.document == s.document && s'.released == s.released
  {}

  lemma LostThroughSettle(s: Scaler, key: string, a: Answers, slot: string)
    requires ScalerOk(s) && slot != "" && Lost(s, slot)
    ensures Lost(Settle(s, key, a), slot)
  {
    hide ScalerOk, Attempt, Slots, WorkerSlots, Saved, Complete, HeldSlots;
    if key in s.runners {
      RunnerIsLive(s, key);
      ForgottenRunner(s.runners, key, slot);
      var own := s.runners[key].hostSlotKey;
      assert own in HeldSlots(s.runners) by { HeldByKey(s.runners, key); }
      if own != "" && a.queueSaved {
        var queued := Queue(s, key, own, a.queuedAt);
        SettleParts(s, key, a);
        SaveFrame(queued, true);
        var stored := Saved(queued, true).(runners := s.runners - {key});
        AttemptOk(stored, stored.pending[own], a);
      }
    }
  }

  lemma HeldByKey(runners: map<string, Runner>, key: string)
    requires key in runners
    ensures runners[key].hostSlotKey in HeldSlots(runners)
  {}

  lemma LostThroughRelease(s: Scaler, runnerKey: string, own: string, a: Answers, slot: string)
    requires ScalerOk(s) && runnerKey != "" && own != slot && Lost(s, slot)
    ensures Lost(ReleaseOrEnqueue(s, runnerKey, own, a), slot)
  {
    hide ScalerOk, Attempt, Saved, Slots, HeldSlots, WorkerSlots, Complete;
    if own != "" {
      ReleaseParts(s, runnerKey, own, a);
      var stored := Saved(Queue(s, runnerKey, own, a.queuedAt), a.queueSaved);
      AttemptOk(stored, stored.pending[own], a);
    }
  }

  lemma LostThroughRetry(s: Scaler, script: Script, slot: string)
    requires ScalerOk(s) && Lost(s, slot)
    ensures Lost(Retry(s, script), slot)
  {
    hide ScalerOk, Retry, RecordsOf, Slots, HeldSlots, WorkerSlots, SavesResult;
    RetryOk(s, script);
    RetryReleases(s, script);
  }

  lemma RetryReleases(s: Scaler, script: Script)
    requires ScalerOk(s)
    ensures Retry(s, script).released <= s.released + s.pending.Keys
  {
    hide ScalerOk, RecordsOf;
    WrittenPending(s);
    RoundReleases(s, RecordsOf(s.pending), script);
  }

  lemma WrittenPending(s: Scaler)
    requires ScalerOk(s)
    ensures Slots(RecordsOf(s.pending)) == s.pending.Keys
  {
    hide RecordsOf, Acceptable;
    WrittenSlots(s.targetKey, s.pending);
  }

  lemma {:induction false} RoundReleases(s: Scaler, records: seq<CleanupRecord>, script: Script)
    ensures RetryEach(s, records, script).released <= s.released + Slots(records)
  {
    hide RecordsOf, IsDue, Slots;
    if records != [] {
      var front, r := records[..|records| - 1], records[|records| - 1];
      assert records == front + [r];
      SlotsGrow(front, r);
      RoundReleases(s, front, script);
    }
  }

  /** A stranded slot stays lost until a launch or a release names it again. */
  lemma {:induction false} LostUntilNamed(r: Run, i: nat, j: nat, slot: string)
    requires ValidRun(r) && i <= j <= |r.events| && slot != "" && Lost(r.states[i], slot)
    requires forall m :: i <= m < j ==> !Names(r.events[m], slot)
    ensures Lost(r.states[j], slot)
    decreases j
  {
    hide Next, ScalerOk, Lost;
    if i < j {
      LostUntilNamed(r, i, j - 1, slot);
      EveryStateOk(r, j - 1);
      assert StepsTo(r, j - 1);
      LostStep(r.states[j - 1], r.events[j - 1], slot);
    }
  }

  const REFUSED := Answers(0, false, false, 0, false)

  /**
   It happens: a launch, the worker stops, the write-ahead save fails, the process
   dies. The slot that the runner held is then lost although the document loads.
   */
  lemma FailedQueueingStrandsLease() returns (r: Run)
    ensures ValidRun(r) && r.events == [Tracks("a", "x"), Stops("a"), Settles("a", REFUSED), Restarts(true)]
    ensures "x" in r.states[4].tracked && Lost(r.states[4], "x")
  {
    hide RecordsOf, Acceptable;
    var s0 := Scaler("t", map[], map[], [], map[], {}, {});
    var s1 := Next(s0, Tracks("a", "x"));
    var s2 := Next(s1, Stops("a"));
    var s3 := Next(s2, Settles("a", REFUSED));
    var s4 := Next(s3, Restarts(true));
    assert "x"[0] == 'x';
    assert s2.workers == map[] && s3.workers == map[] && s3.document == [] && s3.released == {};
    assert Slots([]) == {} && HeldSlots(map[]) == {} && WorkerSlots(map[]) == {};
    r := Run([s0, s1, s2, s3, s4], [Tracks("a", "x"), Stops("a"), Settles("a", REFUSED), Restarts(true)]);
    assert StepsTo(r, 0) && StepsTo(r, 1) && StepsTo(r, 2) && StepsTo(r, 3);
  }

  // ---------------------------------------------------------------------
  // A failed load

  /** The event queues the slot's release. */
  ghost predicate Queues(s: Scaler, e: Event, slot: string) {
    match e
    case Settles(key, _) => key in s.runners && s.runners[key].hostSlotKey == slot
    case Releases(_, own, _) => own == slot
    case _ => false
  }

  /** The event saves the document successfully. */
  ghost predicate Writes(s: Scaler, e: Event) {
    match e
    case Settles(key, a) => key in s.runners && s.runners[key].hostSlotKey != "" && a.queueSaved
    case Releases(_, own, a) => own != "" && (a.queueSaved || a.resultSaved)
    case Retries(script) => SavesResult(RecordsOf(s.pending), script)
    case _ => false
  }

  /** A stored slot that is not pending survives an event exactly when the event writes nothing. */
  lemma UnqueuedStep(s: Scaler, e: Event, slot: string)
    requires ScalerOk(s) && Allowed(s, e) && !e.Restarts? && slot != "" && slot !in s.pending && !Queues(s, e, slot)
    ensures slot !in Next(s, e).pending
    ensures slot in Slots(Next(s, e).document) <==> slot in Slots(s.document) && !Writes(s, e)
  {
    hide ScalerOk, Settle, ReleaseOrEnqueue, Retry, Slots, RecordsOf, SavesResult;
    match e
    case Tracks(_, _) =>
    case Recovers(_) =>
    case Stops(_) =>
    case Settles(key, a) => UnqueuedSettle(s, key, a, slot);
    case Releases(key, own, a) => UnqueuedRelease(s, key, own, a, slot);
    case Retries(script) => RetryOk(s, script);
  }

  lemma UnqueuedSettle(s: Scaler, key: string, a: Answers, slot: string)
    requires ScalerOk(s) && slot !in s.pending && !Queues(s, Settles(key, a), slot)
    ensures slot !in Settle(s, key, a).pending
    ensures slot in Slots(Settle(s, key, a).document) <==> slot in Slots(s.document) && !Writes(s, Settles(key, a))
  {
    hide ScalerOk, Attempt, Slots, Saved, Complete;
    if key in s.runners {
      RunnerIsLive(s, key);
      var own := s.runners[key].hostSlotKey;
      if own != "" && a.queueSaved {
        SettleParts(s, key, a);
        SaveFrame(Queue(s, key, own, a.queuedAt), true);
        var stored := Saved(Queue(s, key, own, a.queuedAt), true).(runners := s.runners - {key});
        AttemptOk(stored, stored.pending[own], a);
      }
    }
  }

  lemma UnqueuedRelease(s: Scaler, key: string, own: string, a: Answers, slot: string)
    requires ScalerOk(s) && key != "" && slot !in s.pending && own != slot
    ensures slot !in ReleaseOrEnqueue(s, key, own, a).pending
    ensures
      slot in Slots(ReleaseOrEnqueue(s, key, own, a).document) <==>
        slot in Slots(s.document) && !Writes(s, Releases(key, own, a))
  {
    hide ScalerOk, Attempt, Slots, Saved, Complete;
    if own != "" {
      ReleaseParts(s, key, own, a);
      var stored := Saved(Queue(s, key, own, a.queuedAt), a.queueSaved);
      AttemptOk(stored, stored.pending[own], a);
    }
  }

  /**
   After a failed load, a recorded slot whose release is not queued again stays
   stored exactly as long as no save succeeds.
   */
  lemma {:induction false} FailedLoadKeepsExactly(r: Run, i: nat, j: nat, slot: string)
    requires ValidRun(r) && i < j <= |r.events| && r.events[i] == Restarts(false) && slot in Slots(r.states[i].document)
    requires forall m :: i < m < j ==> !r.events[m].Restarts? && !Queues(r.states[m], r.events[m], slot)
    ensures slot !in r.states[j].pending && slot != ""
    ensures slot in Slots(r.states[j].document) <==> forall m :: i < m < j ==> !Writes(r.states[m], r.events[m])
    decreases j
  {
    hide Next, ScalerOk, Writes, Queues, Slots;
    EveryStateOk(r, j - 1);
    assert StepsTo(r, j - 1);
    if j == i + 1 {
      FailedLoadForgets(r.states[i]);
      StoredSlotIsNamed(r.states[i], slot);
    } else {
      FailedLoadKeepsExactly(r, i, j - 1, slot);
      UnqueuedStep(r.states[j - 1], r.events[j - 1], slot);
    }
  }

  lemma FailedLoadForgets(s: Scaler)
    ensures Next(s, Restarts(false)).pending == map[] && Next(s, Restarts(false)).document == s.document
  {}

  lemma StoredSlotIsNamed(s: Scaler, slot: string)
    requires ScalerOk(s) && slot in Slots(s.document)
    ensures slot != ""
  {
    var i :| 0 <= i < |s.document| && s.document[i].hostSlotKey == slot;
    assert Complete(s.targetKey, s.document[i]);
  }

  /** A slot queued again with a successful write-ahead save is stored or released afterwards. */
  lemma QueuedAgainIsStored(s: Scaler, e: Event, slot: string)
    requires ScalerOk(s) && Allowed(s, e) && slot != "" && Queues(s, e, slot) && e.answers.queueSaved
    ensures slot in Slots(Next(s, e).document) || slot in Next(s, e).released
  {
    hide ScalerOk, Attempt, Slots, Saved, Complete;
    match e
    case Settles(key, a) =>
      RunnerIsLive(s, key);
      SettleParts(s, key, a);
      SaveFrame(Queue(s, key, slot, a.queuedAt), true);
      var stored := Saved(Queue(s, key, slot, a.queuedAt), true).(runners := s.runners - {key});
      AttemptOk(stored, stored.pending[slot], a);
    case Releases(key, _, a) =>
      ReleaseParts(s, key, slot, a);
      var stored := Saved(Queue(s, key, slot, a.queuedAt), a.queueSaved);
      AttemptOk(stored, stored.pending[slot], a);
  }

  /**
   One settlement is enough: after a failed load, the document that a settled and
   unreleased runner writes holds a formerly recorded slot only if it is that runner's.
   */
  lemma FailedLoadStrandsLease(s: Scaler, key: string, own: string, a: Answers, slot: string)
    requires ScalerOk(s) && slot in Slots(s.document) && key != "" && own != ""
    requires a.queueSaved && !a.released && a.resultSaved
    ensures
      var after := Settle(Track(Restart(s, false), key, own), key, a);
      slot in Slots(after.document) <==> slot == own
  {
    hide Acceptable, Attempt, Slots, Saved, Complete;
    RestartOk(s, false);
    var begun := Track(Restart(s, false), key, own);
    SettleParts(begun, key, a);
    SaveFrame(Queue(begun, key, own, a.queuedAt), true);
    var stored := Saved(Queue(begun, key, own, a.queuedAt), true).(runners := begun.runners - {key});
    AttemptOk(stored, stored.pending[own], a);
  }

  // ---------------------------------------------------------------------
  // The scaler as it runs

  class ReleaseStore {
    var records: seq<CleanupRecord>

    constructor ()
      ensures records == []
    {
      records := [];
    }

    method Save(next: seq<CleanupRecord>, succeeds: bool) returns (saved: bool)
      modifies this
      ensures saved == succeeds && records == if saved then next else old(records)
    {
      saved := succeeds;
      if saved { records := next; }
    }
  }

  class RunnerScaler {
    const targetKey: string
    const store: ReleaseStore
    var runners: map<string, Runner>
    var pending: Pending
    ghost var workers: map<string, string>
    ghost var tracked: set<string>
    ghost var released: set<string>

    ghost function View(): Scaler
      reads this, store
    {
      Scaler(targetKey, runners, pending, store.records, workers, tracked, released)
    }

    /** A new process: reloads the pending releases, or goes on without them when the load fails. */
    constructor (key: string, backing: ReleaseStore, readable: bool, ghost before: Scaler)
      requires before.targetKey == key && before.document == backing.records
      ensures store == backing
      ensures View() == Restart(before, readable && Acceptable(key, backing.records))
    {
      targetKey := key;
      store := backing;
      runners := map[];
      workers, tracked, released := before.workers, before.tracked, before.released;
      pending := map[];
      new;
      var ok := ParseDocument(key, backing.records);
      if readable && ok {
        for i := 0 to |store.records|
          invariant pending == Loaded(store.records[..i])
          invariant View() == Restart(before, false).(pending := pending)
        {
          assert store.records[..i + 1][..i] == store.records[..i];
          pending := pending[store.records[i].hostSlotKey := store.records[i]];
        }
        assert store.records[..|store.records|] == store.records;
      }
    }

    /** A launched worker's runner enters the map. */
    method AddRunner(key: string, slot: string)
      modifies this
      ensures View() == Track(old(View()), key, slot)
    {
      workers := workers[key := slot];
      RecoverRunner(key, slot);
    }

    /** The runner of a worker that is running already enters the map. */
    method RecoverRunner(key: string, slot: string)
      modifies this
      ensures View() == Hold(old(View()), key, slot)
    {
      runners := runners[key := Runner(slot, false)];
      if slot != "" { tracked := tracked + {slot}; }
      released := released - {slot};
    }

    method OrderedRecords() returns (records: seq<CleanupRecord>)
      ensures records == RecordsOf(pending)
    {
      hide RecordsOf, SortedView, StrictlySorted, Elements;
      var keys := SortStrings(pending.Keys);
      ghost var all := RecordsOf(pending);
      SameLength(pending);
      records := [];
      for i := 0 to |keys|
        invariant records == all[..i]
      {
        RecordAt(pending, i);
        assert all[..i + 1] == all[..i] + [all[i]];
        records := records + [pending[keys[i]]];
      }
      assert all[..|keys|] == all;
    }

    method Persist(succeeds: bool) returns (saved: bool)
      modifies store
      ensures saved == succeeds && View() == Saved(old(View()), succeeds)
    {
      var records := OrderedRecords();
      saved := store.Save(records, succeeds);
    }

    method AttemptRelease(record: CleanupRecord, a: Answers)
      modifies this, store
      ensures View() == Attempt(old(View()), record, a)
    {
      hide RecordsOf;
      var slot := record.hostSlotKey;
      if !a.released {
        var current := if slot in pending then pending[slot] else record;
        pending := pending[slot := Failed(current, a.triedAt)];
        var saved := Persist(a.resultSaved);
      } else {
        var known := slot in pending;
        released := released + {slot};
        pending := pending - {slot};
        if known { var saved := Persist(a.resultSaved); }
      }
    }

    method SettleStoppedRunner(key: string, a: Answers)
      modifies this, store
      ensures View() == Settle(old(View()), key, a)
    {
      hide RecordsOf, Attempt;
      if key !in runners { return; }
      var slot := runners[key].hostSlotKey;
      if slot == "" || runners[key].leaseReleased {
        runners := runners - {key};
        return;
      }
      var record := Queued(targetKey, pending, key, slot, a.queuedAt);
      pending := pending[slot := record];
      var saved := Persist(a.queueSaved);
      if !saved { return; }
      runners := runners - {key};
      AttemptRelease(record, a);
    }

    method ReleaseHostLease(runnerKey: string, slot: string, a: Answers)
      modifies this, store
      ensures View() == ReleaseOrEnqueue(old(View()), runnerKey, slot, a)
    {
      hide RecordsOf, Attempt;
      if slot == "" { return; }
      var record := Queued(targetKey, pending, runnerKey, slot, a.queuedAt);
      pending := pending[slot := record];
      var saved := Persist(a.queueSaved);
      AttemptRelease(record, a);
    }

    method RetryPendingReleases(script: Script)
      modifies this, store
      ensures View() == Retry(old(View()), script)
    {
      hide RecordsOf, Attempt;
      var records := OrderedRecords();
      ghost var before := View();
      for i := 0 to |records|
        invariant View() == RetryEach(before, records[..i], script)
      {
        assert records[..i + 1][..i] == records[..i];
        var a := AnswersFor(script, records[i].hostSlotKey);
        if IsDue(records[i], a.queuedAt) { AttemptRelease(records[i], a); }
      }
      assert records[..|records|] == records;
    }
  }
}
