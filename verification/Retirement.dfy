/**
 The desired-state transition and the retirement of targets that leave it. Two
 files change in a fixed order: the retirement intents first, then the last valid
 state, then the intents once more without the targets that are desired again. A
 crash at any point equals the remaining writes failing, followed by a restart.
 */
module Retirement {
  import opened FairShare
  import opened Policy
  import opened Backoff

  const MAX_ATTEMPTS: nat := 1000

  const STARTUP_RETRY_BASE: int := MINUTE

  const STARTUP_RETRY_MAXIMUM: int := 15 * MINUTE

  /** A runner target as the desired state describes it. */
  datatype Target = Target(registrationUrl: string, repository: string, maximum: nat, scaleSetName: string)

  datatype Desired = Desired(generation: nat, targets: map<string, Target>)

  datatype Record = Record(
    target: Target,
    retireAtGeneration: nat,
    startupAttempts: nat,
    startupRetryAt: Option<int>)

  type Records = map<string, Record>

  datatype Document = Document(generation: nat, records: Records)

  /**
   The two files. While a manager runs, its memory agrees with them, because every
   change is written before it is adopted. `accepted` holds every target of any
   accepted state, `finalised` those whose retirement completed since.
   */
  datatype Manager = Manager(
    lastValid: Option<Desired>,
    document: Option<Document>,
    accepted: set<string>,
    finalised: set<string>)

  function RecordsIn(m: Manager): Records {
    if m.document.Some? then m.document.value.records else map[]
  }

  function GenerationIn(m: Manager): nat {
    if m.document.Some? then m.document.value.generation else 0
  }

  function TargetsIn(m: Manager): map<string, Target> {
    if m.lastValid.Some? then m.lastValid.value.targets else map[]
  }

  function RecordFor(target: Target, generation: nat): Record {
    Record(target, generation, 0, None)
  }

  /** A usable target: the parsers never produce one with an empty key, URL or scale set name. */
  predicate WellFormed(key: string, t: Target) {
    key != "" && t.registrationUrl != "" && t.scaleSetName != ""
  }

  ghost predicate ValidDesired(d: Desired) {
    d.generation >= 1 && forall k {:trigger d.targets[k]} :: k in d.targets ==> WellFormed(k, d.targets[k])
  }

  // ---------------------------------------------------------------------
  // Steps

  /** Existing intents, and new ones for the targets that leave. */
  function WithNewRetirements(records: Records, previous: map<string, Target>, next: Desired): Records {
    map k | k in records.Keys + (previous.Keys - next.targets.Keys) ::
      if k in records then records[k] else RecordFor(previous[k], next.generation)
  }

  function Persist(m: Manager, generation: nat, records: Records, saved: bool): Manager {
    if saved then m.(document := Some(Document(generation, records))) else m
  }

  /** Drops intents of targets that are desired again; writes only when something changes. */
  function EnsureCurrent(m: Manager, saved: bool): Manager {
    if m.lastValid.None? then m else
      var records := RecordsIn(m) - m.lastValid.value.targets.Keys;
      if GenerationIn(m) >= m.lastValid.value.generation && |records| == |RecordsIn(m)| then m
      else Persist(m, m.lastValid.value.generation, records, saved)
  }

  /** Which writes of a transition reach the disk before it fails or crashes. */
  datatype Writes = Writes(intents: bool, lastValid: bool, tidy: bool)

  function Accept(m: Manager, next: Desired, w: Writes): Manager {
    if m.lastValid.Some? && next.generation <= m.lastValid.value.generation then m
    else if !w.intents then m
    else
      var recorded := Persist(m, next.generation, WithNewRetirements(RecordsIn(m), TargetsIn(m), next), true);
      if !w.lastValid then recorded
      else
        EnsureCurrent(recorded.(lastValid := Some(next),
                                accepted := m.accepted + next.targets.Keys,
                                finalised := m.finalised - next.targets.Keys), w.tidy)
  }

  /** A retirement is under way for targets whose intent has come into force and that are not desired. */
  predicate Retiring(m: Manager, key: string) {
    && m.lastValid.Some? && key in RecordsIn(m)
    && RecordsIn(m)[key].retireAtGeneration <= m.lastValid.value.generation
    && key !in m.lastValid.value.targets
  }

  predicate StartupDue(r: Record, now: int) {
    r.startupRetryAt.None? || now >= r.startupRetryAt.value
  }

  function Paced(r: Record, now: int): Record {
    var attempts: nat := Min(r.startupAttempts + 1, MAX_ATTEMPTS);
    r.(startupAttempts := attempts,
       startupRetryAt := Some(WholeSeconds(now + Delay(STARTUP_RETRY_BASE, STARTUP_RETRY_MAXIMUM, attempts))))
  }

  /** Commits the pacing of a start-up attempt before the attempt. */
  function PrepareStartup(m: Manager, key: string, now: int, saved: bool): Manager {
    if !Retiring(m, key) || !StartupDue(RecordsIn(m)[key], now) then m
    else Persist(m, m.lastValid.value.generation, RecordsIn(m)[key := Paced(RecordsIn(m)[key], now)], saved)
  }

  /** A start-up attempt succeeded: pacing starts over. */
  function MarkStarted(m: Manager, key: string, saved: bool): Manager {
    if !Retiring(m, key) then m
    else
      Persist(m, m.lastValid.value.generation,
              RecordsIn(m)[key := RecordsIn(m)[key].(startupAttempts := 0, startupRetryAt := None)], saved)
  }

  /** The retirement is complete: its intent goes, and the target counts as finalised once that is saved. */
  function Finalise(m: Manager, key: string, saved: bool): Manager {
    if !Retiring(m, key) || !saved then m
    else Persist(m, m.lastValid.value.generation, RecordsIn(m) - {key}, true).(finalised := m.finalised + {key})
  }

  datatype Event =
    | Accepts(next: Desired, writes: Writes)
    | Tidies(saved: bool)
    | Prepares(key: string, now: int, saved: bool)
    | Starts(key: string, saved: bool)
    | Finalises(key: string, saved: bool)

  function Next(m: Manager, e: Event): Manager {
    match e
    case Accepts(next, writes) => Accept(m, next, writes)
    case Tidies(saved) => EnsureCurrent(m, saved)
    case Prepares(key, now, saved) => PrepareStartup(m, key, now, saved)
    case Starts(key, saved) => MarkStarted(m, key, saved)
    case Finalises(key, saved) => Finalise(m, key, saved)
  }

  // ---------------------------------------------------------------------
  // No target is lost

  ghost predicate Accounted(m: Manager, key: string) {
    key in TargetsIn(m) || key in RecordsIn(m) || key in m.finalised
  }

  ghost predicate NothingLost(m: Manager) {
    && (forall k {:trigger Accounted(m, k)} :: k in m.accepted ==> Accounted(m, k))
    && m.finalised !! TargetsIn(m).Keys
    && TargetsIn(m).Keys <= m.accepted
  }

  lemma EnsureLosesNothing(m: Manager, saved: bool)
    requires NothingLost(m)
    ensures NothingLost(EnsureCurrent(m, saved))
  {
    forall k | k in m.accepted ensures Accounted(EnsureCurrent(m, saved), k) { assert Accounted(m, k); }
  }

  /** Between the two writes of a transition every old and new target is covered. */
  lemma AcceptLosesNothing(m: Manager, next: Desired, w: Writes)
    requires NothingLost(m)
    ensures NothingLost(Accept(m, next, w))
  {
    hide EnsureCurrent;
    if !(m.lastValid.Some? && next.generation <= m.lastValid.value.generation) && w.intents {
      var recorded := Persist(m, next.generation, WithNewRetirements(RecordsIn(m), TargetsIn(m), next), true);
      forall k | k in m.accepted ensures Accounted(recorded, k) { assert Accounted(m, k); }
      if w.lastValid {
        var moved := recorded.(lastValid := Some(next), accepted := m.accepted + next.targets.Keys,
                               finalised := m.finalised - next.targets.Keys);
        forall k | k in moved.accepted ensures Accounted(moved, k) {
          if k !in next.targets { assert Accounted(m, k); }
        }
        EnsureLosesNothing(moved, w.tidy);
      }
    }
  }

  lemma StepLosesNothing(m: Manager, e: Event)
    requires NothingLost(m)
    ensures NothingLost(Next(m, e))
  {
    hide Delay;
    match e
    case Accepts(next, writes) => AcceptLosesNothing(m, next, writes);
    case Tidies(saved) => EnsureLosesNothing(m, saved);
    case Prepares(_, _, _) => forall k | k in m.accepted ensures Accounted(Next(m, e), k) { assert Accounted(m, k); }
    case Starts(_, _) => forall k | k in m.accepted ensures Accounted(Next(m, e), k) { assert Accounted(m, k); }
    case Finalises(_, _) => forall k | k in m.accepted ensures Accounted(Next(m, e), k) { assert Accounted(m, k); }
  }

  datatype Run = Run(states: seq<Manager>, events: seq<Event>)

  ghost predicate StepsTo(r: Run, i: nat)
    requires i < |r.events| && i + 1 < |r.states|
  {
    && r.states[i + 1] == Next(r.states[i], r.events[i])
    && (r.events[i].Accepts? ==> ValidDesired(r.events[i].next))
  }

  /** Crashes need no event of their own: the files are the state, and memory is a copy of them. */
  ghost predicate ValidRun(r: Run) {
    && |r.states| == |r.events| + 1
    && r.states[0] == Manager(None, None, {}, {})
    && forall i {:trigger StepsTo(r, i)} :: 0 <= i < |r.events| ==> StepsTo(r, i)
  }

  /**
   At every crash point of every run, each target of any accepted state is in the
   stored last valid state, has a stored retirement record, or has been finalised;
   and no target that is desired counts as finalised.
   */
  lemma {:induction false} NoTargetIsLost(r: Run, i: nat)
    requires ValidRun(r) && i <= |r.events|
    ensures NothingLost(r.states[i])
  {
    hide Next;
    if i > 0 {
      NoTargetIsLost(r, i - 1);
      assert StepsTo(r, i - 1);
      StepLosesNothing(r.states[i - 1], r.events[i - 1]);
    }
  }

  // ---------------------------------------------------------------------
  // When a restart accepts the stored intents

  predicate RecordAccepted(key: string, r: Record) {
    && WellFormed(key, r.target) && r.target.maximum >= 1 && r.retireAtGeneration >= 1
    && r.startupAttempts <= MAX_ATTEMPTS && (r.startupAttempts == 0 <==> r.startupRetryAt.None?)
  }

  ghost predicate AllAccepted(records: Records) {
    forall k {:trigger records[k]} :: k in records ==> RecordAccepted(k, records[k])
  }

  /** What a start demands of the stored intents. */
  ghost predicate Reloads(m: Manager) {
    AllAccepted(RecordsIn(m))
  }

  /** Everything a start demands except the positive maximum. */
  predicate Sound(key: string, r: Record) {
    && WellFormed(key, r.target) && r.retireAtGeneration >= 1
    && r.startupAttempts <= MAX_ATTEMPTS && (r.startupAttempts == 0 <==> r.startupRetryAt.None?)
  }

  ghost predicate AllSound(records: Records) {
    forall k {:trigger records[k]} :: k in records ==> Sound(k, records[k])
  }

  ghost predicate FilesSound(m: Manager) {
    && AllSound(RecordsIn(m))
    && (m.lastValid.Some? ==> ValidDesired(m.lastValid.value))
  }

  lemma NewRetirementsSound(records: Records, previous: map<string, Target>, next: Desired)
    requires AllSound(records) && next.generation >= 1
    requires forall k {:trigger previous[k]} :: k in previous ==> WellFormed(k, previous[k])
    ensures AllSound(WithNewRetirements(records, previous, next))
  {}

  lemma StepKeepsFilesSound(m: Manager, e: Event)
    requires FilesSound(m) && (e.Accepts? ==> ValidDesired(e.next))
    ensures FilesSound(Next(m, e))
  {
    hide Delay, WithNewRetirements;
    if e.Accepts? { NewRetirementsSound(RecordsIn(m), TargetsIn(m), e.next); }
  }

  lemma {:induction false} EveryRecordSound(r: Run, i: nat)
    requires ValidRun(r) && i <= |r.events|
    ensures FilesSound(r.states[i])
  {
    hide Next;
    if i > 0 {
      EveryRecordSound(r, i - 1);
      assert StepsTo(r, i - 1);
      StepKeepsFilesSound(r.states[i - 1], r.events[i - 1]);
    }
  }

  /** At any moment of a run, a start accepts the stored intents exactly when none has maximum zero. */
  lemma ReloadsExactlyWithPositiveMaxima(r: Run, i: nat)
    requires ValidRun(r) && i <= |r.events|
    ensures
      Reloads(r.states[i]) <==>
        forall k {:trigger RecordsIn(r.states[i])[k]} :: k in RecordsIn(r.states[i]) ==> RecordsIn(r.states[i])[k].target.maximum >= 1
  {
    EveryRecordSound(r, i);
    var records := RecordsIn(r.states[i]);
    forall k | k in records ensures Sound(k, records[k]) {}
  }

  ghost predicate PositiveMaxima(d: Desired) {
    forall k {:trigger d.targets[k]} :: k in d.targets ==> d.targets[k].maximum >= 1
  }

  ghost predicate FilesPositive(m: Manager) {
    && (forall k {:trigger RecordsIn(m)[k]} :: k in RecordsIn(m) ==> RecordsIn(m)[k].target.maximum >= 1)
    && (m.lastValid.Some? ==> PositiveMaxima(m.lastValid.value))
  }

  lemma StepKeepsPositive(m: Manager, e: Event)
    requires FilesPositive(m) && (e.Accepts? ==> PositiveMaxima(e.next))
    ensures FilesPositive(Next(m, e))
  {
    hide Delay, WithNewRetirements;
    if e.Accepts? { NewRetirementsPositive(RecordsIn(m), TargetsIn(m), e.next); }
  }

  lemma NewRetirementsPositive(records: Records, previous: map<string, Target>, next: Desired)
    requires forall k {:trigger records[k]} :: k in records ==> records[k].target.maximum >= 1
    requires forall k {:trigger previous[k]} :: k in previous ==> previous[k].maximum >= 1
    ensures
      var all := WithNewRetirements(records, previous, next);
      forall k {:trigger all[k]} :: k in all ==> all[k].target.maximum >= 1
  {}

  /** When every accepted target has a positive maximum, every restart accepts the intents. */
  lemma {:induction false} PositiveMaximaAlwaysReload(r: Run, i: nat)
    requires ValidRun(r) && i <= |r.events|
    requires forall j :: 0 <= j < i && r.events[j].Accepts? ==> PositiveMaxima(r.events[j].next)
    ensures FilesPositive(r.states[i]) && Reloads(r.states[i])
  {
    hide Next;
    if i > 0 {
      PositiveMaximaAlwaysReload(r, i - 1);
      assert StepsTo(r, i - 1);
      StepKeepsPositive(r.states[i - 1], r.events[i - 1]);
    }
    ReloadsExactlyWithPositiveMaxima(r, i);
  }

  /** A target with maximum zero that leaves the desired state leaves an intent that no restart accepts. */
  lemma ZeroMaximumBlocksRestart(m: Manager, next: Desired, w: Writes, k: string)
    requires m.lastValid.Some? && next.generation > m.lastValid.value.generation && w.intents
    requires k in TargetsIn(m) && TargetsIn(m)[k].maximum == 0 && k !in next.targets && k !in RecordsIn(m)
    ensures !Reloads(Accept(m, next, w))
  {
    var m' := Accept(m, next, w);
    assert k in RecordsIn(m') && RecordsIn(m')[k].target.maximum == 0;
  }

  const IDLE := Desired(1, map["r" := Target("https://github.com/o/r", "r", 0, "set")])

  const OTHER := Desired(2, map["k" := Target("https://github.com/o/k", "k", 1, "kept")])

  /** It happens from a fresh start: accept one target with maximum zero, then another state without it. */
  lemma ZeroMaximumBlocksFreshRestart()
    ensures ValidDesired(IDLE) && ValidDesired(OTHER)
    ensures
      var all := Writes(true, true, true);
      !Reloads(Accept(Accept(Manager(None, None, {}, {}), IDLE, all), OTHER, all))
  {
    hide Accept, Reloads;
    var all := Writes(true, true, true);
    assert "r"[0] == 'r' && "k"[0] == 'k';
    FirstAcceptance(IDLE);
    ZeroMaximumBlocksRestart(Accept(Manager(None, None, {}, {}), IDLE, all), OTHER, all, "r");
  }

  lemma FirstAcceptance(d: Desired)
    ensures
      var m := Accept(Manager(None, None, {}, {}), d, Writes(true, true, true));
      m.lastValid == Some(d) && RecordsIn(m) == map[]
  {}

  // ---------------------------------------------------------------------
  // The manager as it runs

  class StateFiles {
    var lastValid: Option<Desired>
    var retirements: Option<Document>

    constructor ()
      ensures lastValid.None? && retirements.None?
    {
      lastValid, retirements := None, None;
    }
  }

  class AutoscalerManager {
    const files: StateFiles
    var current: Option<Desired>
    var retirementRecords: Records
    var retirementGeneration: nat
    ghost var accepted: set<string>
    ghost var finalised: set<string>

    ghost function View(): Manager
      reads this, files
    {
      Manager(files.lastValid, files.retirements, accepted, finalised)
    }

    /** Memory is a copy of the files. */
    ghost predicate Valid()
      reads this, files
    {
      && current == files.lastValid
      && retirementRecords == RecordsIn(View())
      && retirementGeneration == GenerationIn(View())
    }

    constructor (stored: StateFiles, ghost before: Manager)
      requires before.lastValid == stored.lastValid && before.document == stored.retirements
      ensures files == stored && View() == before && Valid()
    {
      files := stored;
      current := stored.lastValid;
      retirementRecords := if stored.retirements.Some? then stored.retirements.value.records else map[];
      retirementGeneration := if stored.retirements.Some? then stored.retirements.value.generation else 0;
      accepted, finalised := before.accepted, before.finalised;
    }

    /** Start-up: a manager runs exactly when the stored intents are acceptable. */
    static method Start(stored: StateFiles, ghost before: Manager) returns (r: Option<AutoscalerManager>)
      requires before.lastValid == stored.lastValid && before.document == stored.retirements
      ensures r.Some? <==> Reloads(before)
      ensures r.Some? ==> fresh(r.value) && r.value.files == stored && r.value.View() == before && r.value.Valid()
    {
      if stored.retirements.Some? {
        var ok := ParseRecords(stored.retirements.value.records);
        if !ok { return None; }
      }
      var m := new AutoscalerManager(stored, before);
      r := Some(m);
    }

    method PersistRetirements(generation: nat, records: Records, saved: bool)
      requires Valid()
      modifies this, files
      ensures Valid() && View() == Persist(old(View()), generation, records, saved)
    {
      if saved {
        files.retirements := Some(Document(generation, records));
        retirementRecords, retirementGeneration := records, generation;
      }
    }

    method EnsureRetirementStateCurrent(saved: bool)
      requires Valid()
      modifies this, files
      ensures Valid() && View() == EnsureCurrent(old(View()), saved)
    {
      if current.None? { return; }
      var records := Retained(retirementRecords, current.value.targets.Keys);
      if retirementGeneration >= current.value.generation && |records| == |retirementRecords| { return; }
      PersistRetirements(current.value.generation, records, saved);
    }

    method AcceptDesiredTransition(next: Desired, w: Writes)
      requires Valid()
      modifies this, files
      ensures Valid() && View() == Accept(old(View()), next, w)
    {
      if current.Some? && next.generation <= current.value.generation { return; }
      var previous := if current.Some? then current.value.targets else map[];
      var records := RecordsWithNewRetirements(retirementRecords, previous, next);
      if !w.intents { return; }
      PersistRetirements(next.generation, records, true);
      if !w.lastValid { return; }
      files.lastValid := Some(next);
      accepted, finalised := accepted + next.targets.Keys, finalised - next.targets.Keys;
      current := Some(next);
      EnsureRetirementStateCurrent(w.tidy);
    }

    method PrepareRetirementStartup(key: string, now: int, saved: bool)
      requires Valid() && Retiring(View(), key)
      modifies this, files
      ensures Valid() && View() == PrepareStartup(old(View()), key, now, saved)
    {
      var record := retirementRecords[key];
      if record.startupRetryAt.Some? && now < record.startupRetryAt.value { return; }
      var attempts: nat := Min(record.startupAttempts + 1, MAX_ATTEMPTS);
      var delay, _ := BoundedExponentialBackoff(STARTUP_RETRY_BASE, STARTUP_RETRY_MAXIMUM, attempts);
      record := record.(startupAttempts := attempts, startupRetryAt := Some(WholeSeconds(now + delay)));
      PersistRetirements(current.value.generation, retirementRecords[key := record], saved);
    }

    method MarkRetirementStarted(key: string, saved: bool)
      requires Valid() && Retiring(View(), key)
      modifies this, files
      ensures Valid() && View() == MarkStarted(old(View()), key, saved)
    {
      var record := retirementRecords[key].(startupAttempts := 0, startupRetryAt := None);
      PersistRetirements(current.value.generation, retirementRecords[key := record], saved);
    }

    method FinaliseRetirement(key: string, saved: bool)
      requires Valid() && Retiring(View(), key)
      modifies this, files
      ensures Valid() && View() == Finalise(old(View()), key, saved)
    {
      PersistRetirements(current.value.generation, retirementRecords - {key}, saved);
      if saved { finalised := finalised + {key}; }
    }
  }

  /** Drops the records of the given keys one by one. */
  method Retained(records: Records, keys: set<string>) returns (kept: Records)
    ensures kept == records - keys
  {
    kept := records;
    var rest := keys;
    while rest != {}
      invariant rest <= keys && kept == records - (keys - rest)
      decreases rest
    {
      var k :| k in rest;
      kept := kept - {k};
      rest := rest - {k};
    }
  }

  /** Adds an intent for every target of the previous state that the next one no longer has. */
  method RecordsWithNewRetirements(records: Records, previous: map<string, Target>, next: Desired) returns (r: Records)
    ensures r == WithNewRetirements(records, previous, next)
  {
    r := records;
    var rest := previous.Keys;
    while rest != {}
      invariant rest <= previous.Keys
      invariant r == WithNewRetirements(records, previous - rest, next)
      decreases rest
    {
      var k :| k in rest;
      OneMoreRetirement(records, previous, rest, next, k);
      if k !in next.targets && k !in r { r := r[k := RecordFor(previous[k], next.generation)]; }
      rest := rest - {k};
    }
    assert previous - rest == previous;
  }

  lemma OneMoreRetirement(records: Records, previous: map<string, Target>, rest: set<string>, next: Desired, k: string)
    requires k in rest && k in previous
    ensures
      var r := WithNewRetirements(records, previous - rest, next);
      WithNewRetirements(records, previous - (rest - {k}), next) ==
        if k !in next.targets && k !in r then r[k := RecordFor(previous[k], next.generation)] else r
  {}

  /** The check of the stored intents at start-up. */
  method ParseRecords(records: Records) returns (ok: bool)
    ensures ok <==> AllAccepted(records)
  {
    var rest := records.Keys;
    while rest != {}
      invariant rest <= records.Keys
      invariant forall k {:trigger records[k]} :: k in records && k !in rest ==> RecordAccepted(k, records[k])
      decreases rest
    {
      var k :| k in rest;
      if !RecordAccepted(k, records[k]) { return false; }
      rest := rest - {k};
    }
    ok := true;
  }
}
