/**
 The bounded operation journal. Repeated failures of one scope coalesce into one
 entry, and the oldest entries are evicted, yet the journal answers "is the latest
 recovery failure unresolved" exactly as the complete history would.
 */
module Journals {
  import opened FairShare
  import opened Policy

  const CAPACITY: nat := 64

  const MAX_OCCURRENCES: nat := 2_147_483_647

  const RECOVERY := "recovery"

  datatype OutcomeKind = Succeeded | FailedOutcome | TimedOut | Blocked | Retrying | RecoveredOutcome | UnknownResult

  datatype Observation = Observation(
    subsystem: string,
    operation: string,
    target: Option<string>,
    outcome: OutcomeKind,
    reason: string)

  datatype Entry = Entry(sequence: nat, occurrences: nat, what: Observation)

  /**
   The journal. `evictedOccurrences` and `onlySingles` remember how many occurrences
   the evicted entries stood for and whether each stood for just one.
   */
  datatype Journal = Journal(
    entries: seq<Entry>,
    highest: nat,
    evicted: nat,
    evictedOccurrences: nat,
    onlySingles: bool)

  const BLANK := Journal([], 0, 0, 0, true)

  predicate Coalescible(outcome: OutcomeKind) {
    !outcome.Succeeded? && !outcome.RecoveredOutcome?
  }

  predicate SameScope(a: Observation, b: Observation) {
    a.subsystem == b.subsystem && a.operation == b.operation && a.target == b.target
  }

  /** The last entry of the same scope, or -1. */
  function LastInScope(entries: seq<Entry>, what: Observation): (i: int)
    ensures -1 <= i < |entries|
    ensures i >= 0 ==> SameScope(entries[i].what, what)
    ensures forall j :: i < j < |entries| ==> !SameScope(entries[j].what, what)
  {
    if entries == [] then -1
    else if SameScope(entries[|entries| - 1].what, what) then |entries| - 1
    else LastInScope(entries[..|entries| - 1], what)
  }

  /** The entry a new event merges with: the last of its scope, if outcome and reason agree. */
  function CoalescibleIndex(entries: seq<Entry>, what: Observation): (i: int)
    ensures -1 <= i < |entries|
    ensures i >= 0 ==> SameScope(entries[i].what, what) && entries[i].what.outcome == what.outcome
  {
    var i := LastInScope(entries, what);
    if Coalescible(what.outcome) && i >= 0 && entries[i].what.outcome == what.outcome && entries[i].what.reason == what.reason
    then i else -1
  }

  /** The saturating sum of two counts. */
  function OccurrenceSum(left: nat, right: nat): (sum: nat)
    ensures sum == Min(left + right, MAX_OCCURRENCES)
  {
    if left >= MAX_OCCURRENCES || right >= MAX_OCCURRENCES - left then MAX_OCCURRENCES else left + right
  }

  function Cut<T>(s: seq<T>, i: nat): seq<T>
    requires i < |s|
  {
    s[..i] + s[i + 1..]
  }

  function Coalesce(entries: seq<Entry>, e: Entry): seq<Entry> {
    var i := CoalescibleIndex(entries, e.what);
    if i < 0 then entries + [e]
    else Cut(entries, i) + [e.(occurrences := OccurrenceSum(entries[i].occurrences, e.occurrences))]
  }

  // ---------------------------------------------------------------------
  // The verdict

  predicate FailsRecovery(w: Observation) {
    w.subsystem == RECOVERY && (w.outcome.Blocked? || w.outcome.FailedOutcome? || w.outcome.TimedOut? || w.outcome.Retrying?)
  }

  predicate Decisive(w: Observation) {
    FailsRecovery(w) || (w.subsystem == RECOVERY && w.outcome.RecoveredOutcome?)
  }

  /** Index of the unresolved recovery failure, or -1. */
  function UnresolvedIndex(entries: seq<Entry>): (i: int)
    ensures -1 <= i < |entries|
    ensures i >= 0 ==> FailsRecovery(entries[i].what)
    ensures i >= 0 ==> forall j :: i < j < |entries| ==> !Decisive(entries[j].what)
  {
    if entries == [] then -1
    else if Decisive(entries[|entries| - 1].what)
    then if FailsRecovery(entries[|entries| - 1].what) then |entries| - 1 else -1
    else UnresolvedIndex(entries[..|entries| - 1])
  }

  /** The same question about a complete history: the last decisive observation is a failure. */
  function Unresolved(history: seq<Observation>): bool {
    if history == [] then false
    else if Decisive(history[|history| - 1]) then FailsRecovery(history[|history| - 1])
    else Unresolved(history[..|history| - 1])
  }

  function Whats(entries: seq<Entry>): (r: seq<Observation>)
    ensures |r| == |entries|
  {
    seq(|entries|, i requires 0 <= i < |entries| => entries[i].what)
  }

  lemma {:induction false} IndexIsVerdict(entries: seq<Entry>)
    ensures UnresolvedIndex(entries) >= 0 <==> Unresolved(Whats(entries))
  {
    if entries != [] {
      IndexIsVerdict(entries[..|entries| - 1]);
      assert Whats(entries)[..|entries| - 1] == Whats(entries[..|entries| - 1]);
    }
  }

  lemma UnresolvedAppend(history: seq<Observation>, w: Observation)
    ensures Unresolved(history + [w]) == if Decisive(w) then FailsRecovery(w) else Unresolved(history)
  {
    assert (history + [w])[..|history|] == history;
  }

  /** An observation that decides nothing can go without changing the verdict. */
  lemma {:induction false} CutIndecisive(history: seq<Observation>, i: nat)
    requires i < |history| && !Decisive(history[i])
    ensures Unresolved(Cut(history, i)) == Unresolved(history)
  {
    var n := |history| - 1;
    if i == n {
      assert Cut(history, i) == history[..n];
    } else {
      var front := history[..n];
      CutIndecisive(front, i);
      assert Cut(history, i) == Cut(front, i) + [history[n]];
      UnresolvedAppend(Cut(front, i), history[n]);
      UnresolvedAppend(front, history[n]);
      assert history == front + [history[n]];
    }
  }

  lemma CutWhats(entries: seq<Entry>, i: nat)
    requires i < |entries|
    ensures Whats(Cut(entries, i)) == Cut(Whats(entries), i)
  {}

  /** Coalescing keeps the verdict that plain appending would give. */
  lemma CoalesceKeepsVerdict(entries: seq<Entry>, e: Entry)
    ensures Unresolved(Whats(Coalesce(entries, e))) == Unresolved(Whats(entries) + [e.what])
  {
    hide CoalescibleIndex, Unresolved;
    var i := CoalescibleIndex(entries, e.what);
    UnresolvedAppend(Whats(entries), e.what);
    if i < 0 {
      assert Whats(entries + [e]) == Whats(entries) + [e.what];
    } else {
      var merged := e.(occurrences := OccurrenceSum(entries[i].occurrences, e.occurrences));
      CutWhats(entries, i);
      assert Whats(Cut(entries, i) + [merged]) == Whats(Cut(entries, i)) + [e.what];
      UnresolvedAppend(Whats(Cut(entries, i)), e.what);
      if !Decisive(e.what) { CutIndecisive(Whats(entries), i); }
    }
  }

  // ---------------------------------------------------------------------
  // Eviction

  /** The oldest entry goes, except that an unresolved recovery failure outlives the next one. */
  function DropIndex(entries: seq<Entry>): (i: nat)
    requires entries != []
    ensures i < |entries|
  {
    if UnresolvedIndex(entries) == 0 && |entries| > 1 then 1 else 0
  }

  function Evict(j: Journal): Journal
    requires j.entries != []
  {
    var i := DropIndex(j.entries);
    j.(entries := Cut(j.entries, i), evicted := j.evicted + 1,
       evictedOccurrences := j.evictedOccurrences + j.entries[i].occurrences,
       onlySingles := j.onlySingles && j.entries[i].occurrences == 1)
  }

  function Trim(j: Journal): (r: Journal)
    ensures |r.entries| <= CAPACITY && r.highest == j.highest
    decreases |j.entries|
  {
    if |j.entries| <= CAPACITY then j else Trim(Evict(j))
  }

  lemma {:induction false} CutFirst(history: seq<Observation>)
    requires history != [] && Decisive(history[0])
    ensures
      Unresolved(history[1..]) ==
        if exists k :: 0 < k < |history| && Decisive(history[k]) then Unresolved(history) else false
  {
    var n := |history| - 1;
    if n > 0 {
      var front := history[..n];
      CutFirst(front);
      assert history[1..] == front[1..] + [history[n]] && history == front + [history[n]];
      UnresolvedAppend(front[1..], history[n]);
      UnresolvedAppend(front, history[n]);
      if !Decisive(history[n]) {
        assert (exists k :: 0 < k < |history| && Decisive(history[k])) <==> (exists k :: 0 < k < |front| && Decisive(front[k])) by {
          if k :| 0 < k < |history| && Decisive(history[k]) { assert Decisive(front[k]); }
          if k :| 0 < k < |front| && Decisive(front[k]) { assert Decisive(history[k]); }
        }
      }
    }
  }

  lemma {:induction false} LoneDecision(history: seq<Observation>)
    requires history != [] && Decisive(history[0]) && forall k :: 0 < k < |history| ==> !Decisive(history[k])
    ensures Unresolved(history) == FailsRecovery(history[0])
  {
    var n := |history| - 1;
    if n > 0 {
      LoneDecision(history[..n]);
    } else {
      assert history[..0] == [];
    }
  }

  lemma {:induction false} LoneFailureIsUnresolved(entries: seq<Entry>)
    requires entries != [] && FailsRecovery(entries[0].what) && forall k :: 0 < k < |entries| ==> !Decisive(entries[k].what)
    ensures UnresolvedIndex(entries) == 0
  {
    var n := |entries| - 1;
    if n > 0 { LoneFailureIsUnresolved(entries[..n]); }
  }

  /** Eviction from a journal of two or more entries keeps the verdict. */
  lemma EvictKeepsVerdict(j: Journal)
    requires |j.entries| > 1
    ensures Unresolved(Whats(Evict(j).entries)) == Unresolved(Whats(j.entries))
  {
    hide Unresolved, UnresolvedIndex;
    var es, ws := j.entries, Whats(j.entries);
    var i := DropIndex(es);
    CutWhats(es, i);
    if FailsRecovery(es[0].what) && forall k :: 0 < k < |es| ==> !Decisive(es[k].what) {
      LoneFailureIsUnresolved(es);
      CutIndecisive(ws, 1);
    } else if !Decisive(ws[i]) {
      CutIndecisive(ws, i);
    } else {
      assert Cut(ws, 0) == ws[1..];
      CutFirst(ws);
      if forall k :: 0 < k < |ws| ==> !Decisive(ws[k]) {
        LoneDecision(ws);
        assert forall k :: 0 < k < |es| ==> es[k].what == ws[k];
      }
    }
  }

  lemma {:induction false} TrimKeepsVerdict(j: Journal)
    ensures Unresolved(Whats(Trim(j).entries)) == Unresolved(Whats(j.entries))
    decreases |j.entries|
  {
    hide Unresolved, Evict, Whats;
    if |j.entries| > CAPACITY {
      EvictKeepsVerdict(j);
      EvictShrinks(j);
      TrimKeepsVerdict(Evict(j));
    }
  }

  lemma TrimStep(j: Journal)
    requires |j.entries| > CAPACITY
    ensures Trim(j) == Trim(Evict(j))
  {
    hide Evict;
  }

  lemma TrimDone(j: Journal)
    requires |j.entries| <= CAPACITY
    ensures Trim(j) == j
  {}

  lemma EvictShrinks(j: Journal)
    requires j.entries != []
    ensures |Evict(j).entries| < |j.entries|
  {
    hide UnresolvedIndex;
  }

  // ---------------------------------------------------------------------
  // Recording and restoring

  function Record(j: Journal, what: Observation): Journal {
    Trim(j.(entries := Coalesce(j.entries, Entry(j.highest + 1, 1, what)), highest := j.highest + 1))
  }

  function CoalesceAll(entries: seq<Entry>): seq<Entry> {
    if entries == [] then [] else Coalesce(CoalesceAll(entries[..|entries| - 1]), entries[|entries| - 1])
  }

  /** A restart reads the stored entries in order, coalesces them again and trims. */
  function Restore(stored: Journal): Journal {
    Trim(stored.(entries := CoalesceAll(stored.entries)))
  }

  lemma {:induction false} CoalesceAllKeepsVerdict(entries: seq<Entry>)
    ensures Unresolved(Whats(CoalesceAll(entries))) == Unresolved(Whats(entries))
  {
    hide Coalesce, Unresolved;
    if entries != [] {
      var front, last := entries[..|entries| - 1], entries[|entries| - 1];
      CoalesceAllKeepsVerdict(front);
      CoalesceKeepsVerdict(CoalesceAll(front), last);
      UnresolvedAppend(Whats(CoalesceAll(front)), last.what);
      UnresolvedAppend(Whats(front), last.what);
      assert Whats(entries) == Whats(front) + [last.what];
    }
  }

  // ---------------------------------------------------------------------
  // Order and counts

  ghost predicate Ascending(entries: seq<Entry>, bound: nat) {
    && (forall a, b :: 0 <= a < b < |entries| ==> entries[a].sequence < entries[b].sequence)
    && (forall a :: 0 <= a < |entries| ==> entries[a].sequence <= bound && entries[a].occurrences >= 1)
  }

  lemma CutAscends(entries: seq<Entry>, i: nat, bound: nat)
    requires Ascending(entries, bound) && i < |entries|
    ensures Ascending(Cut(entries, i), bound)
  {
    var cut := Cut(entries, i);
    assert forall a :: 0 <= a < |cut| ==> cut[a] == entries[if a < i then a else a + 1];
  }

  lemma CoalesceAscends(entries: seq<Entry>, e: Entry, bound: nat)
    requires Ascending(entries, bound) && bound < e.sequence && e.occurrences >= 1
    ensures Ascending(Coalesce(entries, e), e.sequence)
  {
    hide CoalescibleIndex, Ascending, Cut;
    var i := CoalescibleIndex(entries, e.what);
    if i < 0 {
      AppendAscends(entries, e, bound);
    } else {
      var merged := e.(occurrences := OccurrenceSum(entries[i].occurrences, e.occurrences));
      CutAscends(entries, i, bound);
      AppendAscends(Cut(entries, i), merged, bound);
    }
  }

  lemma AppendAscends(entries: seq<Entry>, e: Entry, bound: nat)
    requires Ascending(entries, bound) && bound < e.sequence && e.occurrences >= 1
    ensures Ascending(entries + [e], e.sequence)
  {}

  lemma {:induction false} TrimAscends(j: Journal, bound: nat)
    requires Ascending(j.entries, bound)
    ensures Ascending(Trim(j).entries, bound)
    decreases |j.entries|
  {
    hide Ascending;
    if |j.entries| > CAPACITY {
      CutAscends(j.entries, DropIndex(j.entries), bound);
      EvictShrinks(j);
      TrimAscends(Evict(j), bound);
    }
  }

  lemma {:induction false} CoalesceAllAscends(entries: seq<Entry>, bound: nat)
    requires Ascending(entries, bound)
    ensures Ascending(CoalesceAll(entries), bound)
    ensures entries != [] ==> Ascending(CoalesceAll(entries), entries[|entries| - 1].sequence)
  {
    hide Coalesce;
    if entries != [] {
      var front, last := entries[..|entries| - 1], entries[|entries| - 1];
      CoalesceAllAscends(front, bound);
      if front != [] {
        assert front[|front| - 1].sequence < last.sequence;
        CoalesceAscends(CoalesceAll(front), last, front[|front| - 1].sequence);
      } else {
        LoneEntry(last);
      }
    }
  }

  lemma LoneEntry(e: Entry)
    ensures Coalesce([], e) == [e] && CoalesceAll([]) == []
  {}

  function Total(entries: seq<Entry>): nat {
    if entries == [] then 0 else Total(entries[..|entries| - 1]) + entries[|entries| - 1].occurrences
  }

  lemma TotalAppend(entries: seq<Entry>, e: Entry)
    ensures Total(entries + [e]) == Total(entries) + e.occurrences
  {
    assert (entries + [e])[..|entries|] == entries;
  }

  lemma {:induction false} TotalCut(entries: seq<Entry>, i: nat)
    requires i < |entries|
    ensures Total(Cut(entries, i)) + entries[i].occurrences == Total(entries)
  {
    var n := |entries| - 1;
    if i == n {
      assert Cut(entries, i) == entries[..n];
    } else {
      TotalCut(entries[..n], i);
      assert Cut(entries, i) == Cut(entries[..n], i) + [entries[n]];
      TotalAppend(Cut(entries[..n], i), entries[n]);
    }
  }

  /** Below saturation coalescing adds exactly the new occurrences. */
  lemma CoalesceConserves(entries: seq<Entry>, e: Entry)
    requires Total(entries) + e.occurrences <= MAX_OCCURRENCES
    ensures Total(Coalesce(entries, e)) == Total(entries) + e.occurrences
  {
    hide Total;
    var i := CoalescibleIndex(entries, e.what);
    if i < 0 {
      TotalAppend(entries, e);
    } else {
      TotalCut(entries, i);
      TotalAppend(Cut(entries, i), e.(occurrences := OccurrenceSum(entries[i].occurrences, e.occurrences)));
    }
  }

  lemma {:induction false} TrimConserves(j: Journal)
    ensures Total(Trim(j).entries) + Trim(j).evictedOccurrences == Total(j.entries) + j.evictedOccurrences
    ensures Trim(j).evictedOccurrences >= j.evictedOccurrences
    decreases |j.entries|
  {
    hide Total, UnresolvedIndex;
    if |j.entries| > CAPACITY {
      TotalCut(j.entries, DropIndex(j.entries));
      TrimConserves(Evict(j));
    }
  }

  lemma {:induction false} CoalesceAllConserves(entries: seq<Entry>)
    requires Total(entries) <= MAX_OCCURRENCES
    ensures Total(CoalesceAll(entries)) == Total(entries)
  {
    hide Coalesce;
    if entries != [] {
      CoalesceAllConserves(entries[..|entries| - 1]);
      CoalesceConserves(CoalesceAll(entries[..|entries| - 1]), entries[|entries| - 1]);
    }
  }

  /** The counter of evicted entries equals the evicted occurrences exactly when all stood for one. */
  ghost predicate CountersOk(j: Journal) {
    && j.evicted <= j.evictedOccurrences
    && (j.onlySingles <==> j.evicted == j.evictedOccurrences)
  }

  lemma {:induction false} TrimKeepsCounters(j: Journal, bound: nat)
    requires CountersOk(j) && Ascending(j.entries, bound)
    ensures CountersOk(Trim(j))
    decreases |j.entries|
  {
    hide UnresolvedIndex;
    if |j.entries| > CAPACITY {
      CutAscends(j.entries, DropIndex(j.entries), bound);
      TrimKeepsCounters(Evict(j), bound);
    }
  }

  // ---------------------------------------------------------------------
  // The journal as it runs

  /** The backward scan for an entry to merge with. */
  method FindCoalescible(entries: seq<Entry>, what: Observation) returns (index: int)
    ensures index == CoalescibleIndex(entries, what)
  {
    if !Coalescible(what.outcome) { return -1; }
    var i := |entries|;
    assert entries[..i] == entries;
    while i > 0
      invariant 0 <= i <= |entries|
      invariant LastInScope(entries, what) == LastInScope(entries[..i], what)
    {
      i := i - 1;
      assert entries[..i + 1][..i] == entries[..i];
      if SameScope(entries[i].what, what) {
        return if entries[i].what.outcome == what.outcome && entries[i].what.reason == what.reason then i else -1;
      }
    }
    index := -1;
  }

  /** The backward scan for an unresolved recovery failure. */
  method FindUnresolved(entries: seq<Entry>) returns (index: int)
    ensures index == UnresolvedIndex(entries)
  {
    var i := |entries|;
    assert entries[..i] == entries;
    while i > 0
      invariant 0 <= i <= |entries|
      invariant UnresolvedIndex(entries) == UnresolvedIndex(entries[..i])
    {
      i := i - 1;
      assert entries[..i + 1][..i] == entries[..i];
      if entries[i].what.subsystem == RECOVERY {
        if entries[i].what.outcome.RecoveredOutcome? { return -1; }
        if FailsRecovery(entries[i].what) { return i; }
      }
    }
    index := -1;
  }

  method CoalesceEntry(entries: seq<Entry>, e: Entry) returns (r: seq<Entry>)
    ensures r == Coalesce(entries, e)
  {
    hide CoalescibleIndex;
    var i := FindCoalescible(entries, e.what);
    if i < 0 { return entries + [e]; }
    r := entries[..i] + entries[i + 1..] + [e.(occurrences := OccurrenceSum(entries[i].occurrences, e.occurrences))];
  }

  class DiagnosticsRecorder {
    var entries: seq<Entry>
    var highestSequence: nat
    var evictedEvents: nat
    ghost var evictedOccurrences: nat
    ghost var onlySingles: bool

    ghost function View(): Journal
      reads this
    {
      Journal(entries, highestSequence, evictedEvents, evictedOccurrences, onlySingles)
    }

    /** An empty journal, or the stored one coalesced and trimmed again. */
    constructor (stored: seq<Entry>, highest: nat, evicted: nat, ghost before: Journal)
      requires before.entries == stored && before.highest == highest && before.evicted == evicted
      ensures View() == Restore(before)
    {
      entries, highestSequence, evictedEvents := [], highest, evicted;
      evictedOccurrences, onlySingles := before.evictedOccurrences, before.onlySingles;
      new;
      for i := 0 to |stored|
        invariant View() == before.(entries := CoalesceAll(stored[..i]))
      {
        assert stored[..i + 1][..i] == stored[..i];
        entries := CoalesceEntry(entries, stored[i]);
      }
      assert stored[..|stored|] == stored;
      TrimToCapacity();
    }

    method TrimToCapacity()
      modifies this
      ensures View() == Trim(old(View()))
    {
      hide UnresolvedIndex, Trim;
      while |entries| > CAPACITY
        invariant Trim(View()) == Trim(old(View()))
        decreases |entries|
      {
        TrimStep(View());
        var unresolved := FindUnresolved(entries);
        var drop := if unresolved == 0 && |entries| > 1 then 1 else 0;
        evictedOccurrences := evictedOccurrences + entries[drop].occurrences;
        onlySingles := onlySingles && entries[drop].occurrences == 1;
        entries := entries[..drop] + entries[drop + 1..];
        evictedEvents := evictedEvents + 1;
      }
      TrimDone(View());
    }

    method Append(what: Observation)
      modifies this
      ensures View() == Record(old(View()), what)
    {
      hide Coalesce, Trim;
      highestSequence := highestSequence + 1;
      entries := CoalesceEntry(entries, Entry(highestSequence, 1, what));
      TrimToCapacity();
    }
  }

  // ---------------------------------------------------------------------
  // Runs

  /**
   A journal, its stored copy, and the complete histories behind the two. A restart
   continues from the stored copy, so what was never stored is not part of the history.
   */
  datatype Recorder = Recorder(
    journal: Journal,
    stored: Option<Journal>,
    history: seq<Observation>,
    storedHistory: seq<Observation>)

  datatype Event = Records(what: Observation, saved: bool) | Restarts(note: Observation, saved: bool)

  const FRESH := Recorder(BLANK, None, [], [])

  function Noted(r: Recorder, what: Observation, saved: bool): Recorder {
    var j, h := Record(r.journal, what), r.history + [what];
    if saved then Recorder(j, Some(j), h, h) else r.(journal := j, history := h)
  }

  /** A restart that restores entries notes so in the journal. */
  function Next(r: Recorder, e: Event): Recorder {
    match e
    case Records(what, saved) => Noted(r, what, saved)
    case Restarts(note, saved) =>
      if r.stored.None? then Recorder(BLANK, None, [], [])
      else
        var j := Restore(r.stored.value);
        var restored := Recorder(j, r.stored, r.storedHistory, r.storedHistory);
        if j.entries != [] then Noted(restored, note, saved)
        else if saved then restored.(stored := Some(j)) else restored
  }

  ghost predicate JournalOk(j: Journal, history: seq<Observation>) {
    && Ascending(j.entries, j.highest)
    && |j.entries| <= CAPACITY
    && Unresolved(Whats(j.entries)) == Unresolved(history)
    && (|history| <= MAX_OCCURRENCES ==> Total(j.entries) + j.evictedOccurrences == |history|)
    && CountersOk(j)
  }

  ghost predicate RecorderOk(r: Recorder) {
    && JournalOk(r.journal, r.history)
    && (r.stored.Some? ==> JournalOk(r.stored.value, r.storedHistory))
    && (r.stored.None? ==> r.storedHistory == [])
  }

  lemma RecordOk(j: Journal, history: seq<Observation>, what: Observation)
    requires JournalOk(j, history)
    ensures JournalOk(Record(j, what), history + [what])
  {
    hide Coalesce, Trim, Whats, Unresolved, Total;
    var e := Entry(j.highest + 1, 1, what);
    var grown := j.(entries := Coalesce(j.entries, e), highest := j.highest + 1);
    CoalesceAscends(j.entries, e, j.highest);
    TrimAscends(grown, grown.highest);
    CoalesceKeepsVerdict(j.entries, e);
    TrimKeepsVerdict(grown);
    UnresolvedAppend(Whats(j.entries), what);
    UnresolvedAppend(history, what);
    if |history| + 1 <= MAX_OCCURRENCES { CoalesceConserves(j.entries, e); }
    TrimConserves(grown);
    TrimKeepsCounters(grown, grown.highest);
  }

  lemma RestoreOk(j: Journal, history: seq<Observation>)
    requires JournalOk(j, history)
    ensures JournalOk(Restore(j), history)
  {
    hide CoalesceAll, Trim, Whats, Unresolved, Total;
    var all := j.(entries := CoalesceAll(j.entries));
    CoalesceAllAscends(j.entries, j.highest);
    TrimAscends(all, all.highest);
    CoalesceAllKeepsVerdict(j.entries);
    TrimKeepsVerdict(all);
    if |history| <= MAX_OCCURRENCES { CoalesceAllConserves(j.entries); }
    TrimConserves(all);
    TrimKeepsCounters(all, all.highest);
  }

  lemma NotedOk(r: Recorder, what: Observation, saved: bool)
    requires RecorderOk(r)
    ensures RecorderOk(Noted(r, what, saved))
  {
    hide JournalOk, Record;
    RecordOk(r.journal, r.history, what);
  }

  lemma BlankOk()
    ensures JournalOk(BLANK, [])
  {}

  lemma EventOk(r: Recorder, e: Event)
    requires RecorderOk(r)
    ensures RecorderOk(Next(r, e))
  {
    hide JournalOk, Record, Restore;
    BlankOk();
    match e
    case Records(what, saved) => NotedOk(r, what, saved);
    case Restarts(note, saved) =>
      if r.stored.Some? {
        RestoreOk(r.stored.value, r.storedHistory);
        var restored := Recorder(Restore(r.stored.value), r.stored, r.storedHistory, r.storedHistory);
        NotedOk(restored, note, saved);
      }
  }

  datatype Run = Run(states: seq<Recorder>, events: seq<Event>)

  ghost predicate StepsTo(r: Run, i: nat)
    requires i < |r.events| && i + 1 < |r.states|
  {
    r.states[i + 1] == Next(r.states[i], r.events[i])
  }

  ghost predicate ValidRun(r: Run) {
    && |r.states| == |r.events| + 1 && r.states[0] == FRESH
    && forall i {:trigger StepsTo(r, i)} :: 0 <= i < |r.events| ==> StepsTo(r, i)
  }

  lemma {:induction false} EveryRecorderOk(r: Run, i: nat)
    requires ValidRun(r) && i <= |r.events|
    ensures RecorderOk(r.states[i])
  {
    hide JournalOk, Next;
    if i == 0 {
      BlankOk();
    } else {
      EveryRecorderOk(r, i - 1);
      assert StepsTo(r, i - 1);
      EventOk(r.states[i - 1], r.events[i - 1]);
    }
  }

  /**
   At every moment of every run, restarts and failed saves included: the bounded
   journal gives the verdict of the complete history, its sequences ascend
   strictly, and below saturation the retained occurrences and those of evicted
   entries add up to the recorded events.
   */
  lemma JournalAnswersAsHistory(r: Run, i: nat)
    requires ValidRun(r) && i <= |r.events|
    ensures
      var j, history := r.states[i].journal, r.states[i].history;
      && (UnresolvedIndex(j.entries) >= 0 <==> Unresolved(history))
      && |j.entries| <= CAPACITY
      && (forall a, b :: 0 <= a < b < |j.entries| ==> j.entries[a].sequence < j.entries[b].sequence)
      && (|history| <= MAX_OCCURRENCES ==> Total(j.entries) + j.evictedOccurrences == |history|)
  {
    hide StepsTo, UnresolvedIndex, Unresolved, Total, Whats;
    EveryRecorderOk(r, i);
    IndexIsVerdict(r.states[i].journal.entries);
  }

  /**
   The reported counter counts evicted entries, not occurrences: retained
   occurrences plus this counter equal the recorded events exactly when every
   evicted entry stood for a single occurrence.
   */
  lemma EvictedCounterIsExactForSingles(r: Run, i: nat)
    requires ValidRun(r) && i <= |r.events| && |r.states[i].history| <= MAX_OCCURRENCES
    ensures
      var j := r.states[i].journal;
      Total(j.entries) + j.evicted == |r.states[i].history| <==> j.onlySingles
  {
    hide StepsTo, UnresolvedIndex, Unresolved, Total, Whats;
    EveryRecorderOk(r, i);
  }

  /** Recording `what` evicts an entry: the journal is full and nothing coalesces. */
  ghost predicate EvictsOnRecord(j: Journal, what: Observation) {
    |j.entries| == CAPACITY && CoalescibleIndex(j.entries, what) < 0
  }

  /** The entry that would go, as a caller can read it off the journal before recording. */
  function Endangered(j: Journal, what: Observation): Entry
    requires |j.entries| == CAPACITY
  {
    var grown := j.entries + [Entry(j.highest + 1, 1, what)];
    j.entries[DropIndex(grown)]
  }

  /**
   Recording one event raises retained occurrences plus the eviction counter by one
   exactly when it evicts nothing or the evicted entry stands for one occurrence.
   */
  lemma CounterKeepsPaceExactly(j: Journal, history: seq<Observation>, what: Observation)
    requires JournalOk(j, history) && |history| < MAX_OCCURRENCES
    ensures
      var j' := Record(j, what);
      Total(j'.entries) + j'.evicted == Total(j.entries) + j.evicted + 1 <==>
        (EvictsOnRecord(j, what) ==> Endangered(j, what).occurrences == 1)
  {
    hide Trim, Total, Unresolved, Whats, CoalescibleIndex, UnresolvedIndex;
    var e := Entry(j.highest + 1, 1, what);
    var grown := j.(entries := Coalesce(j.entries, e), highest := j.highest + 1);
    CoalesceConserves(j.entries, e);
    if EvictsOnRecord(j, what) {
      TrimStep(grown);
      TotalCut(grown.entries, DropIndex(grown.entries));
      TrimDone(Evict(grown));
    } else {
      TrimDone(grown);
    }
  }

  const REPEATED := Observation("docker", "launch", None, FailedOutcome, "")

  const ONCE := Observation("docker", "start", None, Succeeded, "")

  /** A journal of one doubled entry followed by single ones that never coalesce. */
  ghost predicate DoubledFirst(s: Recorder, singles: nat) {
    && |s.journal.entries| == singles + 1 && |s.history| == singles + 2
    && s.journal.entries[0].occurrences == 2 && s.journal.evicted == 0
    && forall i :: 0 <= i < |s.journal.entries| ==> s.journal.entries[i].what.subsystem == "docker"
  }

  lemma Extended(r: Run, e: Event) returns (r': Run)
    requires ValidRun(r)
    ensures ValidRun(r') && r'.events == r.events + [e]
    ensures r'.states[|r.events| + 1] == Next(r.states[|r.events|], e)
  {
    r' := Run(r.states + [Next(r.states[|r.events|], e)], r.events + [e]);
    forall i | 0 <= i < |r'.events| ensures StepsTo(r', i) {
      if i < |r.events| { assert StepsTo(r, i); }
    }
  }

  lemma DoubledEntry() returns (r: Run)
    ensures ValidRun(r) && |r.events| == 2 && DoubledFirst(r.states[2], 0)
  {
    r := Run([FRESH], []);
    r := Extended(r, Records(REPEATED, true));
    var one := Entry(1, 1, REPEATED);
    assert CoalescibleIndex([], REPEATED) == -1 && r.states[1].journal.entries == [one];
    assert [one][..0] == [];
    assert LastInScope([one], REPEATED) == 0;
    r := Extended(r, Records(REPEATED, true));
    assert Cut([one], 0) == [];
  }

  lemma SingleAppended(s: Recorder, singles: nat)
    requires DoubledFirst(s, singles) && singles + 2 <= CAPACITY
    ensures DoubledFirst(Noted(s, ONCE, true), singles + 1)
  {
    hide LastInScope;
    var grown := s.journal.(entries := s.journal.entries + [Entry(s.journal.highest + 1, 1, ONCE)], highest := s.journal.highest + 1);
    assert Coalesce(s.journal.entries, Entry(s.journal.highest + 1, 1, ONCE)) == grown.entries;
    TrimDone(grown);
  }

  lemma {:induction false} DoubledRun(singles: nat) returns (r: Run)
    requires singles < CAPACITY
    ensures ValidRun(r) && |r.events| == singles + 2 && DoubledFirst(r.states[|r.events|], singles)
  {
    hide Next, DoubledFirst;
    if singles == 0 {
      r := DoubledEntry();
    } else {
      var shorter := DoubledRun(singles - 1);
      r := Extended(shorter, Records(ONCE, true));
      RecordsIsNoted(shorter.states[|shorter.events|]);
      SingleAppended(shorter.states[|shorter.events|], singles - 1);
    }
  }

  lemma RecordsIsNoted(s: Recorder)
    ensures Next(s, Records(ONCE, true)) == Noted(s, ONCE, true)
  {}

  lemma {:induction false} NoRecoveryNoFailure(entries: seq<Entry>)
    requires forall i :: 0 <= i < |entries| ==> entries[i].what.subsystem == "docker"
    ensures UnresolvedIndex(entries) == -1
  {
    assert "docker"[0] == 'd' && RECOVERY[0] == 'r';
    if entries != [] { NoRecoveryNoFailure(entries[..|entries| - 1]); }
  }

  /**
   The counter does fall behind: a failure recorded twice and then sixty-four single
   events leave 64 retained occurrences and one evicted entry of 66 recorded events.
   */
  lemma EvictedCounterFallsBehind() returns (r: Run)
    ensures ValidRun(r) && |r.events| == 66 && |r.states[66].history| == 66
    ensures
      var j := r.states[66].journal;
      j.evicted == 1 && Total(j.entries) + j.evicted < |r.states[66].history|
  {
    hide UnresolvedIndex, Total, LastInScope, Unresolved, Whats;
    var full := DoubledRun(CAPACITY - 1);
    var s := full.states[|full.events|];
    r := Extended(full, Records(ONCE, true));
    EveryRecorderOk(full, |full.events|);
    var grown := s.journal.(entries := s.journal.entries + [Entry(s.journal.highest + 1, 1, ONCE)], highest := s.journal.highest + 1);
    NoRecoveryNoFailure(grown.entries);
    TrimStep(grown);
    TrimDone(Evict(grown));
    TotalAppend(s.journal.entries, Entry(s.journal.highest + 1, 1, ONCE));
    TotalCut(grown.entries, 0);
    assert r.states[66].journal == Evict(grown);
  }
}
