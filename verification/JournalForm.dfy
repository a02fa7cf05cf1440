/**
 The form of the operation journal: a repeated event is merged with the latest
 entry of its scope and never stands twice in a row, a restart reads the stored
 journal back unchanged, and only the oldest entries are evicted.
 */
module JournalForm {
  import opened FairShare
  import opened Journals

  /** The same thing again: scope, outcome and reason agree, and the outcome is not a success. */
  predicate Repeats(a: Observation, b: Observation) {
    && a.subsystem == b.subsystem && a.operation == b.operation && a.target == b.target
    && a.outcome == b.outcome && a.reason == b.reason && a.outcome != Succeeded && a.outcome != RecoveredOutcome
  }

  /** Entry i is the latest of its scope, and the new observation repeats it. */
  ghost predicate LatestRepeat(entries: seq<Entry>, i: int, w: Observation) {
    && 0 <= i < |entries| && Repeats(entries[i].what, w)
    && forall j :: i < j < |entries| ==> !SameScope(entries[j].what, w)
  }

  /** A new event takes the place and the occurrences of the entry it repeats; any other is appended. */
  lemma MergeIsExact(entries: seq<Entry>, e: Entry)
    ensures
      forall i :: LatestRepeat(entries, i, e.what) ==>
        Coalesce(entries, e) ==
          entries[..i] + entries[i + 1..] + [e.(occurrences := Min(entries[i].occurrences + e.occurrences, 2_147_483_647))]
    ensures (forall i :: !LatestRepeat(entries, i, e.what)) ==> Coalesce(entries, e) == entries + [e]
  {
    var last := LastInScope(entries, e.what);
    forall i | LatestRepeat(entries, i, e.what) ensures i == last { assert SameScope(entries[i].what, e.what); }
    if CoalescibleIndex(entries, e.what) >= 0 { assert LatestRepeat(entries, last, e.what); }
  }

  // ---------------------------------------------------------------------
  // Nothing stands twice in a row

  ghost predicate Between(entries: seq<Entry>, i: int, j: int) {
    exists m {:trigger entries[m]} :: 0 <= i < m < j < |entries| && SameScope(entries[m].what, entries[j].what)
  }

  /** Between two entries that repeat each other lies another entry of their scope. */
  ghost predicate NormalForm(entries: seq<Entry>) {
    forall i, j :: 0 <= i < j < |entries| && Repeats(entries[i].what, entries[j].what) ==> Between(entries, i, j)
  }

  lemma AppendKeepsForm(entries: seq<Entry>, e: Entry)
    requires NormalForm(entries) && forall i :: !LatestRepeat(entries, i, e.what)
    ensures NormalForm(entries + [e])
  {
    var all := entries + [e];
    forall i, j | 0 <= i < j < |all| && Repeats(all[i].what, all[j].what) ensures Between(all, i, j) {
      if j < |entries| {
        assert Between(entries, i, j);
        var m :| 0 <= i < m < j < |entries| && SameScope(entries[m].what, entries[j].what);
        assert all[m] == entries[m];
      } else {
        assert !LatestRepeat(entries, i, e.what);
        var m :| i < m < |entries| && SameScope(entries[m].what, e.what);
        assert all[m] == entries[m];
      }
    }
  }

  /** Index of an entry of the cut list in the whole one. */
  function Original(i: int, gone: int): int {
    if i < gone then i else i + 1
  }

  /** Cutting an entry keeps the form unless it was the only one between two repeats. */
  lemma CutKeepsForm(entries: seq<Entry>, gone: nat)
    requires NormalForm(entries) && gone < |entries|
    requires
      forall i, j :: 0 <= i < gone < j < |entries| && SameScope(entries[gone].what, entries[j].what) ==>
        !Repeats(entries[i].what, entries[j].what)
    ensures NormalForm(Cut(entries, gone))
  {
    var rest := Cut(entries, gone);
    forall i, j | 0 <= i < j < |rest| && Repeats(rest[i].what, rest[j].what) ensures Between(rest, i, j) {
      var i', j' := Original(i, gone), Original(j, gone);
      assert rest[i] == entries[i'] && rest[j] == entries[j'];
      assert Between(entries, i', j');
      var m' :| 0 <= i' < m' < j' < |entries| && SameScope(entries[m'].what, entries[j'].what);
      assert m' != gone;
      var m := if m' < gone then m' else m' - 1;
      assert rest[m] == entries[m'];
    }
  }

  lemma CoalesceKeepsForm(entries: seq<Entry>, e: Entry)
    requires NormalForm(entries)
    ensures NormalForm(Coalesce(entries, e))
  {
    hide Coalesce, NormalForm;
    MergeIsExact(entries, e);
    if i :| LatestRepeat(entries, i, e.what) {
      LatestCanGo(entries, i, e.what);
      var merged := e.(occurrences := Min(entries[i].occurrences + e.occurrences, 2_147_483_647));
      AppendKeepsForm(Cut(entries, i), merged);
    } else {
      AppendKeepsForm(entries, e);
    }
  }

  /** Without the entry that is repeated, nothing is left that the new one repeats. */
  lemma LatestCanGo(entries: seq<Entry>, i: int, w: Observation)
    requires NormalForm(entries) && LatestRepeat(entries, i, w)
    ensures NormalForm(Cut(entries, i)) && forall x :: !LatestRepeat(Cut(entries, i), x, w)
  {
    var rest := Cut(entries, i);
    assert forall j :: i < j < |entries| ==> !SameScope(entries[i].what, entries[j].what);
    CutKeepsForm(entries, i);
    forall x ensures !LatestRepeat(rest, x, w) {
      if 0 <= x < i && Repeats(entries[x].what, w) {
        assert Between(entries, x, i);
        var m :| 0 <= x < m < i && SameScope(entries[m].what, entries[i].what);
        assert rest[m] == entries[m];
      } else if i <= x < |rest| {
        assert rest[x] == entries[x + 1];
      }
    }
  }

  lemma EvictKeepsForm(j: Journal)
    requires NormalForm(j.entries) && j.entries != []
    ensures NormalForm(Evict(j).entries)
  {
    hide UnresolvedIndex, NormalForm;
    CutKeepsForm(j.entries, DropIndex(j.entries));
  }

  lemma {:induction false} TrimKeepsForm(j: Journal)
    requires NormalForm(j.entries)
    ensures NormalForm(Trim(j).entries)
    decreases |j.entries|
  {
    hide NormalForm, Evict;
    if |j.entries| > CAPACITY {
      EvictKeepsForm(j);
      EvictShrinks(j);
      TrimKeepsForm(Evict(j));
    }
  }

  lemma RecordKeepsForm(j: Journal, what: Observation)
    requires NormalForm(j.entries)
    ensures NormalForm(Record(j, what).entries)
  {
    hide NormalForm, Coalesce, Trim;
    CoalesceKeepsForm(j.entries, Entry(j.highest + 1, 1, what));
    TrimKeepsForm(j.(entries := Coalesce(j.entries, Entry(j.highest + 1, 1, what)), highest := j.highest + 1));
  }

  // ---------------------------------------------------------------------
  // A restart reads back what was stored

  lemma PrefixKeepsForm(entries: seq<Entry>)
    requires NormalForm(entries) && entries != []
    ensures
      var front, last := entries[..|entries| - 1], entries[|entries| - 1];
      NormalForm(front) && forall i :: !LatestRepeat(front, i, last.what)
  {
    var front, last := entries[..|entries| - 1], entries[|entries| - 1];
    forall i, j | 0 <= i < j < |front| && Repeats(front[i].what, front[j].what) ensures Between(front, i, j) {
      assert Between(entries, i, j);
      var m :| 0 <= i < m < j < |entries| && SameScope(entries[m].what, entries[j].what);
      assert front[m] == entries[m];
    }
    forall i ensures !LatestRepeat(front, i, last.what) {
      if 0 <= i < |front| && Repeats(front[i].what, last.what) {
        assert Between(entries, i, |front|);
        var m :| 0 <= i < m < |front| && SameScope(entries[m].what, entries[|front|].what);
        assert front[m] == entries[m];
      }
    }
  }

  lemma {:induction false} NormalFormReadsBack(entries: seq<Entry>)
    requires NormalForm(entries)
    ensures CoalesceAll(entries) == entries
  {
    hide Coalesce, NormalForm;
    if entries != [] {
      var front, last := entries[..|entries| - 1], entries[|entries| - 1];
      PrefixKeepsForm(entries);
      NormalFormReadsBack(front);
      MergeIsExact(front, last);
    }
  }

  lemma RestoreIsIdentity(j: Journal)
    requires NormalForm(j.entries) && |j.entries| <= CAPACITY
    ensures Restore(j) == j
  {
    hide NormalForm;
    NormalFormReadsBack(j.entries);
  }

  ghost predicate FormOk(r: Recorder) {
    NormalForm(r.journal.entries) && (r.stored.Some? ==> NormalForm(r.stored.value.entries))
  }

  lemma EventKeepsForm(r: Recorder, e: Event)
    requires RecorderOk(r) && FormOk(r)
    ensures FormOk(Next(r, e))
  {
    hide NormalForm, Record, Restore, Ascending, Unresolved, Total, CountersOk, Whats;
    match e
    case Records(what, _) => RecordKeepsForm(r.journal, what);
    case Restarts(note, _) =>
      BlankForm();
      if r.stored.Some? {
        RestoreIsIdentity(r.stored.value);
        RecordKeepsForm(r.stored.value, note);
      }
  }

  lemma BlankForm()
    ensures NormalForm(BLANK.entries)
  {}

  /**
   At every moment of every run no repeat stands without another entry of its scope in
   between, and a restart would read the stored journal back as it is.
   */
  lemma {:induction false} RepeatsAreMerged(r: Run, i: nat)
    requires ValidRun(r) && i <= |r.events|
    ensures FormOk(r.states[i])
    ensures r.states[i].stored.Some? ==> Restore(r.states[i].stored.value) == r.states[i].stored.value
  {
    hide NormalForm, Next, Restore, Ascending, Unresolved, Total, CountersOk, Whats;
    EveryRecorderOk(r, i);
    if i == 0 {
      BlankForm();
    } else {
      RepeatsAreMerged(r, i - 1);
      EveryRecorderOk(r, i - 1);
      assert StepsTo(r, i - 1);
      EventKeepsForm(r.states[i - 1], r.events[i - 1]);
    }
    if r.states[i].stored.Some? { RestoreIsIdentity(r.states[i].stored.value); }
  }

  // ---------------------------------------------------------------------
  // What is evicted

  /** The oldest entry is a recovery failure that nothing later decided. */
  ghost predicate OldestIsUnresolved(entries: seq<Entry>) {
    entries != [] && FailsRecovery(entries[0].what) && forall k :: 0 < k < |entries| ==> !Decisive(entries[k].what)
  }

  /** Recording beyond 64 entries drops the oldest, or the second oldest if the oldest is an unresolved failure, and counts it. */
  lemma OldestGoesFirst(j: Journal, what: Observation)
    requires |j.entries| <= 64
    ensures
      var all, r := Coalesce(j.entries, Entry(j.highest + 1, 1, what)), Record(j, what);
      && |all| <= 65 && r.highest == j.highest + 1
      && r.entries == (if |all| <= 64 then all else if OldestIsUnresolved(all) then [all[0]] + all[2..] else all[1..])
      && r.evicted == if |all| <= 64 then j.evicted else j.evicted + 1
  {
    hide Coalesce, Trim, Evict, OldestIsUnresolved;
    var all := Coalesce(j.entries, Entry(j.highest + 1, 1, what));
    var grown := j.(entries := all, highest := j.highest + 1);
    CoalesceSize(j.entries, Entry(j.highest + 1, 1, what));
    if |all| > 64 {
      EvictsOldest(grown);
      TrimStep(grown);
      TrimDone(Evict(grown));
    } else {
      TrimDone(grown);
    }
  }

  lemma CoalesceSize(entries: seq<Entry>, e: Entry)
    ensures |Coalesce(entries, e)| <= |entries| + 1
  {
    hide CoalescibleIndex;
  }

  lemma EvictsOldest(j: Journal)
    requires |j.entries| > 1
    ensures
      var es, r := j.entries, Evict(j);
      && r.entries == (if OldestIsUnresolved(es) then [es[0]] + es[2..] else es[1..])
      && |r.entries| == |es| - 1 && r.evicted == j.evicted + 1 && r.highest == j.highest
  {
    hide UnresolvedIndex, OldestIsUnresolved;
    OldestIndex(j.entries);
    assert Cut(j.entries, 0) == j.entries[1..] && Cut(j.entries, 1) == [j.entries[0]] + j.entries[2..];
  }

  lemma OldestIndex(entries: seq<Entry>)
    requires entries != []
    ensures UnresolvedIndex(entries) == 0 <==> OldestIsUnresolved(entries)
  {
    hide UnresolvedIndex;
    if OldestIsUnresolved(entries) { LoneFailureIsUnresolved(entries); }
  }
}
