/**
 Removing a slot twice, over whole runs: a slot that left the ledger answers a
 later release as already done while its tombstone is kept, and a slot that never
 held a lease is never reported as released.
 */
module Removals {
  import opened Identity
  import opened Ordering
  import opened Policy
  import opened Admission
  import opened Ledgers
  import opened Commands
  import opened Invariants
  import opened Runs
  import opened Lifetimes
  import opened Replies

  /** The number of tombstones that a list of edits records. */
  function Recorded(es: seq<Edit>): nat {
    if es == [] then 0 else
      Recorded(es[..|es| - 1]) + match es[|es| - 1] case Sweep(order, _) => |order| case Remove(_, _, _) => 1 case _ => 0
  }

  /** The edit hands out the slot, or takes its tombstone away with an adoption. */
  predicate TakesSlot(e: Edit, k: Key) {
    (e.Grant? || (e.Promote? && e.adopting)) && e.key == k
  }

  // ---------------------------------------------------------------------
  // Edits

  /** At most `count` tombstones are newer than the one of k. */
  ghost predicate KeptWithin(ts: TombstoneMap, k: Key, count: int) {
    k in ts && |Newer(ts, k)| <= count
  }

  lemma CompactKeeps(ts: TombstoneMap, k: Key, count: int)
    requires KeptWithin(ts, k, count) && count < MAX_TOMBSTONES
    ensures KeptWithin(Compact(ts), k, count)
  {
    var kept := Compact(ts);
    assert Newer(kept, k) <= Newer(ts, k);
    SubsetSize(Newer(kept, k), Newer(ts, k));
  }

  lemma AddedAreNewer(ts: TombstoneMap, ts': TombstoneMap, k: Key, added: set<Key>, count: int)
    requires KeptWithin(ts, k, count) && k in ts' && ts'[k] == ts[k]
    requires forall j :: j in ts' && j !in added ==> j in ts && ts'[j] == ts[j]
    ensures KeptWithin(ts', k, count + |added|)
  {
    assert Newer(ts', k) <= Newer(ts, k) + added;
    SubsetSize(Newer(ts', k), Newer(ts, k) + added);
    assert |Newer(ts, k) + added| <= |Newer(ts, k)| + |added|;
  }

  lemma SweptWithin(l: Ledger, order: seq<Key>, reason: TombstoneReason, k: Key, count: int)
    requires ValidLedger(l) && Distinct(order) && Elements(order) <= l.leases.Keys && count >= 0
    requires k in order || KeptWithin(l.tombstones, k, count)
    ensures KeptWithin(Swept(l, order, reason), k, count + |order| - (if k in order then 1 else 0))
  {
    hide ValidLedger, Swept, Newer;
    EnumerationSize(order);
    SweptEntries(l, order, reason);
    if k in order {
      var newer := Newer(Swept(l, order, reason), k);
      NewerSwept(l, order, reason, k);
      SubsetSize(newer, Elements(order) - {k});
    } else {
      AddedAreNewer(l.tombstones, Swept(l, order, reason), k, Elements(order), count);
    }
  }

  lemma SweptEntries(l: Ledger, order: seq<Key>, reason: TombstoneReason)
    requires Elements(order) <= l.leases.Keys
    ensures
      var ts := Swept(l, order, reason);
      && ts.Keys == l.tombstones.Keys + Elements(order)
      && (forall j :: j in ts && j !in Elements(order) ==> j in l.tombstones && ts[j] == l.tombstones[j])
      && (forall j :: j in ts && j in order ==> ts[j].sequence > l.sequence)
  {
    assert Elements(order) * l.leases.Keys == Elements(order);
  }

  lemma NewerSwept(l: Ledger, order: seq<Key>, reason: TombstoneReason, k: Key)
    requires ValidLedger(l) && Elements(order) <= l.leases.Keys && k in order && k in Swept(l, order, reason)
    ensures Newer(Swept(l, order, reason), k) <= Elements(order) - {k}
  {
    hide LeasesOk, FencesOk, PolicyOk, DecisionOk, Swept;
    SweptEntries(l, order, reason);
    var ts := Swept(l, order, reason);
    assert forall j :: j in l.tombstones ==> l.tombstones[j].sequence <= l.sequence;
    assert forall j :: j in Newer(ts, k) ==> j in Elements(order) && j != k;
  }

  lemma CompactEntry(ts: TombstoneMap, k: Key)
    ensures k in Compact(ts) ==> k in ts && Compact(ts)[k] == ts[k]
  {
    hide Newer;
  }

  lemma SweptEntryContent(l: Ledger, order: seq<Key>, k: Key)
    requires LeasesOk(l) && k in order && k in l.leases
    ensures
      var ts := Swept(l, order, Expired);
      && k in ts && l.sequence < ts[k].sequence <= l.sequence + |order|
      && ts[k] == Tombstone(k.profile, k.slot, l.leases[k].leaseId, Expired, "", ts[k].sequence)
  {
    assert LeaseOk(l, k);
    assert k in Elements(order) * l.leases.Keys;
  }

  /** An expired lease leaves a tombstone of its own, unless more than 4096 leases expired with it. */
  lemma ExpiryLeavesTombstone(n: Node, env: Env, k: Key)
    requires NodeOk(n) && EnvOk(n, env) && SweepPhase(n, env).Some? && k in n.mem.ledger.leases && !Live(n.mem, k, env.now)
    ensures
      var l, l' := n.mem.ledger, SweepPhase(n, env).value.mem.ledger;
      && (|env.order| <= 4096 ==> k in l'.tombstones)
      && (k in l'.tombstones ==>
            && l.sequence < l'.tombstones[k].sequence <= l'.sequence
            && l'.tombstones[k] == Tombstone(k.profile, k.slot, l.leases[k].leaseId, Expired, "", l'.tombstones[k].sequence))
  {
    hide ValidLedger, LeasesOk, DemandOk, Compact, Swept, Live, Distinct;
    var l, order := n.mem.ledger, env.order;
    DueIsExpired(n.mem, env.now);
    assert k in Elements(order) && Elements(order) <= l.leases.Keys;
    ValidLeases(l);
    SweptEntryContent(l, order, k);
    CompactEntry(Swept(l, order, Expired), k);
    SweptWithin(l, order, Expired, k, 0);
    if |order| <= MAX_TOMBSTONES { CompactKeeps(Swept(l, order, Expired), k, |order| - 1); }
  }

  lemma ValidLeases(l: Ledger)
    requires ValidLedger(l)
    ensures LeasesOk(l)
  {
    hide LeasesOk, PolicyOk, TombstonesOk, FencesOk;
  }

  /** The slot is leased, or left a tombstone and fewer than `count` have been recorded after it. */
  ghost predicate Remembered(l: Ledger, k: Key, count: nat) {
    k in l.leases || KeptWithin(l.tombstones, k, count - 1)
  }

  lemma SweepRemembers(l: Ledger, e: Edit, k: Key, count: nat)
    requires ValidLedger(l) && Enabled(l, e) && e.Sweep? && Remembered(l, k, count)
    requires count + |e.order| <= MAX_TOMBSTONES
    ensures Remembered(Apply(l, e), k, count + |e.order|)
  {
    hide ValidLedger, Compact, Swept, KeptWithin;
    assert forall j :: j in e.order <==> j in Elements(e.order);
    if k in e.order || k !in l.leases {
      if k in e.order {
        SweptWithin(l, e.order, e.reason, k, count);
      } else {
        assert KeptWithin(l.tombstones, k, count - 1) ==> count >= 1 by { KeptIsCounted(l.tombstones, k, count - 1); }
        SweptWithin(l, e.order, e.reason, k, count - 1);
      }
      CompactKeeps(Swept(l, e.order, e.reason), k, count + |e.order| - 1);
    }
  }

  lemma KeptIsCounted(ts: TombstoneMap, k: Key, count: int)
    ensures KeptWithin(ts, k, count) ==> count >= 0
  {}

  lemma RemoveRemembers(l: Ledger, e: Edit, k: Key, count: nat)
    requires ValidLedger(l) && Enabled(l, e) && e.Remove? && Remembered(l, k, count) && count < MAX_TOMBSTONES
    ensures Remembered(Apply(l, e), k, count + 1)
  {
    hide ValidLedger, Apply, Compact, Newer;
    var entry := Tombstone(e.key.profile, e.key.slot, l.leases[e.key].leaseId, e.reason, e.evidence, l.sequence + 1);
    RemoveParts(l, e);
    if e.key == k {
      EntombedIsNewest(l, k, entry);
      NewestIsWithin(l.tombstones[k := entry], k, count);
      CompactKeeps(l.tombstones[k := entry], k, count);
    } else if k !in l.leases {
      AddedAreNewer(l.tombstones, l.tombstones[e.key := entry], k, {e.key}, count - 1);
      CompactKeeps(l.tombstones[e.key := entry], k, count);
    }
  }

  lemma EntombedIsNewest(l: Ledger, k: Key, entry: Tombstone)
    requires ValidLedger(l) && entry.sequence == l.sequence + 1
    ensures
      var ts := l.tombstones[k := entry];
      forall j :: j in ts ==> ts[j].sequence <= ts[k].sequence
  {
    hide LeasesOk, FencesOk, PolicyOk, DecisionOk;
  }

  lemma NewestIsWithin(ts: TombstoneMap, k: Key, count: nat)
    requires k in ts && forall j :: j in ts ==> ts[j].sequence <= ts[k].sequence
    ensures KeptWithin(ts, k, count)
  {
    assert Newer(ts, k) == {};
  }

  lemma OtherRemembers(l: Ledger, e: Edit, k: Key, count: nat)
    requires Enabled(l, e) && !e.Sweep? && !e.Remove? && !TakesSlot(e, k) && Remembered(l, k, count)
    ensures Remembered(Apply(l, e), k, count)
  {
    hide Compact, Swept, HasRoom, ValidPolicy, Accounted, Newer;
    if k !in l.leases { AddedAreNewer(l.tombstones, Apply(l, e).tombstones, k, {}, count - 1); }
  }

  lemma {:induction false} RememberedPath(l: Ledger, es: seq<Edit>, k: Key)
    requires ValidLedger(l) && AllEnabled(l, es) && k in l.leases && Recorded(es) <= MAX_TOMBSTONES
    requires forall e :: e in es ==> !TakesSlot(e, k)
    ensures Remembered(After(l, es), k, Recorded(es))
    decreases |es|
  {
    hide ValidLedger, Enabled, Apply, Remembered, TakesSlot;
    if es == [] {
      LeasedIsRemembered(l, k);
    } else {
      var front, last := es[..|es| - 1], es[|es| - 1];
      assert last in es && forall e :: e in front ==> e in es;
      RememberedPath(l, front, k);
      PathKeepsValid(l, front);
      match last
      case Sweep(_, _) => SweepRemembers(After(l, front), last, k, Recorded(front));
      case Remove(_, _, _) => RemoveRemembers(After(l, front), last, k, Recorded(front));
      case _ => OtherRemembers(After(l, front), last, k, Recorded(front));
    }
  }

  lemma LeasedIsRemembered(l: Ledger, k: Key)
    requires k in l.leases
    ensures Remembered(l, k, 0)
  {}

  /** The slot has neither a lease nor a tombstone. */
  ghost predicate Unknown(l: Ledger, k: Key) {
    k !in l.leases && k !in l.tombstones
  }

  lemma UnknownStep(l: Ledger, e: Edit, k: Key)
    requires ValidLedger(l) && Enabled(l, e) && !TakesSlot(e, k) && Unknown(l, k)
    ensures Unknown(Apply(l, e), k)
  {
    hide ValidLedger, HasRoom, ValidPolicy, Accounted, Compact, Swept;
    match e
    case Sweep(order, reason) =>
      assert k !in order;
      CompactEntry(Swept(l, order, reason), k);
      SweptEntries(l, order, reason);
    case Remove(j, reason, evidence) =>
      CompactEntry(l.tombstones[j := Tombstone(j.profile, j.slot, l.leases[j].leaseId, reason, evidence, l.sequence + 1)], k);
    case _ =>
  }

  lemma {:induction false} UnknownPath(l: Ledger, es: seq<Edit>, k: Key)
    requires ValidLedger(l) && AllEnabled(l, es) && Unknown(l, k) && forall e :: e in es ==> !TakesSlot(e, k)
    ensures Unknown(After(l, es), k)
    decreases |es|
  {
    hide ValidLedger, Enabled, Apply, Unknown, TakesSlot;
    if es != [] {
      var front, last := es[..|es| - 1], es[|es| - 1];
      assert last in es && forall e :: e in front ==> e in es;
      UnknownPath(l, front, k);
      PathKeepsValid(l, front);
      UnknownStep(After(l, front), last, k);
    }
  }

  // ---------------------------------------------------------------------
  // Runs

  /** A successful Acquire or Adopt leaves its slot leased. */
  lemma TakenIsLeased(t: Trace, m: nat, k: Key)
    requires ValidTrace(t) && m < |t.events| && t.events[m].Do? && !ReplyAt(t, m).outcome.Failed?
    requires t.events[m].command == CmdAdopt(k) || (t.events[m].command.CmdAcquire? && t.events[m].command.key == k)
    ensures k in LedgerOf(t.hosts[m + 1]).leases
  {
    hide NodeOk, EnvOk, PolicyOk, Acquire, Adopt, VerdictFor, Knows, Sweeps, ValidKey;
    assert StepAt(t, m);
    EveryHostOk(t, m);
    var n, c, env := NodeOf(t.hosts[m]), t.events[m].command, t.events[m].env;
    if c.CmdAdopt? { AdoptAnswers(n, k, env); } else { AcquireAnswers(n, k, c.pending, env); }
  }

  /** A slot that is free at every moment of a stretch was not handed out in it. */
  lemma FreeSlotIsNotTaken(t: Trace, i: nat, j: nat, k: Key)
    requires ValidTrace(t) && i <= j <= |t.events| && forall m :: i < m <= j ==> k !in LedgerOf(t.hosts[m]).leases
    ensures |t.hosts[i].history| <= |t.hosts[j].history|
    ensures forall e :: e in Between(t, i, j) ==> !TakesSlot(e, k)
  {
    hide HostOk, Next, Possible, AllEnabled, ReplyAt;
    RunIsPath(t, i, j);
    forall e | e in Between(t, i, j) ensures !TakesSlot(e, k) {
      EditsComeFromEvents(t, i, j, e);
      var m :| i <= m < j && CausedBy(t, m, e);
      if TakesSlot(e, k) { TakenIsLeased(t, m, k); }
    }
  }

  /** Event j asks to remove k, by Release or by Reconcile with accepted evidence, and its sweep goes through. */
  ghost predicate AsksRemoval(t: Trace, j: nat, k: Key)
    requires ValidTrace(t) && j < |t.events|
  {
    && t.events[j].Do? && ValidKey(k)
    && (t.events[j].command == CmdRelease(k)
        || (t.events[j].command.CmdReconcile? && t.events[j].command.key == k && t.events[j].command.evidence.Some?))
    && t.hosts[j].memory.Some? && Sweeps(t.hosts[j].memory.value, t.events[j].env)
  }

  lemma RemovalReply(t: Trace, j: nat, k: Key)
    requires ValidTrace(t) && j < |t.events| && AsksRemoval(t, j, k) && k !in LedgerOf(t.hosts[j]).leases
    ensures
      var l' := LedgerOf(t.hosts[j + 1]);
      && k !in l'.leases
      && ReplyAt(t, j).outcome == if k in l'.tombstones then Done else Failed(LeaseNotFound)
  {
    hide NodeOk, EnvOk, PolicyOk, Release, Reconcile, Sweeps, ValidKey;
    assert StepAt(t, j);
    EveryHostOk(t, j);
    var n, c, env := NodeOf(t.hosts[j]), t.events[j].command, t.events[j].env;
    if c.CmdRelease? { ReleaseAnswers(n, k, env); } else { ReconcileAnswers(n, k, c.evidence, env); }
  }

  /**
   A slot that left the ledger during event i, by release, reconciliation, expiry or a
   restart, answers a later removal as done, if it was not leased again and at most
   4096 tombstones, its own included, have been recorded since.
   */
  lemma RepeatedRemovalSucceeds(t: Trace, i: nat, j: nat, k: Key)
    requires ValidTrace(t) && i < j < |t.events| && AsksRemoval(t, j, k)
    requires k in LedgerOf(t.hosts[i]).leases && forall m :: i < m <= j ==> k !in LedgerOf(t.hosts[m]).leases
    requires |t.hosts[i].history| <= |t.hosts[j + 1].history| && Recorded(Between(t, i, j + 1)) <= 4096
    ensures ReplyAt(t, j).outcome == Done
  {
    hide StepAt, HostOk, ReplyAt, AllEnabled, AsksRemoval, ValidLedger, TakesSlot;
    RemovalReply(t, j, k);
    FreeSlotIsNotTaken(t, i, j + 1, k);
    RunIsPath(t, i, j + 1);
    LedgerValidAt(t, i);
    RememberedPath(LedgerOf(t.hosts[i]), Between(t, i, j + 1), k);
  }

  /** Removing a slot that no moment of the run ever leased gives LeaseNotFound. */
  lemma NeverLeasedIsNotFound(t: Trace, j: nat, k: Key)
    requires ValidTrace(t) && j < |t.events| && AsksRemoval(t, j, k)
    requires forall m :: 0 <= m <= j ==> k !in LedgerOf(t.hosts[m]).leases
    ensures ReplyAt(t, j).outcome == Failed(LeaseNotFound)
  {
    hide StepAt, HostOk, ReplyAt, AllEnabled, AsksRemoval, ValidLedger, TakesSlot;
    RemovalReply(t, j, k);
    FreeSlotIsNotTaken(t, 0, j + 1, k);
    RunIsPath(t, 0, j + 1);
    LedgerValidAt(t, 0);
    UnknownPath(LedgerOf(t.hosts[0]), Between(t, 0, j + 1), k);
  }

  /** The last moment up to j at which the slot was leased, if there is one. */
  lemma {:induction false} LastLeased(t: Trace, j: nat, k: Key) returns (i: nat)
    requires ValidTrace(t) && j <= |t.events| && exists m :: 0 <= m <= j && k in LedgerOf(t.hosts[m]).leases
    ensures i <= j && k in LedgerOf(t.hosts[i]).leases
    ensures forall m :: i < m <= j ==> k !in LedgerOf(t.hosts[m]).leases
  {
    hide StepAt;
    i := j;
    if k !in LedgerOf(t.hosts[j]).leases { i := LastLeased(t, j - 1, k); }
  }

  lemma {:induction false} RecordedSuffix(a: seq<Edit>, b: seq<Edit>)
    ensures Recorded(a + b) == Recorded(a) + Recorded(b)
  {
    if b == [] {
      assert a + b == a;
    } else {
      RecordedSuffix(a, b[..|b| - 1]);
      assert (a + b)[..|a + b| - 1] == a + b[..|b| - 1];
    }
  }

  /**
   As long as the run has recorded at most 4096 tombstones, removing a slot without a
   lease succeeds if and only if some earlier moment leased it, else it is LeaseNotFound.
   */
  lemma RemovalKnowsThePast(t: Trace, j: nat, k: Key)
    requires ValidTrace(t) && j < |t.events| && AsksRemoval(t, j, k) && k !in LedgerOf(t.hosts[j]).leases
    requires Recorded(t.hosts[j + 1].history) <= 4096
    ensures
      ReplyAt(t, j).outcome ==
        if exists m :: 0 <= m < j && k in LedgerOf(t.hosts[m]).leases then Done else Failed(LeaseNotFound)
  {
    hide StepAt, ReplyAt, AsksRemoval, HostOk, AllEnabled, Recorded;
    if m :| 0 <= m < j && k in LedgerOf(t.hosts[m]).leases {
      var i := LastLeased(t, j, k);
      RunIsPath(t, i, j + 1);
      var h, h' := t.hosts[i].history, t.hosts[j + 1].history;
      RecordedSuffix(h, h'[|h|..]);
      assert h' == h + h'[|h|..];
      RepeatedRemovalSucceeds(t, i, j, k);
    } else {
      NeverLeasedIsNotFound(t, j, k);
    }
  }
}
