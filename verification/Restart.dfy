/**
 Crash and restart: whatever was in memory at the crash comes back, with the
 provisional leases turned into tombstones and everything else unchanged.
 */
module Restart {
  import opened Identity
  import opened Ordering
  import opened Leases
  import opened Ledgers
  import opened Commands
  import opened Invariants
  import opened Runs
  import opened Lifetimes

  /** The tombstone that the discard at position i of the order leaves. */
  function DiscardTombstone(l: Ledger, k: Key, i: nat): Tombstone
    requires k in l.leases
  {
    SweptTombstone(l.leases[k], RestartDiscarded, l.sequence + 1 + i)
  }

  /**
   `after` is `before` with the provisional leases in `order` discarded: active
   leases, fences, policy, epoch and last decision are the same, the newest
   MAX_TOMBSTONES of the discarded leases have a tombstone with their identity, and
   an earlier tombstone stays exactly when fewer than MAX_TOMBSTONES are newer,
   the discarded leases included.
   */
  ghost predicate Discarded(before: Ledger, after: Ledger, order: seq<Key>) {
    && Enumerates(order, ProvisionalKeys(before.leases))
    && after.policy == before.policy && after.epoch == before.epoch
    && after.fences == before.fences && after.lastDecision == before.lastDecision
    && after.sequence == before.sequence + |order|
    && after.leases == (map k | k in before.leases && before.leases[k].status.Active? :: before.leases[k])
    && (forall k :: EntryAfterDiscard(before, after.tombstones, order, k))
  }

  /** What the discard leaves under key k. */
  ghost predicate EntryAfterDiscard(before: Ledger, ts: TombstoneMap, order: seq<Key>, k: Key) {
    && (k in order ==> (k in ts <==> Position(order, k) + 4096 >= |order|))
    && (k in order && k in ts ==> k in before.leases && ts[k] == DiscardTombstone(before, k, Position(order, k)))
    && (k !in order ==>
          (k in ts <==> k in before.tombstones && |Newer(before.tombstones, k)| + |order| < 4096))
    && (k in ts && k !in order ==> k in before.tombstones && ts[k] == before.tombstones[k])
  }

  lemma DistinctPosition(order: seq<Key>, i: nat)
    requires Distinct(order) && i < |order|
    ensures Position(order, order[i]) == i
  {}

  /** Among the discarded, a later position is a newer tombstone, and all older ones are older still. */
  lemma NewerThan(l: Ledger, order: seq<Key>, i: nat, j: Key)
    requires NumberedUpTo(l.tombstones, l.sequence) && Distinct(order) && Elements(order) <= l.leases.Keys && i < |order|
    ensures
      var ts := Swept(l, order, RestartDiscarded);
      && order[i] in ts
      && (j in ts && ts[j].sequence > ts[order[i]].sequence <==> j in order && Position(order, j) > i)
  {
    hide DistinctSequences, Position, Distinct;
    assert order[i] in Elements(order) && (j in order <==> j in Elements(order));
    DistinctPosition(order, i);
  }

  lemma LaterInOrder(order: seq<Key>, i: nat, j: Key)
    requires Distinct(order) && i < |order|
    ensures j in order[i + 1..] <==> j in order && Position(order, j) > i
  {
    hide Position;
    if j in order[i + 1..] {
      var x :| i + 1 <= x < |order| && order[x] == j;
      DistinctPosition(order, x);
    }
    if j in order && Position(order, j) > i {
      assert order[i + 1..][Position(order, j) - i - 1] == j;
    }
  }

  /** The tombstones newer than a discarded lease's are those discarded after it. */
  lemma NewerDiscards(l: Ledger, order: seq<Key>, k: Key)
    requires NumberedUpTo(l.tombstones, l.sequence) && Distinct(order) && Elements(order) <= l.leases.Keys && k in order
    ensures
      var ts := Swept(l, order, RestartDiscarded);
      k in ts && Newer(ts, k) == Elements(order[Position(order, k) + 1..])
  {
    hide Swept, NumberedUpTo, Distinct;
    var ts, i := Swept(l, order, RestartDiscarded), Position(order, k);
    NewerThan(l, order, i, k);
    forall j ensures j in Newer(ts, k) <==> j in Elements(order[i + 1..]) {
      NewerThan(l, order, i, j);
      LaterInOrder(order, i, j);
    }
  }

  lemma CountAfter(order: seq<Key>, i: nat)
    requires Distinct(order) && i < |order|
    ensures |Elements(order[i + 1..])| == |order| - 1 - i
  {
    EnumerationSize(order[i + 1..]);
  }

  lemma KeptDiscards(l: Ledger, order: seq<Key>, k: Key)
    requires NumberedUpTo(l.tombstones, l.sequence) && Distinct(order) && Elements(order) <= l.leases.Keys && k in order
    ensures
      k in Compact(Swept(l, order, RestartDiscarded)) <==> Position(order, k) + MAX_TOMBSTONES >= |order|
  {
    hide Swept;
    var ts := Swept(l, order, RestartDiscarded);
    NewerDiscards(l, order, k);
    CountAfter(order, Position(order, k));
    if |ts| <= MAX_TOMBSTONES {
      EnumerationSize(order);
      OrderIsSwept(l, order);
      SubsetSize(Elements(order), ts.Keys);
    }
  }

  lemma OrderIsSwept(l: Ledger, order: seq<Key>)
    requires Elements(order) <= l.leases.Keys
    ensures Elements(order) <= Swept(l, order, RestartDiscarded).Keys
  {}

  /** Every discarded lease is newer than an earlier tombstone. */
  lemma NewerThanEarlier(l: Ledger, order: seq<Key>, k: Key)
    requires NumberedUpTo(l.tombstones, l.sequence) && Distinct(order) && Elements(order) <= l.leases.Keys
    requires l.leases.Keys !! l.tombstones.Keys && k in l.tombstones
    ensures
      var ts := Swept(l, order, RestartDiscarded);
      k in ts && |Newer(ts, k)| == |Newer(l.tombstones, k)| + |order|
  {
    hide DistinctSequences, Distinct, Position;
    var ts := Swept(l, order, RestartDiscarded);
    assert forall j :: j in order <==> j in Elements(order);
    assert Newer(ts, k) == Newer(l.tombstones, k) + Elements(order);
    assert Newer(l.tombstones, k) !! Elements(order);
    EnumerationSize(order);
  }

  lemma KeptEarlier(l: Ledger, order: seq<Key>, k: Key)
    requires NumberedUpTo(l.tombstones, l.sequence) && Distinct(order) && Elements(order) <= l.leases.Keys
    requires l.leases.Keys !! l.tombstones.Keys && k in l.tombstones
    ensures
      k in Compact(Swept(l, order, RestartDiscarded)) <==> |Newer(l.tombstones, k)| + |order| < MAX_TOMBSTONES
  {
    hide Swept, NumberedUpTo, Distinct;
    var ts := Swept(l, order, RestartDiscarded);
    NewerThanEarlier(l, order, k);
    NewerIsFewer(ts, k);
  }

  lemma DiscardedTombstone(l: Ledger, order: seq<Key>, k: Key)
    requires NumberedUpTo(l.tombstones, l.sequence) && Distinct(order) && Elements(order) <= l.leases.Keys
    requires l.leases.Keys !! l.tombstones.Keys
    ensures EntryAfterDiscard(l, Compact(Swept(l, order, RestartDiscarded)), order, k)
  {
    hide Position, NumberedUpTo, Newer, Distinct;
    if k in order {
      KeptDiscards(l, order, k);
      assert k in Elements(order);
    } else if k in l.tombstones {
      KeptEarlier(l, order, k);
    }
  }

  lemma ActiveRemain(ls: LeaseMap, order: seq<Key>)
    requires Enumerates(order, ProvisionalKeys(ls))
    ensures ls - Elements(order) == (map k | k in ls && ls[k].status.Active? :: ls[k])
  {
    hide Distinct;
    assert forall k :: k in ls ==> (ls[k].status.Active? <==> k !in Elements(order));
  }

  lemma DiscardIsExact(l: Ledger, order: seq<Key>)
    requires ValidLedger(l) && Enumerates(order, ProvisionalKeys(l.leases))
    ensures Discarded(l, Apply(l, Sweep(order, RestartDiscarded)), order)
  {
    hide LeasesOk, FencesOk, PolicyOk, DecisionOk, Position, NumberedUpTo, Compact, Swept, EntryAfterDiscard, Distinct;
    ActiveRemain(l.leases, order);
    forall k ensures EntryAfterDiscard(l, Compact(Swept(l, order, RestartDiscarded)), order, k) {
      DiscardedTombstone(l, order, k);
    }
  }

  lemma NothingToDiscard(l: Ledger)
    requires ProvisionalKeys(l.leases) == {} && |l.tombstones| <= MAX_TOMBSTONES
    ensures Discarded(l, l, [])
  {
    hide Newer;
    assert l.leases == (map k | k in l.leases && l.leases[k].status.Active? :: l.leases[k]) by {
      assert forall k :: k in l.leases ==> k !in ProvisionalKeys(l.leases);
    }
    assert Elements<Key>([]) == {};
    forall k ensures EntryAfterDiscard(l, l.tombstones, [], k) {
      if k in l.tombstones { NewerIsFewer(l.tombstones, k); }
    }
  }

  lemma NewerIsFewer(ts: TombstoneMap, k: Key)
    requires k in ts
    ensures |Newer(ts, k)| < |ts|
  {
    SubsetSize(Newer(ts, k) + {k}, ts.Keys);
    assert |ts.Keys| == |ts|;
  }

  lemma FewTombstones(l: Ledger)
    requires ValidLedger(l)
    ensures |l.tombstones| <= MAX_TOMBSTONES
  {
    hide LeasesOk, FencesOk, PolicyOk, NumberedUpTo;
  }

  /** A successful start yields the stored ledger with its provisional leases discarded. */
  lemma StartDiscards(h: Host, ttl: int, order: seq<Key>, saved: bool)
    requires HostOk(h) && h.memory.None? && Enumerates(order, ProvisionalKeys(Document(h).leases))
    requires Opened(h, ttl, order, saved).Some?
    ensures
      var h' := Opened(h, ttl, order, saved).value;
      h'.memory.Some? && Discarded(Document(h), LedgerOf(h'), order) && h'.memory.value.deadlines == map[]
  {
    hide ValidLedger, Accepts, Apply, Discarded;
    var l := Document(h);
    if h.stored.None? || ProvisionalKeys(l.leases) == {} {
      EnumerationSize(order);
      FewTombstones(l);
      NothingToDiscard(l);
    } else {
      DiscardIsExact(l, order);
    }
  }

  /** While no process runs, the ledger in force does not change. */
  lemma {:induction false} DownLedgerIsKept(t: Trace, i: nat, j: nat)
    requires ValidTrace(t) && i < j <= |t.events| && t.events[i].Crash?
    requires forall m :: i < m <= j ==> t.hosts[m].memory.None?
    ensures LedgerOf(t.hosts[j]) == LedgerOf(t.hosts[i])
    decreases j
  {
    hide HostOk, Opened, Run, EnvOk, Enumerates;
    assert StepAt(t, j - 1);
    if j == i + 1 {
      LedgerValidAt(t, i);
      DocumentInForce(t.hosts[i]);
    } else {
      DownLedgerIsKept(t, i, j - 1);
      FailedStartKeeps(t.hosts[j - 1], t.events[j - 1]);
    }
  }

  lemma FailedStartKeeps(h: Host, e: Event)
    requires h.memory.None? && Possible(h, e) && Next(h, e).memory.None?
    ensures Next(h, e) == h
  {
    hide Apply, Accepts, Enumerates;
  }

  /**
   From any moment of a run, a crash followed by any number of failed starts and
   one successful start brings back exactly the ledger of that moment with its
   provisional leases discarded.
   */
  lemma RestartRestoresLedger(t: Trace, i: nat, j: nat)
    requires ValidTrace(t) && i < j < |t.events| && t.events[i].Crash? && t.events[j].Open?
    requires forall m :: i < m <= j ==> t.hosts[m].memory.None?
    requires t.hosts[j + 1].memory.Some?
    ensures Discarded(LedgerOf(t.hosts[i]), LedgerOf(t.hosts[j + 1]), t.events[j].order)
  {
    hide ValidLedger, Opened, Discarded, Enumerates;
    DownLedgerIsKept(t, i, j);
    assert StepAt(t, j);
    LedgerValidAt(t, j);
    var e := t.events[j];
    StartDiscards(t.hosts[j], e.ttl, e.order, e.saved);
  }
}
