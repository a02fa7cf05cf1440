/**
 The loops behind the coordinator's decisions: per-profile holdings, protected
 reservations, the contender list, fair shares, tombstone compaction and the
 document check, each proved against its definition on values.
 */
module Tallies {
  import opened Identity
  import opened Ordering
  import opened FairShare
  import opened Policy
  import opened Sums
  import opened Leases
  import opened Admission
  import opened Ledgers

  method HeldUnitsByProfile(leases: LeaseMap) returns (held: map<string, int>)
    ensures held == HeldMap(leases)
  {
    hide HeldMap;
    held := map[];
    var rest := leases.Keys;
    assert HeldMap(map[]) == map[] by { EmptyHoldings(); }
    assert leases - rest == map[];
    while rest != {}
      invariant rest <= leases.Keys
      invariant held == HeldMap(leases - rest)
      decreases rest
    {
      var k :| k in rest;
      var lease := leases[k];
      HeldMapPut(leases - rest, k, lease);
      assert (leases - rest)[k := lease] == leases - (rest - {k});
      held := held[lease.profileId := At(held, lease.profileId) + lease.units];
      rest := rest - {k};
    }
    assert leases - rest == leases;
  }

  lemma EmptyHoldings()
    ensures HeldMap(map[]) == map[]
  {}

  method TotalUnits(held: map<string, int>) returns (total: int)
    ensures total == MapSum(held)
  {
    total := 0;
    var rest := held.Keys;
    assert held - rest == map[];
    while rest != {}
      invariant rest <= held.Keys
      invariant total == MapSum(held - rest)
      decreases rest
    {
      var p :| p in rest;
      MapSumPut(held - rest, p, held[p]);
      assert (held - rest)[p := held[p]] == held - (rest - {p});
      total := total + held[p];
      rest := rest - {p};
    }
    assert held - rest == held;
  }

  method ProtectedNonBorrowable(profiles: seq<ProfilePolicy>, requester: string, held: map<string, int>)
    returns (protected: int)
    ensures protected == Protected(profiles, requester, held)
  {
    protected := 0;
    for i := 0 to |profiles|
      invariant protected == Protected(profiles[..i], requester, held)
    {
      var other := profiles[i];
      assert profiles[..i + 1][..i] == profiles[..i];
      if other.profileId != requester && !other.borrowable {
        protected := protected + Max(other.reservedUnits - At(held, other.profileId), 0);
      }
    }
    assert profiles[..|profiles|] == profiles;
  }

  method ContendersOf(policy: HostPolicy, demand: map<string, int>) returns (ids: seq<string>)
    ensures ids == Contenders(policy, demand)
  {
    var collected: set<string>, rest := {}, demand.Keys;
    while rest != {}
      invariant rest <= demand.Keys
      invariant collected == set id | id in demand && id !in rest && demand[id] > 0 && Knows(policy, id)
      decreases rest
    {
      var id :| id in rest;
      if demand[id] > 0 {
        var known := FindProfile(policy, id);
        if known.Some? { collected := collected + {id}; }
      }
      rest := rest - {id};
    }
    assert collected == set id | id in demand && demand[id] > 0 && Knows(policy, id);
    ids := SortStrings(collected);
  }

  /** What the requester may take of `available` units, and how many contend for them. */
  method FairAllocatableUnits(
    policy: HostPolicy, demand: map<string, int>, held: map<string, int>, rotation: nat,
    requester: string, available: nat) returns (allocatable: nat, contenders: nat)
    ensures contenders == |Contenders(policy, demand)|
    ensures allocatable == FairUnits(Contenders(policy, demand), policy, held, rotation, requester, available)
  {
    hide Contenders;
    var ids := ContendersOf(policy, demand);
    contenders := |ids|;
    if contenders == 0 { return available, 0; }
    ghost var shared, own := SharedHoldings(ids, policy, held), IndexOf(ids, requester);
    ContendersDistinct(policy, demand);
    var protected: nat := 0;
    for i := 0 to |ids|
      invariant protected == Withheld(shared, own, rotation, available, i)
    {
      IndexOfDistinct(ids, requester, i);
      if ids[i] != requester {
        var guarantee := Share(|ids|, rotation, i, available);
        var otherShared: nat := Max(At(held, ids[i]) - ReservedOf(policy, ids[i]), 0);
        if otherShared < guarantee { protected := protected + guarantee - otherShared; }
      }
    }
    allocatable := Max(available - protected, 0);
  }

  lemma IndexOfDistinct(s: seq<string>, x: string, i: nat)
    requires Distinct(s) && i < |s|
    ensures s[i] == x <==> IndexOf(s, x) == i
  {}

  /** The admission decision, computed as the coordinator does. */
  method Evaluate(
    policy: HostPolicy, demand: map<string, int>, rotation: nat, p: ProfilePolicy, held: map<string, int>)
    returns (verdict: Verdict)
    requires p.unitCost >= 1
    ensures verdict == Decide(policy, Contenders(policy, demand), rotation, p, held)
  {
    hide Contenders, MapSum, Protected, FairUnits;
    var total := TotalUnits(held);
    var free := policy.totalUnits - total;
    if free < p.unitCost { return Refuse(BudgetExhausted); }
    if Max(p.reservedUnits - At(held, p.profileId), 0) >= p.unitCost { return Admit(0); }
    var protected := ProtectedNonBorrowable(policy.profiles, p.profileId, held);
    var available := free - protected;
    if available < p.unitCost { return Refuse(ProtectedReservation); }
    var allocatable, contenders := FairAllocatableUnits(policy, demand, held, rotation, p.profileId, available);
    if allocatable < p.unitCost { return Refuse(FairShareContention); }
    return Admit(contenders);
  }

  // ---------------------------------------------------------------------
  // Tombstones

  ghost predicate NewestFirst(ts: TombstoneMap, entries: seq<Key>) {
    && (forall i :: 0 <= i < |entries| ==> entries[i] in ts)
    && (forall i, j :: 0 <= i < j < |entries| ==> ts[entries[i]].sequence > ts[entries[j]].sequence)
  }

  /** Places one entry among those already sorted. */
  method InsertEntry(ts: TombstoneMap, entries: seq<Key>, k: Key) returns (r: seq<Key>)
    requires NewestFirst(ts, entries) && k in ts
    requires forall j :: j in entries ==> ts[j].sequence != ts[k].sequence
    ensures NewestFirst(ts, r) && Elements(r) == Elements(entries) + {k} && |r| == |entries| + 1
  {
    var i := 0;
    while i < |entries| && ts[entries[i]].sequence > ts[k].sequence
      invariant 0 <= i <= |entries|
      invariant forall j :: 0 <= j < i ==> ts[entries[j]].sequence > ts[k].sequence
    {
      i := i + 1;
    }
    assert i < |entries| ==> entries[i] in entries;
    InsertKeepsOrder(ts, entries, k, i);
    InsertElements(entries, k, i);
    r := entries[..i] + [k] + entries[i..];
  }

  lemma InsertKeepsOrder(ts: TombstoneMap, entries: seq<Key>, k: Key, i: nat)
    requires NewestFirst(ts, entries) && k in ts && i <= |entries|
    requires forall j :: 0 <= j < i ==> ts[entries[j]].sequence > ts[k].sequence
    requires i < |entries| ==> ts[k].sequence > ts[entries[i]].sequence
    ensures NewestFirst(ts, entries[..i] + [k] + entries[i..])
  {
    var r := entries[..i] + [k] + entries[i..];
    assert forall j :: 0 <= j < |r| ==> r[j] == if j < i then entries[j] else if j == i then k else entries[j - 1];
    assert forall j :: i < j < |entries| ==> ts[entries[i]].sequence > ts[entries[j]].sequence;
  }

  lemma InsertElements(entries: seq<Key>, k: Key, i: nat)
    requires i <= |entries|
    ensures Elements(entries[..i] + [k] + entries[i..]) == Elements(entries) + {k}
  {
    assert entries == entries[..i] + entries[i..];
  }

  /** The tombstones of the listed keys. */
  ghost function Listed(ts: TombstoneMap, keys: seq<Key>): TombstoneMap {
    map k | k in keys && k in ts :: ts[k]
  }

  lemma ListedGrows(ts: TombstoneMap, entries: seq<Key>, i: nat)
    requires i < |entries| && entries[i] in ts
    ensures Listed(ts, entries[..i + 1]) == Listed(ts, entries[..i])[entries[i] := ts[entries[i]]]
  {
    assert entries[..i + 1] == entries[..i] + [entries[i]];
  }

  method SortNewestFirst(ts: TombstoneMap) returns (entries: seq<Key>)
    requires DistinctSequences(ts)
    ensures NewestFirst(ts, entries) && Elements(entries) == ts.Keys && |entries| == |ts|
  {
    entries := [];
    var rest := ts.Keys;
    while rest != {}
      invariant rest <= ts.Keys && NewestFirst(ts, entries)
      invariant Elements(entries) == ts.Keys - rest && |entries| + |rest| == |ts.Keys|
      decreases rest
    {
      var k :| k in rest;
      assert forall j :: j in entries ==> j in Elements(entries);
      entries := InsertEntry(ts, entries, k);
      rest := rest - {k};
    }
    assert |ts.Keys| == |ts|;
  }

  /** In the sorted list, an entry's newer entries are those in front of it. */
  lemma RankIsIndex(ts: TombstoneMap, entries: seq<Key>, i: nat)
    requires NewestFirst(ts, entries) && Elements(entries) == ts.Keys && i < |entries|
    ensures |Newer(ts, entries[i])| == i
  {
    assert Newer(ts, entries[i]) == Elements(entries[..i]) by {
      forall j ensures j in Newer(ts, entries[i]) <==> j in Elements(entries[..i]) {
        if j in ts {
          assert j in Elements(entries);
          var x :| 0 <= x < |entries| && entries[x] == j;
        }
      }
    }
    EnumerationSize(entries[..i]);
  }

  /** Trims to the newest MAX_TOMBSTONES entries by sorting. */
  method CompactTombstones(ts: TombstoneMap) returns (trimmed: TombstoneMap)
    requires DistinctSequences(ts)
    ensures trimmed == Compact(ts)
  {
    hide Compact, Listed;
    FewAreKept(ts);
    if |ts| <= MAX_TOMBSTONES { return ts; }
    var entries := SortNewestFirst(ts);
    trimmed := map[];
    assert Listed(ts, entries[..0]) == map[] by { NothingListed(ts); }
    for i := 0 to MAX_TOMBSTONES
      invariant trimmed == Listed(ts, entries[..i])
    {
      ListedGrows(ts, entries, i);
      trimmed := trimmed[entries[i] := ts[entries[i]]];
    }
    FirstEntriesAreKept(ts, entries);
  }

  lemma FewAreKept(ts: TombstoneMap)
    ensures |ts| <= MAX_TOMBSTONES ==> Compact(ts) == ts
  {}

  lemma NothingListed(ts: TombstoneMap)
    ensures Listed(ts, []) == map[]
  {}

  lemma FirstEntriesAreKept(ts: TombstoneMap, entries: seq<Key>)
    requires |ts| > MAX_TOMBSTONES && NewestFirst(ts, entries) && Elements(entries) == ts.Keys && |entries| == |ts|
    ensures Listed(ts, entries[..MAX_TOMBSTONES]) == Compact(ts)
  {
    hide Newer;
    forall k | k in ts ensures k in entries[..MAX_TOMBSTONES] <==> |Newer(ts, k)| < MAX_TOMBSTONES {
      assert k in Elements(entries);
      var x :| 0 <= x < |entries| && entries[x] == k;
      RankIsIndex(ts, entries, x);
      if k in entries[..MAX_TOMBSTONES] {
        var y :| 0 <= y < MAX_TOMBSTONES && entries[y] == k;
        RankIsIndex(ts, entries, y);
      }
    }
    assert forall k :: k in entries[..MAX_TOMBSTONES] ==> k in entries && k in Elements(entries);
  }

  // ---------------------------------------------------------------------
  // Adoption fences

  method ActiveLeaseSlotKeys(leases: LeaseMap, profile: string) returns (keys: seq<string>)
    ensures keys == SortedView(ActiveSlots(leases, profile))
  {
    var collected: set<string>, rest := {}, leases.Keys;
    while rest != {}
      invariant rest <= leases.Keys
      invariant collected == ActiveSlots(leases - rest, profile)
      decreases rest
    {
      var k :| k in rest;
      var lease := leases[k];
      assert (leases - (rest - {k})) == (leases - rest)[k := lease];
      ActiveSlotsPut(leases - rest, k, lease, profile);
      if lease.profileId == profile && lease.status.Active? { collected := collected + {lease.slotKey}; }
      rest := rest - {k};
    }
    assert leases - rest == leases;
    keys := SortStrings(collected);
  }

  lemma ActiveSlotsPut(ls: LeaseMap, k: Key, lease: Lease, profile: string)
    requires k !in ls
    ensures
      ActiveSlots(ls[k := lease], profile) ==
        ActiveSlots(ls, profile) + if lease.profileId == profile && lease.status.Active? then {lease.slotKey} else {}
  {
    var after := ls[k := lease];
    forall s | s in ActiveSlots(ls, profile) ensures s in ActiveSlots(after, profile) {
      var j :| j in ls && ls[j].profileId == profile && ls[j].status.Active? && ls[j].slotKey == s;
      assert after[j] == ls[j];
    }
    assert after[k] == lease;
  }

  /** Binary-search removal from the pending list agrees with removal of the slot from the set. */
  method MarkAccounted(fences: map<string, AdoptionFence>, k: Key) returns (marked: map<string, AdoptionFence>, changed: bool)
    requires k.profile in fences ==> StrictlySorted(fences[k.profile].pending)
    ensures marked == Accounted(fences, k)
    ensures changed <==> k.profile in fences && k.slot in fences[k.profile].pending
    ensures
      k.profile in fences ==>
        Elements(marked[k.profile].pending) == Elements(fences[k.profile].pending) - {k.slot}
  {
    if k.profile !in fences { return fences, false; }
    var pending := fences[k.profile].pending;
    WithoutElements(pending, k.slot);
    var index := SearchStrings(pending, k.slot);
    if index >= |pending| || pending[index] != k.slot {
      WithoutAbsent(pending, k.slot);
      assert fences[k.profile := fences[k.profile].(pending := pending)] == fences;
      return fences, false;
    }
    CutIsWithout(pending, index);
    marked := fences[k.profile := fences[k.profile].(pending := pending[..index] + pending[index + 1..])];
    changed := true;
  }

  // ---------------------------------------------------------------------
  // The document check

  predicate LeaseAccepted(l: Ledger, k: Key)
    requires k in l.leases
  {
    var lease := l.leases[k];
    && k == Key(lease.profileId, lease.slotKey)
    && lease.profileId != "" && lease.slotKey != "" && lease.units >= 1
    && (lease.registrationName == "" || ValidRegistrationName(lease.registrationName))
  }

  ghost predicate FenceAccepted(l: Ledger, p: string)
    requires p in l.fences
  {
    && p == l.fences[p].profileId && ValidProfileId(p) && Knows(l.policy, p)
    && Distinct(l.fences[p].pending)
    && forall s :: s in l.fences[p].pending ==>
         ValidSlotKey(s) && Key(p, s) in l.leases && l.leases[Key(p, s)].status.Active?
  }

  method CheckLeases(l: Ledger) returns (ok: bool)
    ensures ok <==> forall k :: k in l.leases ==> LeaseAccepted(l, k) && k !in l.tombstones
  {
    var rest := l.leases.Keys;
    while rest != {}
      invariant rest <= l.leases.Keys
      invariant forall k :: k in l.leases && k !in rest ==> LeaseAccepted(l, k) && k !in l.tombstones
      decreases rest
    {
      var k :| k in rest;
      if !LeaseAccepted(l, k) || k in l.tombstones { return false; }
      rest := rest - {k};
    }
    ok := true;
  }

  method CheckTombstones(ts: TombstoneMap) returns (ok: bool)
    ensures ok <==> forall k :: k in ts ==> k == Key(ts[k].profileId, ts[k].slotKey)
  {
    var rest := ts.Keys;
    while rest != {}
      invariant rest <= ts.Keys
      invariant forall k :: k in ts && k !in rest ==> k == Key(ts[k].profileId, ts[k].slotKey)
      decreases rest
    {
      var k :| k in rest;
      if k != Key(ts[k].profileId, ts[k].slotKey) { return false; }
      rest := rest - {k};
    }
    ok := true;
  }

  method CheckFence(l: Ledger, p: string) returns (ok: bool)
    requires p in l.fences
    ensures ok <==> FenceAccepted(l, p)
  {
    var fence := l.fences[p];
    if p != fence.profileId || !ValidProfileId(p) { return false; }
    var known := FindProfile(l.policy, p);
    if known.None? { return false; }
    var seen: set<string> := {};
    for i := 0 to |fence.pending|
      invariant seen == Elements(fence.pending[..i]) && Distinct(fence.pending[..i])
      invariant forall j :: 0 <= j < i ==>
        ValidSlotKey(fence.pending[j]) && Key(p, fence.pending[j]) in l.leases
        && l.leases[Key(p, fence.pending[j])].status.Active?
    {
      var s := fence.pending[i];
      if !ValidSlotKey(s) { return false; }
      if s in seen { return false; }
      assert s !in fence.pending[..i];
      seen := seen + {s};
      assert fence.pending[..i + 1] == fence.pending[..i] + [s];
      if Key(p, s) !in l.leases || !l.leases[Key(p, s)].status.Active? { return false; }
    }
    assert fence.pending[..|fence.pending|] == fence.pending;
    ok := true;
  }

  method CheckFences(l: Ledger) returns (ok: bool)
    ensures ok <==> forall p :: p in l.fences ==> FenceAccepted(l, p)
  {
    hide FenceAccepted;
    var rest := l.fences.Keys;
    while rest != {}
      invariant rest <= l.fences.Keys
      invariant forall p :: p in l.fences && p !in rest ==> FenceAccepted(l, p)
      decreases rest
    {
      var p :| p in rest;
      var fenceOk := CheckFence(l, p);
      if !fenceOk { return false; }
      rest := rest - {p};
    }
    ok := true;
  }

  /** The structural check every reload performs. */
  method CheckDocument(l: Ledger) returns (ok: bool)
    ensures ok <==> Accepts(l)
  {
    hide ValidPolicy, FenceAccepted, LeaseAccepted;
    AcceptsInParts(l);
    if l.policy.generation > 0 {
      ok := Validate(l.policy);
      if !ok { return false; }
    }
    ok := CheckLeases(l);
    if !ok { return false; }
    ok := CheckTombstones(l.tombstones);
    if !ok { return false; }
    ok := CheckFences(l);
    if !ok { return false; }
    ok := l.lastDecision.None? || ValidProfileId(l.lastDecision.value.profileId);
  }

  lemma AcceptsInParts(l: Ledger)
    ensures Accepts(l) <==>
      && (l.policy.generation > 0 ==> ValidPolicy(l.policy))
      && (forall k :: k in l.leases ==> LeaseAccepted(l, k) && k !in l.tombstones)
      && (forall k :: k in l.tombstones ==> k == Key(l.tombstones[k].profileId, l.tombstones[k].slotKey))
      && (forall p :: p in l.fences ==> FenceAccepted(l, p))
      && (l.lastDecision.Some? ==> ValidProfileId(l.lastDecision.value.profileId))
  {
    hide ValidPolicy, Distinct, Knows;
  }
}
