/**
 The durable ledger: policy, live leases, release tombstones, adoption fences
 and the decision sequence. Every durable change the coordinator makes is one
 of a few guarded edits; this module defines them and proves that each one
 keeps the ledger valid.
 */
module Ledgers {
  import opened Identity
  import opened Ordering
  import opened Policy
  import opened Leases
  import opened Admission

  const MAX_TOMBSTONES: nat := 4096

  datatype TombstoneReason = Released | Expired | ReconciledAbsent | RestartDiscarded

  datatype Tombstone = Tombstone(
    profileId: string,
    slotKey: string,
    leaseId: string,
    reason: TombstoneReason,
    evidence: string,
    sequence: nat)

  type TombstoneMap = map<Key, Tombstone>

  datatype AdoptionFence = AdoptionFence(profileId: string, pending: seq<string>)

  datatype LeaseCommand = AcquireLease | AdoptLease | RenewLease | ActivateLease | ReleaseLease | ReconcileLease

  datatype Decision = Decision(
    sequence: nat,
    command: LeaseCommand,
    profileId: string,
    granted: bool,
    failure: Option<Error>,
    decidedAt: int)

  datatype Ledger = Ledger(
    epoch: nat,
    sequence: nat,
    policy: HostPolicy,
    leases: LeaseMap,
    tombstones: TombstoneMap,
    fences: map<string, AdoptionFence>,
    lastDecision: Option<Decision>)

  const NEW_LEDGER := Ledger(0, 0, NO_POLICY, map[], map[], map[], None)

  // ---------------------------------------------------------------------
  // Tombstones

  /** Tombstones recorded after this one. */
  ghost function Newer(ts: TombstoneMap, k: Key): set<Key>
    requires k in ts
  {
    set j | j in ts && ts[j].sequence > ts[k].sequence
  }

  /** The newest MAX_TOMBSTONES entries. */
  ghost function Compact(ts: TombstoneMap): TombstoneMap {
    if |ts| <= MAX_TOMBSTONES then ts
    else map k | k in ts && |Newer(ts, k)| < MAX_TOMBSTONES :: ts[k]
  }

  ghost predicate DistinctSequences(ts: TombstoneMap) {
    forall j, k {:trigger ts[j].sequence, ts[k].sequence} ::
      j in ts && k in ts && j != k ==> ts[j].sequence != ts[k].sequence
  }

  /** Entries name their own key and carry distinct sequences in 1..bound. */
  ghost predicate NumberedUpTo(ts: TombstoneMap, bound: nat) {
    && (forall k {:trigger ts[k].sequence} {:trigger ts[k].profileId} :: k in ts ==>
          && ts[k].profileId == k.profile && ts[k].slotKey == k.slot
          && 1 <= ts[k].sequence <= bound)
    && DistinctSequences(ts)
  }

  lemma CompactIsBounded(ts: TombstoneMap, bound: nat)
    requires NumberedUpTo(ts, bound)
    ensures NumberedUpTo(Compact(ts), bound)
    ensures |Compact(ts)| <= MAX_TOMBSTONES && Compact(ts).Keys <= ts.Keys
  {
    var kept := Compact(ts);
    if |ts| > MAX_TOMBSTONES && kept != map[] {
      var k := OldestKey(kept);
      assert kept.Keys - {k} <= Newer(ts, k);
      SubsetSize(kept.Keys - {k}, Newer(ts, k));
    }
  }

  lemma {:induction false} OldestKey(ts: TombstoneMap) returns (k: Key)
    requires ts != map[]
    ensures k in ts && forall j :: j in ts ==> ts[k].sequence <= ts[j].sequence
    decreases |ts|
  {
    var x :| x in ts;
    k := x;
    var rest := ts - {x};
    assert forall j :: j in ts && j != x ==> j in rest && rest[j] == ts[j];
    if rest != map[] {
      var y := OldestKey(rest);
      k := if ts[x].sequence < ts[y].sequence then x else y;
      forall j | j in ts ensures ts[k].sequence <= ts[j].sequence {
        if j != x { assert rest[y].sequence <= rest[j].sequence; }
      }
    }
  }

  /** The tombstone a swept lease leaves at its position in the sweep order. */
  function SweptTombstone(lease: Lease, reason: TombstoneReason, sequence: nat): Tombstone {
    Tombstone(lease.profileId, lease.slotKey, lease.leaseId, reason, "", sequence)
  }

  /** Tombstones after sweeping `order`: one new entry per key, numbered in sweep order. */
  ghost function Swept(l: Ledger, order: seq<Key>, reason: TombstoneReason): TombstoneMap {
    map k | k in l.tombstones.Keys + (Elements(order) * l.leases.Keys) ::
      if k in order && k in l.leases
      then SweptTombstone(l.leases[k], reason, l.sequence + 1 + Position(order, k))
      else l.tombstones[k]
  }

  function Position(order: seq<Key>, k: Key): (i: nat)
    ensures k in order ==> i < |order| && order[i] == k
  {
    var i := IndexOf(order, k);
    if i < 0 then 0 else i
  }

  // ---------------------------------------------------------------------
  // Adoption fences

  /** Slots of a profile's active leases. */
  ghost function ActiveSlots(ls: LeaseMap, profile: string): set<string> {
    set k | k in ls && ls[k].profileId == profile && ls[k].status.Active? :: ls[k].slotKey
  }

  /** Drops one slot from its profile's pending list; nothing happens without a fence. */
  function Accounted(fences: map<string, AdoptionFence>, k: Key): map<string, AdoptionFence> {
    if k.profile in fences
    then fences[k.profile := fences[k.profile].(pending := Without(fences[k.profile].pending, k.slot))]
    else fences
  }

  ghost predicate AwaitsAccounting(l: Ledger, k: Key) {
    k.profile in l.fences && k.slot in l.fences[k.profile].pending
  }

  // ---------------------------------------------------------------------
  // Edits

  datatype Edit =
    | ApplyPolicy(policy: HostPolicy)
    | Fence(profile: string)
    | Unfence(profile: string)
    | Sweep(order: seq<Key>, reason: TombstoneReason)
    | Grant(key: Key, units: int, status: LeaseStatus, expiresAt: int)
    | Bind(key: Key, name: string)
    | Renew(key: Key, expiresAt: int)
    | Promote(key: Key, adopting: bool)
    | Account(key: Key)
    | Remove(key: Key, reason: TombstoneReason, evidence: string)
    | Note(decision: Decision)

  function GrantedLease(k: Key, units: int, status: LeaseStatus, expiresAt: int, sequence: nat): Lease {
    Lease(k.profile, k.slot, LeaseIdText(k, sequence), "", units, status, expiresAt,
          sequence, if status.Active? then sequence else 0)
  }

  function PromotedLease(lease: Lease, sequence: nat): Lease {
    lease.(status := Active, expiresAt := 0, activatedAt := sequence)
  }

  /** When each edit may happen; grants carry the room the admission decision established. */
  ghost predicate Enabled(l: Ledger, e: Edit) {
    match e
    case ApplyPolicy(h) => ValidPolicy(h) && h.generation > l.policy.generation
    case Fence(p) => ValidProfileId(p) && Knows(l.policy, p) && p !in l.fences
    case Unfence(p) => p in l.fences && l.fences[p].pending == []
    case Sweep(order, reason) =>
      && order != [] && Distinct(order) && (reason.Expired? || reason.RestartDiscarded?)
      && forall k :: k in order ==> k in l.leases && l.leases[k].status.Provisional?
    case Grant(k, units, status, expiresAt) =>
      && ValidKey(k) && k !in l.leases && Knows(l.policy, k.profile)
      && units == Lookup(l.policy.profiles, k.profile).value.unitCost
      && (status.Provisional? ==>
            l.fences == map[] && HasRoom(l.policy, Lookup(l.policy.profiles, k.profile).value, HeldMap(l.leases)))
      && (status.Active? ==> expiresAt == 0)
    case Bind(k, name) => k in l.leases && l.leases[k].registrationName == "" && ValidRegistrationName(name)
    case Renew(k, _) => k in l.leases && l.leases[k].status.Provisional?
    case Promote(k, _) => k in l.leases && l.leases[k].status.Provisional?
    case Account(k) => AwaitsAccounting(l, k)
    case Remove(k, reason, _) => k in l.leases && (reason.Released? || reason.ReconciledAbsent?)
    case Note(d) => d.sequence <= l.sequence && ValidProfileId(d.profileId)
  }

  /** The edits of an existing lease need that lease. */
  predicate Defined(l: Ledger, e: Edit) {
    e.Bind? || e.Renew? || e.Promote? || e.Remove? ==> e.key in l.leases
  }

  ghost function Apply(l: Ledger, e: Edit): Ledger
    requires Defined(l, e)
  {
    match e
    case ApplyPolicy(h) =>
      l.(policy := h, epoch := l.epoch + 1, fences := map p | p in l.fences && Knows(h, p) :: l.fences[p])
    case Fence(p) =>
      l.(epoch := l.epoch + 1, fences := l.fences[p := AdoptionFence(p, SortedView(ActiveSlots(l.leases, p)))])
    case Unfence(p) => l.(epoch := l.epoch + 1, fences := l.fences - {p})
    case Sweep(order, reason) =>
      l.(sequence := l.sequence + |order|,
         leases := l.leases - Elements(order),
         tombstones := Compact(Swept(l, order, reason)))
    case Grant(k, units, status, expiresAt) =>
      l.(sequence := l.sequence + 1,
         tombstones := l.tombstones - {k},
         leases := l.leases[k := GrantedLease(k, units, status, expiresAt, l.sequence + 1)],
         fences := if status.Active? then Accounted(l.fences, k) else l.fences)
    case Bind(k, name) =>
      l.(sequence := l.sequence + 1, leases := l.leases[k := l.leases[k].(registrationName := name)])
    case Renew(k, expiresAt) =>
      l.(sequence := l.sequence + 1, leases := l.leases[k := l.leases[k].(expiresAt := expiresAt)])
    case Promote(k, adopting) =>
      l.(sequence := l.sequence + 1,
         tombstones := if adopting then l.tombstones - {k} else l.tombstones,
         leases := l.leases[k := PromotedLease(l.leases[k], l.sequence + 1)],
         fences := if adopting then Accounted(l.fences, k) else l.fences)
    case Account(k) => l.(fences := Accounted(l.fences, k))
    case Remove(k, reason, evidence) =>
      l.(sequence := l.sequence + 1,
         leases := l.leases - {k},
         fences := Accounted(l.fences, k),
         tombstones := Compact(l.tombstones[k :=
           Tombstone(k.profile, k.slot, l.leases[k].leaseId, reason, evidence, l.sequence + 1)]))
    case Note(d) => l.(lastDecision := Some(d))
  }

  // ---------------------------------------------------------------------
  // Validity

  ghost predicate PolicyOk(h: HostPolicy) {
    if h.generation > 0 then ValidPolicy(h) else h == NO_POLICY
  }

  ghost predicate LeaseOk(l: Ledger, k: Key)
    requires k in l.leases
  {
    var lease := l.leases[k];
    && ValidKey(k) && lease.profileId == k.profile && lease.slotKey == k.slot
    && lease.units >= 1
    && lease.leaseId == LeaseIdText(k, lease.grantedAt)
    && 1 <= lease.grantedAt <= l.sequence
    && (lease.registrationName == "" || ValidRegistrationName(lease.registrationName))
    && (lease.status.Active? ==> lease.expiresAt == 0 && lease.grantedAt <= lease.activatedAt <= l.sequence)
  }

  ghost predicate LeasesOk(l: Ledger) {
    forall k {:trigger LeaseOk(l, k)} :: k in l.leases ==> LeaseOk(l, k)
  }

  ghost predicate TombstonesOk(l: Ledger) {
    NumberedUpTo(l.tombstones, l.sequence) && |l.tombstones| <= MAX_TOMBSTONES
  }

  ghost predicate FenceOk(l: Ledger, p: string)
    requires p in l.fences
  {
    && l.fences[p].profileId == p && ValidProfileId(p) && Knows(l.policy, p)
    && StrictlySorted(l.fences[p].pending)
    && forall s :: s in l.fences[p].pending ==>
         Key(p, s) in l.leases && l.leases[Key(p, s)].status.Active?
  }

  ghost predicate FencesOk(l: Ledger) {
    forall p {:trigger FenceOk(l, p)} :: p in l.fences ==> FenceOk(l, p)
  }

  ghost predicate DecisionOk(l: Ledger) {
    l.lastDecision.Some? ==> l.lastDecision.value.sequence <= l.sequence && ValidProfileId(l.lastDecision.value.profileId)
  }

  /** The inductive strengthening of the document check. */
  ghost predicate ValidLedger(l: Ledger) {
    && PolicyOk(l.policy)
    && LeasesOk(l)
    && TombstonesOk(l)
    && FencesOk(l)
    && l.leases.Keys !! l.tombstones.Keys
    && DecisionOk(l)
  }

  /** The document check a reload performs; it ignores order and sequence bounds. */
  ghost predicate Accepts(l: Ledger) {
    && (l.policy.generation > 0 ==> ValidPolicy(l.policy))
    && (forall k :: k in l.leases ==>
          && k == Key(l.leases[k].profileId, l.leases[k].slotKey)
          && l.leases[k].profileId != "" && l.leases[k].slotKey != "" && l.leases[k].units >= 1
          && (l.leases[k].registrationName == "" || ValidRegistrationName(l.leases[k].registrationName)))
    && (forall k :: k in l.tombstones ==> k == Key(l.tombstones[k].profileId, l.tombstones[k].slotKey))
    && (forall p :: p in l.fences ==>
          && p == l.fences[p].profileId && ValidProfileId(p) && Knows(l.policy, p)
          && Distinct(l.fences[p].pending)
          && forall s :: s in l.fences[p].pending ==>
               ValidSlotKey(s) && Key(p, s) in l.leases && l.leases[Key(p, s)].status.Active?)
    && (forall k :: k in l.leases ==> k !in l.tombstones)
    && (l.lastDecision.Some? ==> ValidProfileId(l.lastDecision.value.profileId))
  }

  /** A valid ledger always passes the document check, so a reload never fails closed on it. */
  lemma ValidIsAccepted(l: Ledger)
    requires ValidLedger(l)
    ensures Accepts(l)
  {
    forall p | p in l.fences
      ensures FenceOk(l, p) && Distinct(l.fences[p].pending)
      ensures forall s :: s in l.fences[p].pending ==> ValidSlotKey(s)
    {
      assert FenceOk(l, p);
      SortedIsDistinct(l.fences[p].pending);
      forall s | s in l.fences[p].pending ensures ValidSlotKey(s) {
        assert LeaseOk(l, Key(p, s));
      }
    }
    forall k | k in l.leases ensures LeaseOk(l, k) {}
  }

  // ---------------------------------------------------------------------
  // Every edit keeps the ledger valid

  lemma LeasesCarryOver(l: Ledger, l': Ledger, k: Key)
    requires LeasesOk(l) && l.sequence <= l'.sequence
    requires forall j :: j in l'.leases && j != k ==> j in l.leases && l'.leases[j] == l.leases[j]
    requires k in l'.leases ==> LeaseOk(l', k)
    ensures LeasesOk(l')
  {
    forall j | j in l'.leases ensures LeaseOk(l', j) {
      if j != k { assert LeaseOk(l, j); }
    }
  }

  lemma LeasesShrink(l: Ledger, l': Ledger)
    requires LeasesOk(l) && l.sequence <= l'.sequence
    requires forall j :: j in l'.leases ==> j in l.leases && l'.leases[j] == l.leases[j]
    ensures LeasesOk(l')
  {
    forall j | j in l'.leases ensures LeaseOk(l', j) { assert LeaseOk(l, j); }
  }

  lemma PolicyKeepsValid(l: Ledger, e: Edit)
    requires ValidLedger(l) && Enabled(l, e) && e.ApplyPolicy?
    ensures ValidLedger(Apply(l, e))
  {
    var l' := Apply(l, e);
    LeasesShrink(l, l');
    forall p | p in l'.fences ensures FenceOk(l', p) { assert FenceOk(l, p); }
  }

  lemma FenceKeepsValid(l: Ledger, e: Edit)
    requires ValidLedger(l) && Enabled(l, e) && e.Fence?
    ensures ValidLedger(Apply(l, e))
  {
    var l' := Apply(l, e);
    LeasesShrink(l, l');
    FreshFenceOk(l, e.profile);
    forall p | p in l'.fences ensures FenceOk(l', p) {
      if p != e.profile { assert FenceOk(l, p); }
    }
  }

  lemma FreshFenceOk(l: Ledger, p: string)
    requires LeasesOk(l)
    ensures
      forall s :: s in SortedView(ActiveSlots(l.leases, p)) ==>
        Key(p, s) in l.leases && l.leases[Key(p, s)].status.Active?
  {
    var view := SortedView(ActiveSlots(l.leases, p));
    forall s | s in view ensures Key(p, s) in l.leases && l.leases[Key(p, s)].status.Active? {
      assert s in Elements(view);
      var k :| k in l.leases && l.leases[k].profileId == p && l.leases[k].status.Active? && l.leases[k].slotKey == s;
      assert LeaseOk(l, k);
    }
  }

  lemma UnfenceKeepsValid(l: Ledger, e: Edit)
    requires ValidLedger(l) && Enabled(l, e) && e.Unfence?
    ensures ValidLedger(Apply(l, e))
  {
    var l' := Apply(l, e);
    LeasesShrink(l, l');
    forall p | p in l'.fences ensures FenceOk(l', p) { assert FenceOk(l, p); }
  }

  lemma SweepKeepsTombstones(l: Ledger, order: seq<Key>, reason: TombstoneReason)
    requires LeasesOk(l) && NumberedUpTo(l.tombstones, l.sequence) && Elements(order) <= l.leases.Keys
    ensures
      var ts := Compact(Swept(l, order, reason));
      && NumberedUpTo(ts, l.sequence + |order|) && |ts| <= MAX_TOMBSTONES
      && ts.Keys <= l.tombstones.Keys + Elements(order)
  {
    SweptKeys(l, order, reason);
    SweptIsOk(l, order, reason);
    CompactIsBounded(Swept(l, order, reason), l.sequence + |order|);
  }

  lemma SweepKeepsFences(l: Ledger, e: Edit)
    requires FencesOk(l) && Enabled(l, e) && e.Sweep?
    ensures FencesOk(Apply(l, e))
  {
    var l' := Apply(l, e);
    forall p | p in l'.fences ensures FenceOk(l', p) { assert FenceOk(l, p); }
  }

  lemma SweepKeepsEntries(l: Ledger, e: Edit)
    requires LeasesOk(l) && TombstonesOk(l) && l.leases.Keys !! l.tombstones.Keys
    requires e.Sweep? && Elements(e.order) <= l.leases.Keys
    ensures TombstonesOk(Apply(l, e)) && Apply(l, e).leases.Keys !! Apply(l, e).tombstones.Keys
  {
    hide Compact, Swept, NumberedUpTo, LeasesOk;
    SweepKeepsTombstones(l, e.order, e.reason);
  }

  lemma SweepKeepsValid(l: Ledger, e: Edit)
    requires ValidLedger(l) && Enabled(l, e) && e.Sweep?
    ensures ValidLedger(Apply(l, e))
  {
    hide Compact, Swept, PolicyOk, LeaseOk, FencesOk, TombstonesOk;
    assert Elements(e.order) <= l.leases.Keys;
    EditFrame(l, e);
    LeasesShrink(l, Apply(l, e));
    SweepKeepsEntries(l, e);
    SweepKeepsFences(l, e);
  }

  lemma SweptKeys(l: Ledger, order: seq<Key>, reason: TombstoneReason)
    requires Elements(order) <= l.leases.Keys
    ensures Swept(l, order, reason).Keys == l.tombstones.Keys + Elements(order)
  {
    assert Elements(order) * l.leases.Keys == Elements(order);
  }

  lemma SweptIsOk(l: Ledger, order: seq<Key>, reason: TombstoneReason)
    requires LeasesOk(l) && NumberedUpTo(l.tombstones, l.sequence)
    requires Elements(order) <= l.leases.Keys
    ensures NumberedUpTo(Swept(l, order, reason), l.sequence + |order|)
  {
    var ts := Swept(l, order, reason);
    forall k | k in ts ensures SweptEntry(l, order, ts, k) {
      if k in order { assert k in Elements(order); }
      SweptAt(l, order, reason, k);
    }
    SweptEntriesNumbered(l, order, ts);
  }

  lemma SweptAt(l: Ledger, order: seq<Key>, reason: TombstoneReason, k: Key)
    requires LeasesOk(l) && NumberedUpTo(l.tombstones, l.sequence)
    requires k in order ==> k in l.leases
    requires k in Swept(l, order, reason)
    ensures SweptEntry(l, order, Swept(l, order, reason), k)
  {
    if k in order { assert LeaseOk(l, k); }
  }

  lemma SweptEntriesNumbered(l: Ledger, order: seq<Key>, ts: TombstoneMap)
    requires NumberedUpTo(l.tombstones, l.sequence)
    requires forall k :: k in ts ==> SweptEntry(l, order, ts, k)
    ensures NumberedUpTo(ts, l.sequence + |order|)
  {}

  ghost predicate SweptEntry(l: Ledger, order: seq<Key>, ts: TombstoneMap, k: Key) {
    && k in ts && ts[k].profileId == k.profile && ts[k].slotKey == k.slot
    && if k in order
       then l.sequence < ts[k].sequence <= l.sequence + |order| && order[ts[k].sequence - l.sequence - 1] == k
       else k in l.tombstones && ts[k] == l.tombstones[k]
  }

  lemma GrantKeepsLeases(l: Ledger, l': Ledger, k: Key, units: int, status: LeaseStatus, expiresAt: int)
    requires LeasesOk(l) && ValidKey(k) && units >= 1 && (status.Active? ==> expiresAt == 0)
    requires l'.sequence == l.sequence + 1
    requires l'.leases == l.leases[k := GrantedLease(k, units, status, expiresAt, l.sequence + 1)]
    ensures LeasesOk(l')
  {
    LeasesCarryOver(l, l', k);
  }

  lemma GrantParts(l: Ledger, e: Edit)
    requires e.Grant?
    ensures
      var l' := Apply(l, e);
      && l'.policy == l.policy && l'.lastDecision == l.lastDecision && l'.sequence == l.sequence + 1
      && l'.tombstones == l.tombstones - {e.key}
      && l'.leases == l.leases[e.key := GrantedLease(e.key, e.units, e.status, e.expiresAt, l.sequence + 1)]
      && l'.fences == if e.status.Active? then Accounted(l.fences, e.key) else l.fences
  {}

  lemma GrantKeepsValid(l: Ledger, e: Edit)
    requires ValidLedger(l) && Enabled(l, e) && e.Grant?
    ensures ValidLedger(Apply(l, e))
  {
    hide Apply, HasRoom, LeasesOk, TombstonesOk, FencesOk, Accounted, GrantedLease, ValidPolicy;
    GrantParts(l, e);
    KnownProfileIsValid(l.policy, e.key.profile);
    GrantKeepsLeases(l, Apply(l, e), e.key, e.units, e.status, e.expiresAt);
    FewerTombstonesOk(l, Apply(l, e), e.key);
    AccountingKeepsFences(l, Apply(l, e), e.key);
  }

  lemma FewerNumbered(ts: TombstoneMap, fewer: TombstoneMap, bound: nat, later: nat)
    requires NumberedUpTo(ts, bound) && bound <= later
    requires forall j :: j in fewer ==> j in ts && fewer[j] == ts[j]
    ensures NumberedUpTo(fewer, later) && |fewer| <= |ts|
  {
    forall j | j in fewer
      ensures fewer[j].profileId == j.profile && fewer[j].slotKey == j.slot && 1 <= fewer[j].sequence <= later
    {
      assert ts[j].sequence <= bound;
    }
    forall j, k | j in fewer && k in fewer && j != k ensures fewer[j].sequence != fewer[k].sequence {
      assert ts[j].sequence != ts[k].sequence;
    }
    SubsetSize(fewer.Keys, ts.Keys);
    assert |ts.Keys| == |ts| && |fewer.Keys| == |fewer|;
  }

  lemma FewerTombstonesOk(l: Ledger, l': Ledger, k: Key)
    requires TombstonesOk(l) && l.sequence <= l'.sequence
    requires l'.tombstones == l.tombstones || l'.tombstones == l.tombstones - {k}
    ensures TombstonesOk(l')
  {
    hide NumberedUpTo;
    FewerNumbered(l.tombstones, l'.tombstones, l.sequence, l'.sequence);
  }

  lemma AmendKeepsLeases(l: Ledger, l': Ledger, k: Key)
    requires LeasesOk(l) && k in l.leases && k in l'.leases && l'.sequence == l.sequence + 1
    requires l'.leases == l.leases[k := l'.leases[k]]
    requires
      || (l'.leases[k] == l.leases[k].(expiresAt := l'.leases[k].expiresAt) && l.leases[k].status.Provisional?)
      || (l'.leases[k] == l.leases[k].(registrationName := l'.leases[k].registrationName)
          && ValidRegistrationName(l'.leases[k].registrationName))
    ensures LeasesOk(l')
  {
    assert LeaseOk(l, k);
    LeasesCarryOver(l, l', k);
  }

  lemma AmendKeepsValid(l: Ledger, e: Edit)
    requires ValidLedger(l) && Enabled(l, e) && (e.Bind? || e.Renew?)
    ensures ValidLedger(Apply(l, e))
  {
    AmendKeepsLeases(l, Apply(l, e), e.key);
    AccountingKeepsFences(l, Apply(l, e), e.key);
  }

  lemma PromoteKeepsLeases(l: Ledger, l': Ledger, k: Key)
    requires LeasesOk(l) && k in l.leases && l'.sequence == l.sequence + 1
    requires l'.leases == l.leases[k := PromotedLease(l.leases[k], l.sequence + 1)]
    ensures LeasesOk(l')
  {
    assert LeaseOk(l, k);
    LeasesCarryOver(l, l', k);
  }

  lemma PromoteParts(l: Ledger, e: Edit)
    requires e.Promote? && Defined(l, e)
    ensures
      var l' := Apply(l, e);
      && l'.policy == l.policy && l'.lastDecision == l.lastDecision && l'.sequence == l.sequence + 1
      && l'.tombstones == (if e.adopting then l.tombstones - {e.key} else l.tombstones)
      && l'.leases == l.leases[e.key := PromotedLease(l.leases[e.key], l.sequence + 1)]
      && l'.fences == if e.adopting then Accounted(l.fences, e.key) else l.fences
  {}

  lemma PromoteKeepsValid(l: Ledger, e: Edit)
    requires ValidLedger(l) && Enabled(l, e) && e.Promote?
    ensures ValidLedger(Apply(l, e))
  {
    hide Apply, LeasesOk, TombstonesOk, FencesOk, PolicyOk, Accounted;
    PromoteParts(l, e);
    PromoteKeepsLeases(l, Apply(l, e), e.key);
    FewerTombstonesOk(l, Apply(l, e), e.key);
    AccountingKeepsFences(l, Apply(l, e), e.key);
  }

  lemma AccountKeepsValid(l: Ledger, e: Edit)
    requires ValidLedger(l) && Enabled(l, e) && e.Account?
    ensures ValidLedger(Apply(l, e))
  {
    var l' := Apply(l, e);
    LeasesShrink(l, l');
    AccountingKeepsFences(l, l', e.key);
  }

  lemma RemoveKeepsFences(l: Ledger, e: Edit)
    requires FencesOk(l) && Enabled(l, e) && e.Remove?
    ensures FencesOk(Apply(l, e))
  {
    AccountingKeepsFences(l, Apply(l, e), e.key);
  }

  lemma RemoveKeepsTombstones(l: Ledger, k: Key, entry: Tombstone)
    requires TombstonesOk(l)
    requires entry.profileId == k.profile && entry.slotKey == k.slot && entry.sequence == l.sequence + 1
    ensures
      var ts := Compact(l.tombstones[k := entry]);
      NumberedUpTo(ts, l.sequence + 1) && |ts| <= MAX_TOMBSTONES && ts.Keys <= l.tombstones.Keys + {k}
  {
    EntombIsOk(l, k, entry);
    CompactIsBounded(l.tombstones[k := entry], l.sequence + 1);
  }

  lemma RemoveKeepsLeases(l: Ledger, e: Edit)
    requires LeasesOk(l) && e.Remove? && Defined(l, e)
    ensures LeasesOk(Apply(l, e))
  {
    hide Compact;
    LeasesShrink(l, Apply(l, e));
  }

  lemma RemoveParts(l: Ledger, e: Edit)
    requires e.Remove? && Defined(l, e)
    ensures
      var l' := Apply(l, e);
      && l'.sequence == l.sequence + 1 && l'.leases == l.leases - {e.key}
      && l'.tombstones == Compact(l.tombstones[e.key :=
           Tombstone(e.key.profile, e.key.slot, l.leases[e.key].leaseId, e.reason, e.evidence, l.sequence + 1)])
  {}

  lemma RemoveKeepsEntries(l: Ledger, e: Edit)
    requires TombstonesOk(l) && l.leases.Keys !! l.tombstones.Keys && e.Remove? && Defined(l, e)
    ensures TombstonesOk(Apply(l, e)) && Apply(l, e).leases.Keys !! Apply(l, e).tombstones.Keys
  {
    hide Apply, Compact, NumberedUpTo;
    RemoveParts(l, e);
    RemoveKeepsTombstones(l, e.key,
      Tombstone(e.key.profile, e.key.slot, l.leases[e.key].leaseId, e.reason, e.evidence, l.sequence + 1));
  }

  /** Only a policy edit changes the policy, only a note changes the last decision, and time moves forward. */
  lemma EditFrame(l: Ledger, e: Edit)
    requires Defined(l, e)
    ensures l.sequence <= Apply(l, e).sequence && l.epoch <= Apply(l, e).epoch
    ensures !e.ApplyPolicy? ==> Apply(l, e).policy == l.policy
    ensures !e.Note? ==> Apply(l, e).lastDecision == l.lastDecision
  {}

  lemma EnabledIsDefined(l: Ledger, e: Edit)
    requires Enabled(l, e)
    ensures Defined(l, e)
  {
    hide HasRoom, ValidPolicy, ValidKey;
  }

  lemma RemoveKeepsValid(l: Ledger, e: Edit)
    requires ValidLedger(l) && Enabled(l, e) && e.Remove?
    ensures ValidLedger(Apply(l, e))
  {
    hide Apply, PolicyOk, LeasesOk, FencesOk, TombstonesOk;
    EditFrame(l, e);
    RemoveKeepsLeases(l, e);
    RemoveKeepsEntries(l, e);
    RemoveKeepsFences(l, e);
  }

  lemma EntombIsOk(l: Ledger, k: Key, entry: Tombstone)
    requires TombstonesOk(l)
    requires entry.profileId == k.profile && entry.slotKey == k.slot && entry.sequence == l.sequence + 1
    ensures NumberedUpTo(l.tombstones[k := entry], l.sequence + 1)
  {}

  lemma NoteKeepsValid(l: Ledger, e: Edit)
    requires ValidLedger(l) && Enabled(l, e) && e.Note?
    ensures ValidLedger(Apply(l, e))
  {
    var l' := Apply(l, e);
    LeasesShrink(l, l');
    forall p | p in l'.fences ensures FenceOk(l', p) { assert FenceOk(l, p); }
  }

  lemma AccountedFence(l: Ledger, k: Key, p: string)
    requires p in l.fences && FenceOk(l, p)
    ensures p in Accounted(l.fences, k)
    ensures
      var f, f' := l.fences[p], Accounted(l.fences, k)[p];
      && f'.profileId == f.profileId && StrictlySorted(f'.pending)
      && Elements(f'.pending) == if p == k.profile then Elements(f.pending) - {k.slot} else Elements(f.pending)
  {
    WithoutElements(l.fences[p].pending, k.slot);
  }

  /** Fences survive when at most k's lease changes and k is accounted for, or stays as it was. */
  lemma AccountingKeepsFences(l: Ledger, l': Ledger, k: Key)
    requires FencesOk(l) && l'.policy == l.policy
    requires l'.fences == l.fences || l'.fences == Accounted(l.fences, k)
    requires forall j :: j in l.leases && j != k ==> j in l'.leases && l'.leases[j] == l.leases[j]
    requires
      || l'.fences == Accounted(l.fences, k)
      || (k in l.leases && l.leases[k].status.Active? ==> k in l'.leases && l'.leases[k].status.Active?)
    ensures FencesOk(l')
  {
    forall p | p in l'.fences ensures FenceOk(l', p) {
      assert FenceOk(l, p);
      AccountedFence(l, k, p);
      forall s | s in l'.fences[p].pending
        ensures Key(p, s) in l'.leases && l'.leases[Key(p, s)].status.Active?
      {
        assert s in Elements(l'.fences[p].pending);
        assert s in l.fences[p].pending;
      }
    }
  }

  lemma EditKeepsValid(l: Ledger, e: Edit)
    requires ValidLedger(l) && Enabled(l, e)
    ensures ValidLedger(Apply(l, e))
  {
    match e
    case ApplyPolicy(_) => PolicyKeepsValid(l, e);
    case Fence(_) => FenceKeepsValid(l, e);
    case Unfence(_) => UnfenceKeepsValid(l, e);
    case Sweep(_, _) => SweepKeepsValid(l, e);
    case Grant(_, _, _, _) => GrantKeepsValid(l, e);
    case Bind(_, _) => AmendKeepsValid(l, e);
    case Renew(_, _) => AmendKeepsValid(l, e);
    case Promote(_, _) => PromoteKeepsValid(l, e);
    case Account(_) => AccountKeepsValid(l, e);
    case Remove(_, _, _) => RemoveKeepsValid(l, e);
    case Note(_) => NoteKeepsValid(l, e);
  }

}
