/**
 Status tells the truth: the reason it gives for withholding capacity is the
 error that the next acquire at the same instant returns, and a promised worker
 is exactly one that would be granted.
 */
module StatusAgreement {
  import opened Identity
  import opened Ordering
  import opened Division
  import opened FairShare
  import opened Policy
  import opened Sums
  import opened Leases
  import opened Admission
  import opened Ledgers
  import opened Commands
  import opened Invariants
  import opened Budget
  import opened Reservations

  // ---------------------------------------------------------------------
  // The withholding reason

  /** A second look at the same instant finds nothing to sweep and nothing stale. */
  lemma SettledAtInstant(n: Node, env: Env, next: Env)
    requires EnvOk(n, env) && SweepPhase(n, env).Some? && next.now == env.now
    ensures
      var ready := ForgetStale(SweepPhase(n, env).value, env.now);
      SweepPhase(ready, next) == Some(ready) && ForgetStale(ready, next.now) == ready
  {
    hide SweepPhase, EnvOk;
    SweepLeavesNothingDue(n, env);
    var ready := ForgetStale(SweepPhase(n, env).value, env.now);
    assert StaleDemand(ready.mem, env.now) == {};
    assert ForgetDemand(ready.mem, {}) == ready.mem;
    NothingDueNothingSwept(ready, next);
  }

  lemma NothingDueNothingSwept(n: Node, env: Env)
    requires Due(n.mem, env.now) == {}
    ensures SweepPhase(n, env) == Some(n)
  {}

  /** Recording demand for a profile that already has some leaves the contenders as they are. */
  lemma KnownDemandKeepsContenders(m: Memory, p: string, want: int, deadline: int)
    requires HasDemand(m, p) && want >= 1
    ensures Contenders(m.ledger.policy, WithDemand(m, p, want, deadline).demand) == Contenders(m.ledger.policy, m.demand)
  {
    var demand' := WithDemand(m, p, want, deadline).demand;
    assert (set id | id in demand' && demand'[id] > 0 && Knows(m.ledger.policy, id)) ==
           (set id | id in m.demand && m.demand[id] > 0 && Knows(m.ledger.policy, id));
  }

  /** What an acquire on a fresh slot must answer, given the withholding reason. */
  predicate Answers(withheld: Option<Error>, saved: bool, outcome: Outcome) {
    match withheld
    case Some(error) => outcome == Failed(error)
    case None => if saved then outcome.Leased? else outcome == Failed(StoreFailure)
  }

  lemma ReasonIsVerdict(n: Node, k: Key, pending: int, env: Env)
    requires Knows(n.mem.ledger.policy, k.profile) && k !in n.mem.ledger.leases && HasDemand(n.mem, k.profile)
    ensures
      var p := Lookup(n.mem.ledger.policy.profiles, k.profile).value;
      Answers(WithheldReason(n.mem, p, HeldMap(n.mem.ledger.leases)), env.saved, AcquireSwept(n, k, pending, env).outcome)
  {
    hide Decide, HeldMap, Contenders, Apply;
    KnownDemandKeepsContenders(n.mem, k.profile, Max(pending, 1), env.now + DEMAND_TTL);
  }

  /** The accounting entry that Status reports for a profile. */
  ghost predicate Reported(s: Snapshot, a: ProfileAccounting) {
    a in s.accounting
  }

  lemma ReportedEntry(m: Memory, a: ProfileAccounting)
    requires PolicyOk(m.ledger.policy) && Reported(SnapshotOf(m), a)
    ensures Knows(m.ledger.policy, a.profileId)
    ensures Lookup(m.ledger.policy.profiles, a.profileId).value.unitCost >= 1
    ensures a == AccountingOf(m, Lookup(m.ledger.policy.profiles, a.profileId).value)
  {
    hide CapacityOf, HeldMap, ValidPolicy;
    var h := m.ledger.policy;
    var ids := SortedView(ProfileIds(h));
    var i :| 0 <= i < |SnapshotOf(m).accounting| && SnapshotOf(m).accounting[i] == a;
    ListedProfile(h, ids[i]);
  }

  /** A positive number of pending units is positive known demand. */
  lemma PendingMeansDemand(m: Memory, p: ProfilePolicy)
    requires DemandOk(m) && p.unitCost >= 1
    requires AccountingOf(m, p).pendingUnits.Some? && AccountingOf(m, p).pendingUnits.value > 0
    ensures HasDemand(m, p.profileId)
  {
    hide CapacityOf, HeldMap;
    assert At(m.demand, p.profileId) == 0 ==> At(m.demand, p.profileId) * p.unitCost == 0;
  }

  /**
   At one instant, for a profile with pending units, the withholding reason in
   Status is exactly the error of the next acquire on a fresh slot, and no reason
   means that the acquire is granted unless its save fails.
   */
  lemma StatusReasonIsNextError(n: Node, env: Env, a: ProfileAccounting, slot: string, pending: int, next: Env)
    requires NodeOk(n) && EnvOk(n, env) && PolicyOk(n.mem.ledger.policy) && next.now == env.now
    requires Status(n, env).outcome.Report? && Reported(Status(n, env).outcome.snapshot, a)
    requires a.pendingUnits.Some? && a.pendingUnits.value > 0
    requires var k := Key(a.profileId, slot); ValidKey(k) && k !in Status(n, env).node.mem.ledger.leases
    ensures
      Answers(a.capacity.withheld, next.saved,
              Acquire(Status(n, env).node, Key(a.profileId, slot), pending, next).outcome)
  {
    hide EnvOk, SweepPhase, Decide, HeldMap, Apply, SnapshotOf, ValidLedger, AcquireSwept, ValidKey, OpenUnits;
    var k := Key(a.profileId, slot);
    SettledAtInstant(n, env, next);
    SweepOk(CmdStatus, true, n, env);
    ForgetStaleOk(CmdStatus, true, SweepPhase(n, env).value, env.now);
    var ready := ForgetStale(SweepPhase(n, env).value, env.now);
    PolicyInForce(ready);
    ReportedEntry(ready.mem, a);
    PendingMeansDemand(ready.mem, Lookup(ready.mem.ledger.policy.profiles, a.profileId).value);
    ReasonIsVerdict(ready, k, pending, next);
    NotedKeepsOutcome(AcquireSwept(ready, k, pending, next), AcquireLease, k.profile, next);
  }

  lemma PolicyInForce(n: Node)
    requires NodeOk(n)
    ensures PolicyOk(n.mem.ledger.policy)
  {
    hide PolicyOk, LeasesOk, TombstonesOk, FencesOk;
  }

  // ---------------------------------------------------------------------
  // The promised workers

  ghost predicate NonNegative(held: map<string, int>) {
    forall p :: p in held ==> held[p] >= 0
  }

  /** No profile outside the policy holds units. */
  ghost predicate OnlyPolicyHolders(ps: seq<ProfilePolicy>, held: map<string, int>) {
    forall p :: p in held ==> exists i :: 0 <= i < |ps| && ps[i].profileId == p
  }

  lemma DropLast(ps: seq<ProfilePolicy>, held: map<string, int>)
    requires ps != [] && UniqueProfiles(ps)
    ensures
      var last, rest := ps[|ps| - 1].profileId, held - {ps[|ps| - 1].profileId};
      MapSum(held) == MapSum(rest) + At(held, last)
  {
    var last := ps[|ps| - 1].profileId;
    if last in held { MapSumSplit(held, last); } else { assert held - {last} == held; }
  }

  lemma {:induction false} HeldByIgnores(ps: seq<ProfilePolicy>, held: map<string, int>, id: string)
    requires forall i :: 0 <= i < |ps| ==> ps[i].profileId != id
    ensures HeldBy(ps, held - {id}) == HeldBy(ps, held)
  {
    if ps != [] { HeldByIgnores(ps[..|ps| - 1], held, id); }
  }

  /** Units of policy profiles are part of all units, and all of them when nobody else holds any. */
  lemma {:induction false} PolicyHoldings(ps: seq<ProfilePolicy>, held: map<string, int>)
    requires UniqueProfiles(ps) && NonNegative(held)
    ensures 0 <= HeldBy(ps, held) <= MapSum(held)
    ensures OnlyPolicyHolders(ps, held) ==> HeldBy(ps, held) == MapSum(held)
  {
    if ps == [] {
      MapSumPositive(held);
      assert OnlyPolicyHolders(ps, held) ==> held == map[];
    } else {
      var front, last := ps[..|ps| - 1], ps[|ps| - 1].profileId;
      DropLast(ps, held);
      HeldByIgnores(front, held, last);
      PolicyHoldings(front, held - {last});
      if OnlyPolicyHolders(ps, held) {
        forall p | p in held - {last} ensures exists i :: 0 <= i < |front| && front[i].profileId == p {
          var i :| 0 <= i < |ps| && ps[i].profileId == p;
          assert front[i].profileId == p;
        }
      }
    }
  }

  /** The protected maximum of the others and the own holdings never exceed what they hold or protect now. */
  lemma {:induction false} CeilingCovers(ps: seq<ProfilePolicy>, id: string, held: map<string, int>)
    requires UniqueProfiles(ps) && NonNegative(held)
    ensures
      ProtectedMaximum(ps, id) + (if Lookup(ps, id).Some? then At(held, id) else 0)
        <= HeldBy(ps, held) + Protected(ps, id, held)
  {
    if ps != [] {
      CeilingCovers(ps[..|ps| - 1], id, held);
      LookupFront(ps, id);
      if ps[|ps| - 1].profileId == id { AbsentFromFront(ps, id); }
    }
  }

  /** Everyone's reservations together bound the protected maximum plus the own reservation. */
  lemma {:induction false} ReservedBoundsMaximum(ps: seq<ProfilePolicy>, id: string)
    requires UniqueProfiles(ps) && forall i :: 0 <= i < |ps| ==> ps[i].reservedUnits >= 0
    ensures
      ProtectedMaximum(ps, id) + (if Lookup(ps, id).Some? then Lookup(ps, id).value.reservedUnits else 0) <= ReservedSum(ps)
  {
    if ps != [] {
      ReservedBoundsMaximum(ps[..|ps| - 1], id);
      LookupFront(ps, id);
      if ps[|ps| - 1].profileId == id { AbsentFromFront(ps, id); }
    }
  }

  /** What Status needs to see: either nobody outside the policy holds units, or the cursor is in range. */
  ghost predicate SeesAll(m: Memory, held: map<string, int>) {
    OnlyPolicyHolders(m.ledger.policy.profiles, held) || m.rotation <= |Contenders(m.ledger.policy, m.demand)|
  }

  lemma FairUnitsInStatus(m: Memory, p: string, held: map<string, int>)
    requires UniqueProfiles(m.ledger.policy.profiles) && NonNegative(held) && SeesAll(m, held)
    requires p in Contenders(m.ledger.policy, m.demand)
    ensures
      var h, contenders := m.ledger.policy, Contenders(m.ledger.policy, m.demand);
      var actual := Free(h, held) - Protected(h.profiles, p, held);
      var shown := Max(Max(h.totalUnits - HeldBy(h.profiles, held), 0) - Protected(h.profiles, p, held), 0);
      && actual <= shown
      && FairUnits(contenders, h, held, m.rotation, p, actual) <= FairUnits(contenders, h, held, m.rotation, p, shown)
  {
    hide Contenders, Protected, HeldBy, MapSum, Allocatable, SharedHoldings, OnlyPolicyHolders;
    var h, contenders := m.ledger.policy, Contenders(m.ledger.policy, m.demand);
    PolicyHoldings(h.profiles, held);
    var actual := Max(Free(h, held) - Protected(h.profiles, p, held), 0);
    var shown := Max(Max(h.totalUnits - HeldBy(h.profiles, held), 0) - Protected(h.profiles, p, held), 0);
    if m.rotation <= |contenders| {
      AllocatableMonotone(SharedHoldings(contenders, h, held), IndexOf(contenders, p), m.rotation, actual, shown);
    }
  }

  lemma DemandContends(m: Memory, p: string)
    requires HasDemand(m, p) && Knows(m.ledger.policy, p)
    ensures p in Contenders(m.ledger.policy, m.demand)
  {
    assert p in Elements(Contenders(m.ledger.policy, m.demand));
  }

  /** The unprotected units that Status counts with: it sees the leases of policy profiles only. */
  ghost function ShownUnits(m: Memory, p: ProfilePolicy, held: map<string, int>): nat {
    var h := m.ledger.policy;
    Max(Max(h.totalUnits - HeldBy(h.profiles, held), 0) - Protected(h.profiles, p.profileId, held), 0)
  }

  /** With the units it counts, Status finds room in the reservation or in the shared pool. */
  ghost predicate ShowsRoom(m: Memory, p: ProfilePolicy, held: map<string, int>) {
    || OwnRemaining(p, held) >= p.unitCost
    || FairUnits(Contenders(m.ledger.policy, m.demand), m.ledger.policy, held, m.rotation, p.profileId,
                 ShownUnits(m, p, held)) >= p.unitCost
  }

  /** When nothing is withheld, Status promises a worker exactly when it finds room by its own count. */
  lemma AdmittedIsPromisedExactly(m: Memory, p: ProfilePolicy, held: map<string, int>)
    requires ValidPolicy(m.ledger.policy) && Lookup(m.ledger.policy.profiles, p.profileId) == Some(p)
    requires NonNegative(held) && HasDemand(m, p.profileId)
    requires m.ledger.fences == map[] && WithheldReason(m, p, held).None? && p.unitCost >= 1
    ensures OpenUnits(m, p, held) >= p.unitCost <==> ShowsRoom(m, p, held)
  {
    hide Contenders, Protected, HeldBy, MapSum, FairUnits, ProtectedMaximum, ReservedSum, Lookup;
    var h := m.ledger.policy;
    ReservationsNonNegative(h);
    ReservedBoundsMaximum(h.profiles, p.profileId);
    CeilingCovers(h.profiles, p.profileId, held);
    PolicyHoldings(h.profiles, held);
  }

  /** Status finds room wherever the decision does, if it sees all holdings or the cursor is in range. */
  lemma SeesAllShowsRoom(m: Memory, p: ProfilePolicy, held: map<string, int>)
    requires UniqueProfiles(m.ledger.policy.profiles) && Lookup(m.ledger.policy.profiles, p.profileId) == Some(p)
    requires NonNegative(held) && SeesAll(m, held) && HasDemand(m, p.profileId)
    requires m.ledger.fences == map[] && WithheldReason(m, p, held).None?
    ensures ShowsRoom(m, p, held)
  {
    hide Contenders, Protected, HeldBy, MapSum, FairUnits, SeesAll;
    DemandContends(m, p.profileId);
    FairUnitsInStatus(m, p.profileId, held);
  }

  lemma ReservationsNonNegative(h: HostPolicy)
    requires ValidPolicy(h)
    ensures forall i :: 0 <= i < |h.profiles| ==> h.profiles[i].reservedUnits >= 0
  {
    forall i | 0 <= i < |h.profiles| ensures h.profiles[i].reservedUnits >= 0 {
      assert ProfileFits(h.profiles[i], h.totalUnits);
    }
  }

  lemma HoldingsNonNegative(l: Ledger)
    requires LeasesOk(l)
    ensures NonNegative(HeldMap(l.leases))
  {
    UnitsArePositive(l);
    forall p | p in HeldMap(l.leases) ensures HeldMap(l.leases)[p] >= 0 { WeightNonNegative(l.leases, Some(p)); }
  }

  lemma AtLeastOneWorker(units: nat, cost: int)
    requires cost >= 1
    ensures units / cost >= 1 <==> units >= cost
  {
    assert units == (units / cost) * cost + units % cost;
    if units / cost >= 1 { MulGap(0, units / cost, cost); }
  }

  /** Status promises a worker exactly when it withholds nothing and finds room by its own count. */
  lemma PromiseIsExact(m: Memory, p: ProfilePolicy)
    requires ValidLedger(m.ledger) && Lookup(m.ledger.policy.profiles, p.profileId) == Some(p)
    requires HasDemand(m, p.profileId) && p.unitCost >= 1
    ensures
      var held := HeldMap(m.ledger.leases);
      var c := CapacityOf(m, p, held);
      && (c.allocatableWorkers >= 1 <==> c.withheld.None? && ShowsRoom(m, p, held))
      && (c.withheld.None? && SeesAll(m, held) ==> ShowsRoom(m, p, held))
  {
    hide OpenUnits, HeldMap, TombstonesOk, FencesOk, LeaseOk, SeesAll, ShowsRoom, Decide, ProtectedMaximum, UniqueProfiles;
    var held := HeldMap(m.ledger.leases);
    AtLeastOneWorker(CapacityOf(m, p, held).allocatableUnits, p.unitCost);
    if WithheldReason(m, p, held).None? {
      HoldingsNonNegative(m.ledger);
      KnownPolicyIsValid(m.ledger, p.profileId);
      AdmittedIsPromisedExactly(m, p, held);
      if SeesAll(m, held) { SeesAllShowsRoom(m, p, held); }
    }
  }

  lemma KnownPolicyIsValid(l: Ledger, id: string)
    requires PolicyOk(l.policy) && Knows(l.policy, id)
    ensures ValidPolicy(l.policy)
  {}

  /**
   AllocatableWorkers is at least one exactly when the next acquire on a fresh slot at
   the same instant is granted and Status finds room by its own count. Promise and
   grant therefore agree exactly when something is withheld or Status finds room,
   which it always does when only policy profiles hold units or the cursor is in range.
   */
  lemma PromisedWorkerIsGranted(n: Node, env: Env, a: ProfileAccounting, slot: string, pending: int, next: Env)
    requires NodeOk(n) && EnvOk(n, env) && PolicyOk(n.mem.ledger.policy) && next.now == env.now && next.saved
    requires Status(n, env).outcome.Report? && Reported(Status(n, env).outcome.snapshot, a)
    requires a.pendingUnits.Some? && a.pendingUnits.value > 0
    requires var k := Key(a.profileId, slot); ValidKey(k) && k !in Status(n, env).node.mem.ledger.leases
    ensures Knows(Status(n, env).node.mem.ledger.policy, a.profileId)
    ensures
      var m := Status(n, env).node.mem;
      var p, held := Lookup(m.ledger.policy.profiles, a.profileId).value, HeldMap(m.ledger.leases);
      var promised := a.capacity.allocatableWorkers >= 1;
      var granted := Acquire(Status(n, env).node, Key(a.profileId, slot), pending, next).outcome.Leased?;
      && (promised <==> granted && ShowsRoom(m, p, held))
      && ((promised <==> granted) <==> a.capacity.withheld.Some? || ShowsRoom(m, p, held))
      && (SeesAll(m, held) ==> (promised <==> granted))
  {
    hide EnvOk, SweepPhase, CapacityOf, HeldMap, SnapshotOf, LeasesOk, TombstonesOk, FencesOk, PolicyOk, Acquire, ValidKey, SeesAll, ShowsRoom;
    StatusReasonIsNextError(n, env, a, slot, pending, next);
    SweepOk(CmdStatus, true, n, env);
    ForgetStaleOk(CmdStatus, true, SweepPhase(n, env).value, env.now);
    var m := ForgetStale(SweepPhase(n, env).value, env.now).mem;
    ReportedEntry(m, a);
    var p := Lookup(m.ledger.policy.profiles, a.profileId).value;
    PendingMeansDemand(m, p);
    PromiseIsExact(m, p);
  }
}
