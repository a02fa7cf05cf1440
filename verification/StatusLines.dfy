/**
 The status report in plain terms: which profiles it lists, and every figure of a
 line as a sum over leases, reservations and guaranteed shares.
 */
module StatusLines {
  import opened Ordering
  import opened FairShare
  import opened Policy
  import opened Sums
  import opened Leases
  import opened Admission
  import opened Ledgers
  import opened Commands
  import opened Invariants
  import opened StatusAgreement
  import opened Decisions
  import opened Replies

  // ---------------------------------------------------------------------
  // The sums

  /** What the leases of each profile of the policy hold; departed profiles do not count. */
  ghost function PolicyHoldings(h: HostPolicy, ls: LeaseMap): map<string, int> {
    map id | id in ProfileIds(h) :: Weight(ls, Some(id))
  }

  /** The non-borrowable reservations of the others. */
  ghost function OthersReservations(h: HostPolicy, requester: string): map<string, int> {
    map id | id in ProfileIds(h) && KeepsFrom(h, id, requester) :: ReservedOf(h, id)
  }

  ghost function HeldOf(ps: seq<ProfilePolicy>, held: map<string, int>): map<string, int> {
    map id | id in Ids(ps) :: At(held, id)
  }

  ghost function Ids(ps: seq<ProfilePolicy>): set<string> {
    set i | 0 <= i < |ps| :: ps[i].profileId
  }

  lemma IdsGrow(ps: seq<ProfilePolicy>)
    requires ps != [] && UniqueProfiles(ps)
    ensures Ids(ps) == Ids(ps[..|ps| - 1]) + {ps[|ps| - 1].profileId} && ps[|ps| - 1].profileId !in Ids(ps[..|ps| - 1])
  {
    var front := ps[..|ps| - 1];
    assert forall i :: 0 <= i < |front| ==> front[i] == ps[i];
    forall i | 0 <= i < |ps| - 1 ensures ps[i].profileId in Ids(front) { assert front[i] == ps[i]; }
  }

  lemma {:induction false} HeldByIsSum(ps: seq<ProfilePolicy>, held: map<string, int>)
    requires UniqueProfiles(ps)
    ensures HeldBy(ps, held) == MapSum(HeldOf(ps, held))
  {
    hide MapSum, Ids;
    if ps == [] {
      NoIds();
      assert HeldOf(ps, held) == map[];
      EmptySum();
    } else {
      var front, id := ps[..|ps| - 1], ps[|ps| - 1].profileId;
      HeldByIsSum(front, held);
      IdsGrow(ps);
      MapSumPut(HeldOf(front, held), id, At(held, id));
      assert HeldOf(ps, held) == HeldOf(front, held)[id := At(held, id)];
    }
  }

  lemma NoIds()
    ensures Ids([]) == {}
  {}

  lemma PolicyHoldingsSum(h: HostPolicy, ls: LeaseMap)
    requires UniqueProfiles(h.profiles)
    ensures HeldBy(h.profiles, HeldMap(ls)) == MapSum(PolicyHoldings(h, ls))
  {
    hide MapSum, HeldMap, Weight, HeldBy;
    HeldByIsSum(h.profiles, HeldMap(ls));
    var a, b := HeldOf(h.profiles, HeldMap(ls)), PolicyHoldings(h, ls);
    forall id | id in a ensures a[id] == b[id] { HeldMapAt(ls, id); }
    assert a == b;
  }

  lemma {:induction false} MaximumIsUnheld(ps: seq<ProfilePolicy>, requester: string)
    requires forall i :: 0 <= i < |ps| ==> ps[i].reservedUnits >= 0
    ensures ProtectedMaximum(ps, requester) == Protected(ps, requester, map[])
  {
    if ps != [] { MaximumIsUnheld(ps[..|ps| - 1], requester); }
  }

  lemma OthersReservationsSum(h: HostPolicy, requester: string)
    requires UniqueProfiles(h.profiles) && forall i :: 0 <= i < |h.profiles| ==> h.profiles[i].reservedUnits >= 0
    ensures ProtectedMaximum(h.profiles, requester) == MapSum(OthersReservations(h, requester))
  {
    hide MapSum, Protected, ProtectedMaximum;
    MaximumIsUnheld(h.profiles, requester);
    NoLeasesNoHoldings();
    ProtectedIsIdleSum(h, map[], requester);
    var a, b := IdleReservations(h, map[], requester), OthersReservations(h, requester);
    forall id | id in a ensures a[id] == b[id] {
      LookupFinds(h.profiles, id);
      var i :| 0 <= i < |h.profiles| && h.profiles[i] == Lookup(h.profiles, id).value;
    }
    assert a == b;
  }

  lemma NoLeasesNoHoldings()
    ensures HeldMap(map[]) == map[] && forall id :: Weight(map[], Some(id)) == 0
  {}

  // ---------------------------------------------------------------------
  // A line

  /** Units of the budget that no profile of the policy holds. */
  ghost function ShownFree(m: Memory): nat {
    Max(m.ledger.policy.totalUnits - MapSum(PolicyHoldings(m.ledger.policy, m.ledger.leases)), 0)
  }

  ghost function ShownUnprotected(m: Memory, id: string): nat {
    Max(ShownFree(m) - MapSum(IdleReservations(m.ledger.policy, m.ledger.leases, id)), 0)
  }

  /** What the profile can ever reach: the budget without the others' non-borrowable reservations. */
  ghost function Reach(m: Memory, id: string): nat {
    Max(m.ledger.policy.totalUnits - MapSum(OthersReservations(m.ledger.policy, id)), 0)
  }

  /** What is left of the unprotected units after every other contender's unused guarantee. */
  ghost function FairPart(m: Memory, id: string): nat {
    Max(ShownUnprotected(m, id) - MapSum(UnusedGuarantees(m, id, ShownUnprotected(m, id))), 0)
  }

  /** Units a profile is shown, when nothing is withheld from it. */
  ghost function ShownOpen(m: Memory, p: ProfilePolicy): nat {
    var id, held := p.profileId, Weight(m.ledger.leases, Some(p.profileId));
    var most := Max(Reach(m, id) - held, 0);
    if !HasDemand(m, id) then Min(ShownUnprotected(m, id), most)
    else Min(Max(Min(Max(p.reservedUnits - held, 0), ShownFree(m)), FairPart(m, id)), most)
  }

  /** Every figure of the line of one profile. */
  ghost predicate LineIsRight(m: Memory, a: ProfileAccounting) {
    && Knows(m.ledger.policy, a.profileId)
    && var p, id := Lookup(m.ledger.policy.profiles, a.profileId).value, a.profileId;
       && p.unitCost >= 1
       && a.heldUnits == Weight(m.ledger.leases, Some(id))
       && a.borrowedUnits == Max(Weight(m.ledger.leases, Some(id)) - p.reservedUnits, 0)
       && a.pendingUnits == (if id in m.known then Some((if id in m.demand then m.demand[id] else 0) * p.unitCost) else None)
       && a.capacity.theoreticalUnits == Reach(m, id) && a.capacity.theoreticalWorkers == Reach(m, id) / p.unitCost
       && a.capacity.allocatableUnits ==
            (if m.ledger.fences != map[] || a.capacity.withheld.Some? then 0 else ShownOpen(m, p))
       && a.capacity.allocatableWorkers == a.capacity.allocatableUnits / p.unitCost
  }

  lemma OpenUnitsAreShown(m: Memory, p: ProfilePolicy)
    requires ValidPolicy(m.ledger.policy) && Lookup(m.ledger.policy.profiles, p.profileId) == Some(p)
    ensures OpenUnits(m, p, HeldMap(m.ledger.leases)) == if m.ledger.fences != map[] then 0 else ShownOpen(m, p)
    ensures Max(m.ledger.policy.totalUnits - ProtectedMaximum(m.ledger.policy.profiles, p.profileId), 0) == Reach(m, p.profileId)
  {
    hide MapSum, HeldMap, Weight, HeldBy, Protected, ProtectedMaximum, FairUnits, FairPart,
      PolicyHoldings, OthersReservations, IdleReservations, Lookup;
    var h, ls, id := m.ledger.policy, m.ledger.leases, p.profileId;
    PolicyHoldingsSum(h, ls);
    OthersReservationsSum(h, id);
    ProtectedIsIdleSum(h, ls, id);
    HeldMapAt(ls, id);
    FairUnitsAreShown(m, id);
  }

  lemma FairUnitsAreShown(m: Memory, id: string)
    ensures
      FairUnits(Contenders(m.ledger.policy, m.demand), m.ledger.policy, HeldMap(m.ledger.leases), m.rotation, id, ShownUnprotected(m, id)) ==
        FairPart(m, id)
  {
    hide MapSum, HeldMap, Contenders, IndexOf, SharedHoldings, Withheld, UnusedGuarantees, ShownUnprotected;
    WithheldIsUnused(m, id, ShownUnprotected(m, id));
    NoContendersNoGuarantees(m, id, ShownUnprotected(m, id));
  }

  lemma LineHolds(m: Memory, a: ProfileAccounting)
    requires PolicyOk(m.ledger.policy) && Reported(SnapshotOf(m), a)
    ensures LineIsRight(m, a)
  {
    hide SnapshotOf, ValidPolicy, HeldMap, Weight, OpenUnits, ShownOpen, Reach, ProtectedMaximum, WithheldReason, Lookup;
    ReportedEntry(m, a);
    ListedProfile(m.ledger.policy, a.profileId);
    HeldMapAt(m.ledger.leases, a.profileId);
    LookupItself(m.ledger.policy, a.profileId);
    OpenUnitsAreShown(m, Lookup(m.ledger.policy.profiles, a.profileId).value);
  }

  lemma LookupItself(h: HostPolicy, id: string)
    requires Knows(h, id)
    ensures Lookup(h.profiles, id).value.profileId == id
  {}

  // ---------------------------------------------------------------------
  // The report

  /** One line per profile of the policy, in the order of the identities, every figure right, and the free units. */
  ghost predicate ReportIsRight(m: Memory, s: Snapshot) {
    && s.ledger == m.ledger && s.availableUnits == ShownFree(m)
    && (forall i, j :: 0 <= i < j < |s.accounting| ==> Less(s.accounting[i].profileId, s.accounting[j].profileId))
    && (forall i :: 0 <= i < |s.accounting| ==> LineIsRight(m, s.accounting[i]))
    && (forall id :: Knows(m.ledger.policy, id) ==> exists i :: 0 <= i < |s.accounting| && s.accounting[i].profileId == id)
  }

  lemma LineNames(m: Memory, i: nat)
    requires PolicyOk(m.ledger.policy) && i < |SortedView(ProfileIds(m.ledger.policy))|
    ensures
      && |SnapshotOf(m).accounting| == |SortedView(ProfileIds(m.ledger.policy))|
      && SnapshotOf(m).accounting[i].profileId == SortedView(ProfileIds(m.ledger.policy))[i]
  {
    hide CapacityOf, HeldMap, ValidPolicy, SortedView;
    var id := SortedView(ProfileIds(m.ledger.policy))[i];
    ListedProfile(m.ledger.policy, id);
    assert id in SortedView(ProfileIds(m.ledger.policy));
    LookupItself(m.ledger.policy, id);
  }

  lemma SnapshotParts(m: Memory)
    requires PolicyOk(m.ledger.policy)
    ensures SnapshotOf(m).ledger == m.ledger
    ensures |SnapshotOf(m).accounting| == |SortedView(ProfileIds(m.ledger.policy))|
    ensures SnapshotOf(m).availableUnits == ShownFree(m)
  {
    hide CapacityOf, HeldMap, SortedView, MapSum, HeldBy, PolicyHoldings;
    PolicyHoldingsSum(m.ledger.policy, m.ledger.leases);
  }

  lemma SnapshotIsRight(m: Memory)
    requires PolicyOk(m.ledger.policy)
    ensures ReportIsRight(m, SnapshotOf(m))
  {
    hide SnapshotOf, PolicyOk, SortedView, LineIsRight, ShownFree, Less, ProfileIds, Knows;
    var s, ids := SnapshotOf(m), SortedView(ProfileIds(m.ledger.policy));
    SnapshotParts(m);
    forall i | 0 <= i < |ids| ensures s.accounting[i].profileId == ids[i] && LineIsRight(m, s.accounting[i]) {
      LineNames(m, i);
      LineHolds(m, s.accounting[i]);
    }
    forall id | Knows(m.ledger.policy, id) ensures exists i :: 0 <= i < |s.accounting| && s.accounting[i].profileId == id {
      ListedProfile(m.ledger.policy, id);
      assert id in Elements(ids);
      var i :| 0 <= i < |ids| && ids[i] == id;
      assert s.accounting[i].profileId == id;
    }
  }

  /** Status reports exactly if its sweep goes through, and then on the leases in force with every figure right. */
  lemma StatusAnswers(n: Node, env: Env)
    requires NodeOk(n) && EnvOk(n, env) && PolicyOk(n.mem.ledger.policy)
    ensures
      var r := Status(n, env);
      if Sweeps(n.mem, env) then
        && r.outcome.Report? && ReportIsRight(r.node.mem, r.outcome.snapshot)
        && r.node.mem.ledger.leases == InForce(n.mem, env.now) && r.node.mem.demand == Wanted(n.mem, env.now)
      else r.outcome == Failed(StoreFailure) && r.node == n
  {
    hide ValidLedger, EnvOk, SweepPhase, Sweeps, SnapshotOf, ReportIsRight, PolicyOk, Wanted, Live;
    SweepLeavesLive(n, env);
    if SweepPhase(n, env).Some? {
      SweptDemand(n, env);
      SnapshotIsRight(ForgetStale(SweepPhase(n, env).value, env.now).mem);
    }
  }
}
