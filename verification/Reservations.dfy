/**
 Protected reservations: free units cover every idle non-borrowable reservation.
 Ordinary edits keep this under a policy whose borrowable profiles reserve
 nothing, so an owner with room in its reservation is always admitted. In
 general a grant breaks it exactly when an owner reclaims a lent reservation
 from units that protect someone else.
 */
module Reservations {
  import opened Identity
  import opened Ordering
  import opened FairShare
  import opened Policy
  import opened Sums
  import opened Leases
  import opened Admission
  import opened Ledgers
  import opened Commands
  import opened Invariants
  import opened Runs
  import opened Lifetimes
  import opened Budget

  /** Free units cover all idle non-borrowable reservations. */
  ghost predicate Covered(h: HostPolicy, held: map<string, int>) {
    Free(h, held) >= Headroom(h.profiles, held)
  }

  predicate NoBorrowableReservations(h: HostPolicy) {
    forall i :: 0 <= i < |h.profiles| && h.profiles[i].borrowable ==> h.profiles[i].reservedUnits == 0
  }

  function Raised(held: map<string, int>, id: string, units: int): map<string, int> {
    held[id := At(held, id) + units]
  }

  /** What profile `id` contributes to the headroom. */
  function OwnHeadroom(ps: seq<ProfilePolicy>, id: string, held: map<string, int>): nat {
    var p := Lookup(ps, id);
    if p.None? || p.value.borrowable then 0 else Max(p.value.reservedUnits - At(held, id), 0)
  }

  lemma {:induction false} LookupFront(ps: seq<ProfilePolicy>, id: string)
    requires UniqueProfiles(ps) && ps != []
    ensures
      Lookup(ps, id) ==
        if ps[|ps| - 1].profileId == id then Some(ps[|ps| - 1]) else Lookup(ps[..|ps| - 1], id)
  {
    var last := ps[|ps| - 1];
    if |ps| == 1 {
      assert ps[1..] == [];
    } else {
      LookupFront(ps[1..], id);
      assert ps[1..][..|ps| - 2] == ps[..|ps| - 1][1..];
    }
  }

  /** The headroom is the requester's own part and the protection of everyone else. */
  lemma {:induction false} HeadroomSplit(ps: seq<ProfilePolicy>, id: string, held: map<string, int>)
    requires UniqueProfiles(ps)
    ensures Headroom(ps, held) == Protected(ps, id, held) + OwnHeadroom(ps, id, held)
  {
    if ps != [] {
      var front := ps[..|ps| - 1];
      HeadroomSplit(front, id, held);
      LookupFront(ps, id);
      if ps[|ps| - 1].profileId == id { AbsentFromFront(ps, id); }
    }
  }

  lemma AbsentFromFront(ps: seq<ProfilePolicy>, id: string)
    requires UniqueProfiles(ps) && ps != [] && ps[|ps| - 1].profileId == id
    ensures Lookup(ps[..|ps| - 1], id).None?
  {
    LookupFinds(ps[..|ps| - 1], id);
  }

  lemma {:induction false} ProtectedIgnoresRequester(ps: seq<ProfilePolicy>, id: string, held: map<string, int>, units: int)
    ensures Protected(ps, id, Raised(held, id, units)) == Protected(ps, id, held)
  {
    if ps != [] { ProtectedIgnoresRequester(ps[..|ps| - 1], id, held, units); }
  }

  // ---------------------------------------------------------------------
  // One grant, one removal

  /**
   A grant with room keeps the headroom covered, except when a borrowable owner
   takes units that the shared pool would have refused it.
   */
  lemma GrantKeepsCoveredExactly(h: HostPolicy, p: ProfilePolicy, held: map<string, int>)
    requires UniqueProfiles(h.profiles) && Lookup(h.profiles, p.profileId) == Some(p) && p.unitCost >= 1
    requires Covered(h, held) && HasRoom(h, p, held)
    ensures
      Covered(h, Raised(held, p.profileId, p.unitCost)) <==>
        !(p.borrowable && Free(h, held) - Protected(h.profiles, p.profileId, held) < p.unitCost)
  {
    hide Protected, Headroom;
    var id, held' := p.profileId, Raised(held, p.profileId, p.unitCost);
    HeadroomSplit(h.profiles, id, held);
    HeadroomSplit(h.profiles, id, held');
    ProtectedIgnoresRequester(h.profiles, id, held, p.unitCost);
    MapSumPut(held, id, At(held, id) + p.unitCost);
  }

  lemma RemovalKeepsCovered(h: HostPolicy, id: string, held: map<string, int>, units: int)
    requires UniqueProfiles(h.profiles) && units >= 0
    requires Covered(h, Raised(held, id, units))
    ensures Covered(h, held)
  {
    hide Protected, Headroom, Lookup;
    HeadroomSplit(h.profiles, id, held);
    HeadroomSplit(h.profiles, id, Raised(held, id, units));
    ProtectedIgnoresRequester(h.profiles, id, held, units);
    MapSumPut(held, id, At(held, id) + units);
  }

  lemma DropOneKeepsCovered(h: HostPolicy, ls: LeaseMap, k: Key)
    requires UniqueProfiles(h.profiles) && PositiveUnits(ls) && Covered(h, HeldMap(ls))
    ensures Covered(h, HeldMap(ls - {k}))
  {
    hide Covered, HeldMap;
    if k in ls {
      HeldMapPut(ls - {k}, k, ls[k]);
      assert (ls - {k})[k := ls[k]] == ls;
      RemovalKeepsCovered(h, ls[k].profileId, HeldMap(ls - {k}), ls[k].units);
    } else {
      assert ls - {k} == ls;
    }
  }

  lemma {:induction false} DropKeepsCovered(h: HostPolicy, ls: LeaseMap, gone: set<Key>)
    requires UniqueProfiles(h.profiles) && PositiveUnits(ls) && Covered(h, HeldMap(ls))
    ensures Covered(h, HeldMap(ls - gone))
    decreases |gone|
  {
    hide Covered, HeldMap;
    if gone == {} {
      assert ls - gone == ls;
    } else {
      var k :| k in gone;
      DropKeepsCovered(h, ls, gone - {k});
      DropOneKeepsCovered(h, ls - (gone - {k}), k);
      assert ls - (gone - {k}) - {k} == ls - gone;
    }
  }

  // ---------------------------------------------------------------------
  // Edits and runs

  lemma UniqueInForce(l: Ledger)
    requires PolicyOk(l.policy)
    ensures UniqueProfiles(l.policy.profiles)
  {}

  lemma GrantStep(l: Ledger, e: Edit)
    requires ValidLedger(l) && Enabled(l, e) && e.Grant? && e.status.Provisional?
    requires NoBorrowableReservations(l.policy) && Covered(l.policy, HeldMap(l.leases))
    ensures Covered(l.policy, HeldMap(Apply(l, e).leases))
  {
    hide TombstonesOk, FencesOk, LeaseOk, Compact, Swept, Covered, HeldMap, MapSum, Protected, Weight;
    var p := Lookup(l.policy.profiles, e.key.profile).value;
    KnownProfileIsValid(l.policy, e.key.profile);
    LookupFinds(l.policy.profiles, e.key.profile);
    var i :| 0 <= i < |l.policy.profiles| && l.policy.profiles[i] == p;
    UnitsArePositive(l);
    HeldMapAt(l.leases, e.key.profile);
    WeightNonNegative(l.leases, Some(e.key.profile));
    GrantKeepsCoveredExactly(l.policy, p, HeldMap(l.leases));
    HeldMapPut(l.leases, e.key, Apply(l, e).leases[e.key]);
  }

  lemma AmendKeepsHeldMap(ls: LeaseMap, k: Key, lease: Lease)
    requires k in ls && lease.profileId == ls[k].profileId && lease.units == ls[k].units
    ensures HeldMap(ls[k := lease]) == HeldMap(ls)
  {
    hide HeldMap;
    HeldMapPut(ls - {k}, k, ls[k]);
    HeldMapPut(ls - {k}, k, lease);
    assert (ls - {k})[k := ls[k]] == ls;
    assert (ls - {k})[k := lease] == ls[k := lease];
  }

  /** Ordinary edits keep idle reservations covered when nothing reserved is borrowable. */
  lemma OrdinaryKeepsCovered(l: Ledger, e: Edit)
    requires ValidLedger(l) && Enabled(l, e) && Ordinary(e)
    requires NoBorrowableReservations(l.policy) && Covered(l.policy, HeldMap(l.leases))
    ensures Covered(l.policy, HeldMap(Apply(l, e).leases))
  {
    hide TombstonesOk, FencesOk, LeaseOk, Compact, Swept, Covered, HeldMap, HasRoom, Accounted, NoBorrowableReservations;
    UniqueInForce(l);
    UnitsArePositive(l);
    match e
    case Sweep(order, _) => DropKeepsCovered(l.policy, l.leases, Elements(order));
    case Remove(k, _, _) => DropKeepsCovered(l.policy, l.leases, {k});
    case Grant(_, _, _, _) => GrantStep(l, e);
    case Bind(k, _) => AmendKeepsHeldMap(l.leases, k, Apply(l, e).leases[k]);
    case Renew(k, _) => AmendKeepsHeldMap(l.leases, k, Apply(l, e).leases[k]);
    case Promote(k, _) => AmendKeepsHeldMap(l.leases, k, Apply(l, e).leases[k]);
    case _ =>
  }

  lemma {:induction false} CoveredPath(l: Ledger, es: seq<Edit>)
    requires ValidLedger(l) && AllEnabled(l, es) && forall e :: e in es ==> Ordinary(e)
    requires NoBorrowableReservations(l.policy) && Covered(l.policy, HeldMap(l.leases))
    ensures Covered(l.policy, HeldMap(After(l, es).leases)) && After(l, es).policy == l.policy
    decreases |es|
  {
    hide ValidLedger, Enabled, Apply, Covered, HeldMap, NoBorrowableReservations;
    if es != [] {
      var front, last := es[..|es| - 1], es[|es| - 1];
      assert last in es && forall e :: e in front ==> e in es;
      CoveredPath(l, front);
      PathKeepsValid(l, front);
      EnabledIsDefined(After(l, front), last);
      EditFrame(After(l, front), last);
      OrdinaryKeepsCovered(After(l, front), last);
    }
  }

  lemma {:induction false} HeadroomAtMostReserved(ps: seq<ProfilePolicy>)
    requires forall i :: 0 <= i < |ps| ==> ps[i].reservedUnits >= 0
    ensures Headroom(ps, map[]) <= ReservedSum(ps)
  {
    if ps != [] { HeadroomAtMostReserved(ps[..|ps| - 1]); }
  }

  /** An empty ledger covers every reservation, because a valid policy's reservations fit the budget. */
  lemma EmptyLedgerIsCovered(h: HostPolicy)
    requires PolicyOk(h)
    ensures Covered(h, HeldMap(map[]))
  {
    assert HeldMap(map[]) == map[];
    if h.generation > 0 {
      forall i | 0 <= i < |h.profiles| ensures h.profiles[i].reservedUnits >= 0 {
        assert ProfileFits(h.profiles[i], h.totalUnits);
      }
      HeadroomAtMostReserved(h.profiles);
    }
  }

  /** From an empty ledger under one such policy, free units cover all idle reservations forever. */
  lemma ReservationsStayCovered(t: Trace, i: nat, j: nat)
    requires ValidTrace(t) && i <= j <= |t.events|
    requires LedgerOf(t.hosts[i]).leases == map[] && NoBorrowableReservations(LedgerOf(t.hosts[i]).policy)
    requires forall m :: i <= m < j ==> !PublishesPolicy(t, m) && !AdoptsAnew(t, m)
    ensures
      var l := LedgerOf(t.hosts[j]);
      l.policy == LedgerOf(t.hosts[i]).policy && Covered(l.policy, HeldMap(l.leases))
  {
    hide NodeOk, Next, Possible, AllEnabled, Covered, HeldMap, PublishesPolicy, AdoptsAnew,
      LeasesOk, TombstonesOk, FencesOk, NoBorrowableReservations;
    LedgerValidAt(t, i);
    RunIsPath(t, i, j);
    SegmentIsOrdinary(t, i, j);
    EmptyLedgerIsCovered(LedgerOf(t.hosts[i]).policy);
    CoveredPath(LedgerOf(t.hosts[i]), Between(t, i, j));
  }

  // ---------------------------------------------------------------------
  // What coverage buys the owner

  /** With coverage, an owner with a unit cost of room left in its reservation is admitted. */
  lemma CoveredOwnerIsAdmitted(h: HostPolicy, contenders: seq<string>, rotation: nat, p: ProfilePolicy, held: map<string, int>)
    requires UniqueProfiles(h.profiles) && Lookup(h.profiles, p.profileId) == Some(p) && !p.borrowable
    requires Covered(h, held) && OwnRemaining(p, held) >= p.unitCost
    ensures Decide(h, contenders, rotation, p, held) == Admit(0)
  {
    hide Protected, Headroom;
    HeadroomSplit(h.profiles, p.profileId, held);
  }

  /** An acquire by such an owner on a fresh slot is granted whenever its saves succeed. */
  lemma OwnerAcquireIsGranted(n: Node, k: Key, pending: int, env: Env)
    requires NodeOk(n) && EnvOk(n, env) && ValidKey(k) && env.sweepSaved && env.saved
    requires n.mem.ledger.fences == map[] && k !in n.mem.ledger.leases && Knows(n.mem.ledger.policy, k.profile)
    requires Covered(n.mem.ledger.policy, HeldMap(n.mem.ledger.leases))
    requires
      var p := Lookup(n.mem.ledger.policy.profiles, k.profile).value;
      !p.borrowable && p.reservedUnits - Weight(n.mem.ledger.leases, Some(k.profile)) >= p.unitCost
    ensures Acquire(n, k, pending, env).outcome.Leased?
  {
    hide ValidLedger, DemandOk, EnvOk, Due, Covered, HeldMap, Weight, Decide, Contenders, Apply, Noted, AcquireSwept;
    var s := SweepPhase(n, env).value;
    var ready := ForgetStale(s, env.now);
    SweepLeavesNothingDue(n, env);
    SweptOwnerHasRoom(n, k, env);
    OwnerGrantedAfterSweep(ready, k, pending, env);
    NotedKeepsOutcome(AcquireSwept(ready, k, pending, env), AcquireLease, k.profile, env);
  }

  lemma NotedKeepsOutcome(r: Reply, command: LeaseCommand, profile: string, env: Env)
    ensures Noted(r, command, profile, env).outcome == r.outcome
  {
    hide Apply;
  }

  lemma SweptOwnerHasRoom(n: Node, k: Key, env: Env)
    requires NodeOk(n) && EnvOk(n, env) && env.sweepSaved
    requires Covered(n.mem.ledger.policy, HeldMap(n.mem.ledger.leases))
    ensures SweepPhase(n, env).Some?
    ensures
      var l, l' := n.mem.ledger, SweepPhase(n, env).value.mem.ledger;
      && UniqueProfiles(l.policy.profiles)
      && l'.policy == l.policy && Covered(l.policy, HeldMap(l'.leases))
      && Weight(l'.leases, Some(k.profile)) <= Weight(l.leases, Some(k.profile))
  {
    hide DemandOk, Covered, HeldMap, Weight, TombstonesOk, FencesOk, LeaseOk, Compact, Swept;
    SweepLeavesNothingDue(n, env);
    UniqueInForce(n.mem.ledger);
    UnitsArePositive(n.mem.ledger);
    DropKeepsCovered(n.mem.ledger.policy, n.mem.ledger.leases, Due(n.mem, env.now));
    WeightDrop(n.mem.ledger.leases, Due(n.mem, env.now), Some(k.profile));
  }

  lemma OwnerGrantedAfterSweep(n: Node, k: Key, pending: int, env: Env)
    requires UniqueProfiles(n.mem.ledger.policy.profiles) && env.saved
    requires n.mem.ledger.fences == map[] && k !in n.mem.ledger.leases && Knows(n.mem.ledger.policy, k.profile)
    requires Covered(n.mem.ledger.policy, HeldMap(n.mem.ledger.leases))
    requires
      var p := Lookup(n.mem.ledger.policy.profiles, k.profile).value;
      !p.borrowable && p.reservedUnits - Weight(n.mem.ledger.leases, Some(k.profile)) >= p.unitCost
    ensures AcquireSwept(n, k, pending, env).outcome.Leased?
  {
    hide Covered, HeldMap, Weight, Decide, Contenders, Apply;
    var want := Max(pending, 1);
    var m := WithDemand(n.mem, k.profile, want, env.now + DEMAND_TTL);
    var h, p := m.ledger.policy, Lookup(n.mem.ledger.policy.profiles, k.profile).value;
    HeldMapAt(m.ledger.leases, k.profile);
    CoveredOwnerIsAdmitted(h, Contenders(h, m.demand), m.rotation, p, HeldMap(m.ledger.leases));
  }

  /**
   In a run that starts empty under one policy whose borrowable profiles reserve
   nothing, with no worker adopted anew, an unfenced owner with room left in its
   reservation is never refused a fresh slot.
   */
  lemma OwnerIsNeverRefused(t: Trace, i: nat, j: nat)
    requires ValidTrace(t) && i <= j < |t.events|
    requires LedgerOf(t.hosts[i]).leases == map[] && NoBorrowableReservations(LedgerOf(t.hosts[i]).policy)
    requires forall m :: i <= m < j ==> !PublishesPolicy(t, m) && !AdoptsAnew(t, m)
    requires t.events[j].Do? && t.events[j].command.CmdAcquire? && ValidKey(t.events[j].command.key)
    requires t.events[j].env.sweepSaved && t.events[j].env.saved
    requires
      var l, k := LedgerOf(t.hosts[j]), t.events[j].command.key;
      && l.fences == map[] && k !in l.leases && Knows(l.policy, k.profile)
      && var p := Lookup(l.policy.profiles, k.profile).value;
         p.reservedUnits - Weight(l.leases, Some(k.profile)) >= p.unitCost >= 1
    ensures ReplyAt(t, j).outcome.Leased?
  {
    hide Next, Covered, HeldMap, Weight, PublishesPolicy, AdoptsAnew, Acquire, ValidLedger, DemandOk;
    assert StepAt(t, j);
    var l, c := LedgerOf(t.hosts[j]), t.events[j].command;
    EveryHostOk(t, j);
    ReservationsStayCovered(t, i, j);
    OwnerReservationIsProtected(l, c.key.profile);
    OwnerAcquireIsGranted(NodeOf(t.hosts[j]), c.key, c.pending, t.events[j].env);
  }

  lemma OwnerReservationIsProtected(l: Ledger, id: string)
    requires ValidLedger(l) && NoBorrowableReservations(l.policy) && Knows(l.policy, id)
    requires
      var p := Lookup(l.policy.profiles, id).value;
      p.reservedUnits - Weight(l.leases, Some(id)) >= p.unitCost >= 1
    ensures !Lookup(l.policy.profiles, id).value.borrowable
  {
    hide TombstonesOk, FencesOk, LeaseOk, Weight;
    UnitsArePositive(l);
    WeightNonNegative(l.leases, Some(id));
    LookupFinds(l.policy.profiles, id);
    var p := Lookup(l.policy.profiles, id).value;
    var i :| 0 <= i < |l.policy.profiles| && l.policy.profiles[i] == p;
  }
}
