/**
 The admission decision in plain terms: units of leases, reservations of the policy
 and guaranteed shares, with every sum given entry by entry.
 */
module Decisions {
  import opened Ordering
  import opened FairShare
  import opened Policy
  import opened Sums
  import opened Leases
  import opened Admission
  import opened Commands

  // ---------------------------------------------------------------------
  // Idle reservations

  /** The profile keeps a non-borrowable reservation from the requester. */
  ghost predicate KeepsFrom(h: HostPolicy, id: string, requester: string) {
    Knows(h, id) && id != requester && !Lookup(h.profiles, id).value.borrowable
  }

  /** For every other profile with a non-borrowable reservation, the part its leases leave unused. */
  ghost function IdleReservations(h: HostPolicy, ls: LeaseMap, requester: string): map<string, int> {
    map id | id in ProfileIds(h) && KeepsFrom(h, id, requester) ::
      Max(ReservedOf(h, id) - Weight(ls, Some(id)), 0)
  }

  ghost function IdleOf(ps: seq<ProfilePolicy>, requester: string, held: map<string, int>): map<string, int> {
    if ps == [] then map[] else
      var p := ps[|ps| - 1];
      var rest := IdleOf(ps[..|ps| - 1], requester, held);
      if p.profileId == requester || p.borrowable then rest
      else rest[p.profileId := Max(p.reservedUnits - At(held, p.profileId), 0)]
  }

  lemma {:induction false} IdleEntry(ps: seq<ProfilePolicy>, requester: string, held: map<string, int>, id: string)
    ensures id in IdleOf(ps, requester, held) ==> exists i :: 0 <= i < |ps| && ps[i].profileId == id
  {
    if ps != [] {
      IdleEntry(ps[..|ps| - 1], requester, held, id);
      if id in IdleOf(ps[..|ps| - 1], requester, held) {
        var i :| 0 <= i < |ps| - 1 && ps[..|ps| - 1][i].profileId == id;
        assert ps[i].profileId == id;
      }
    }
  }

  lemma {:induction false} IdleValue(ps: seq<ProfilePolicy>, requester: string, held: map<string, int>, i: nat)
    requires UniqueProfiles(ps) && i < |ps|
    ensures
      var p, idle := ps[i], IdleOf(ps, requester, held);
      if p.profileId == requester || p.borrowable then p.profileId !in idle
      else p.profileId in idle && idle[p.profileId] == Max(p.reservedUnits - At(held, p.profileId), 0)
  {
    var front := ps[..|ps| - 1];
    if i < |ps| - 1 {
      IdleValue(front, requester, held, i);
    } else if ps[i].profileId in IdleOf(front, requester, held) {
      IdleEntry(front, requester, held, ps[i].profileId);
    }
  }

  lemma {:induction false} ProtectedIsIdle(ps: seq<ProfilePolicy>, requester: string, held: map<string, int>)
    requires UniqueProfiles(ps)
    ensures Protected(ps, requester, held) == MapSum(IdleOf(ps, requester, held))
  {
    hide MapSum;
    if ps == [] {
      EmptySum();
    } else {
      var front, p := ps[..|ps| - 1], ps[|ps| - 1];
      ProtectedIsIdle(front, requester, held);
      if p.profileId in IdleOf(front, requester, held) { IdleEntry(front, requester, held, p.profileId); }
      MapSumPut(IdleOf(front, requester, held), p.profileId, Max(p.reservedUnits - At(held, p.profileId), 0));
    }
  }

  lemma EmptySum()
    ensures MapSum(map[]) == 0
  {}

  /** The protected units are the sum of the idle reservations. */
  lemma ProtectedIsIdleSum(h: HostPolicy, ls: LeaseMap, requester: string)
    requires UniqueProfiles(h.profiles)
    ensures Protected(h.profiles, requester, HeldMap(ls)) == MapSum(IdleReservations(h, ls, requester))
  {
    hide Protected, MapSum, HeldMap, Weight, IdleOf;
    var held, idle, named := HeldMap(ls), IdleOf(h.profiles, requester, HeldMap(ls)), IdleReservations(h, ls, requester);
    ProtectedIsIdle(h.profiles, requester, held);
    forall i | 0 <= i < |h.profiles|
      ensures
        var id := h.profiles[i].profileId;
        (id in idle <==> id in named) && (id in idle ==> idle[id] == named[id])
    {
      IdleProfile(h, ls, requester, i);
    }
    forall id ensures id in idle <==> id in named {
      if id in idle { IdleEntry(h.profiles, requester, held, id); }
      if id in named { var i :| 0 <= i < |h.profiles| && h.profiles[i].profileId == id; }
    }
    forall id | id in idle ensures idle[id] == named[id] {
      IdleEntry(h.profiles, requester, held, id);
    }
    assert idle == named;
  }

  lemma IdleProfile(h: HostPolicy, ls: LeaseMap, requester: string, i: nat)
    requires UniqueProfiles(h.profiles) && i < |h.profiles|
    ensures
      var id, idle, named := h.profiles[i].profileId, IdleOf(h.profiles, requester, HeldMap(ls)), IdleReservations(h, ls, requester);
      (id in idle <==> id in named) && (id in idle ==> idle[id] == named[id])
  {
    hide HeldMap, Weight, IdleOf;
    var p := h.profiles[i];
    LookupUnique(h.profiles, p);
    IdleValue(h.profiles, requester, HeldMap(ls), i);
    HeldMapAt(ls, p.profileId);
    assert p.profileId in ProfileIds(h);
  }

  // ---------------------------------------------------------------------
  // Guarantees of the other contenders

  /** What the leases of a contender take from the shared pool: its units beyond its reservation. */
  ghost function PoolHolding(h: HostPolicy, ls: LeaseMap, id: string): nat {
    Max(Weight(ls, Some(id)) - ReservedOf(h, id), 0)
  }

  /** For every other contender, the part of its guaranteed share that it does not use yet. */
  ghost function UnusedGuarantees(m: Memory, requester: string, available: nat): map<string, int> {
    var h, cs := m.ledger.policy, Contenders(m.ledger.policy, m.demand);
    map id | id in cs && id != requester ::
      Max(Share(|cs|, m.rotation, IndexOf(cs, id), available) - PoolHolding(h, m.ledger.leases, id), 0)
  }

  ghost function WithheldOf(
    cs: seq<string>, shared: seq<nat>, requester: string, cursor: nat, available: nat, upTo: nat): map<string, int>
    requires |cs| == |shared| && upTo <= |cs|
  {
    if upTo == 0 then map[] else
      var rest := WithheldOf(cs, shared, requester, cursor, available, upTo - 1);
      if cs[upTo - 1] == requester then rest
      else rest[cs[upTo - 1] := Max(Share(|cs|, cursor, upTo - 1, available) - shared[upTo - 1], 0)]
  }

  lemma {:induction false} WithheldEntries(
    cs: seq<string>, shared: seq<nat>, requester: string, cursor: nat, available: nat, upTo: nat, i: nat)
    requires |cs| == |shared| && upTo <= |cs| && Distinct(cs) && i < |cs|
    ensures
      var w := WithheldOf(cs, shared, requester, cursor, available, upTo);
      && (cs[i] in w <==> i < upTo && cs[i] != requester)
      && (cs[i] in w ==> w[cs[i]] == Max(Share(|cs|, cursor, i, available) - shared[i], 0))
      && (forall id :: id in w ==> id in cs)
  {
    if upTo > 0 { WithheldEntries(cs, shared, requester, cursor, available, upTo - 1, i); }
  }

  lemma {:induction false} WithheldIsSum(
    cs: seq<string>, shared: seq<nat>, requester: string, cursor: nat, available: nat, upTo: nat)
    requires |cs| == |shared| && upTo <= |cs| && Distinct(cs)
    ensures
      Withheld(shared, IndexOf(cs, requester), cursor, available, upTo) ==
        MapSum(WithheldOf(cs, shared, requester, cursor, available, upTo))
  {
    hide MapSum, Share;
    if upTo == 0 {
      EmptySum();
    } else {
      var i := upTo - 1;
      WithheldIsSum(cs, shared, requester, cursor, available, i);
      WithheldEntries(cs, shared, requester, cursor, available, i, i);
      MapSumPut(WithheldOf(cs, shared, requester, cursor, available, i), cs[i], Max(Share(|cs|, cursor, i, available) - shared[i], 0));
    }
  }

  lemma SharedHoldingAt(h: HostPolicy, ls: LeaseMap, cs: seq<string>, i: nat)
    requires i < |cs|
    ensures SharedHoldings(cs, h, HeldMap(ls))[i] == PoolHolding(h, ls, cs[i])
  {
    hide HeldMap, Weight;
    HeldMapAt(ls, cs[i]);
  }

  lemma DistinctIndex(cs: seq<string>, i: nat)
    requires Distinct(cs) && i < |cs|
    ensures IndexOf(cs, cs[i]) == i
  {}

  lemma UnusedEntry(m: Memory, requester: string, available: nat, id: string)
    ensures
      var h, cs := m.ledger.policy, Contenders(m.ledger.policy, m.demand);
      var w := WithheldOf(cs, SharedHoldings(cs, h, HeldMap(m.ledger.leases)), requester, m.rotation, available, |cs|);
      var unused := UnusedGuarantees(m, requester, available);
      (id in w <==> id in unused) && (id in w ==> w[id] == unused[id])
  {
    hide HeldMap, Weight, Share, Contenders, WithheldOf, SharedHoldings, PoolHolding, IndexOf;
    var h, cs := m.ledger.policy, Contenders(m.ledger.policy, m.demand);
    var shared := SharedHoldings(cs, h, HeldMap(m.ledger.leases));
    ContendersDistinct(h, m.demand);
    WithheldKeys(cs, shared, requester, m.rotation, available);
    if id in cs {
      var i :| 0 <= i < |cs| && cs[i] == id;
      WithheldEntries(cs, shared, requester, m.rotation, available, |cs|, i);
      SharedHoldingAt(h, m.ledger.leases, cs, i);
      DistinctIndex(cs, i);
    }
  }

  /** What the pool withholds from the requester is the sum of the others' unused guarantees. */
  lemma WithheldIsUnused(m: Memory, requester: string, available: nat)
    ensures
      var cs := Contenders(m.ledger.policy, m.demand);
      var shared := SharedHoldings(cs, m.ledger.policy, HeldMap(m.ledger.leases));
      Withheld(shared, IndexOf(cs, requester), m.rotation, available, |cs|) == MapSum(UnusedGuarantees(m, requester, available))
  {
    hide MapSum, HeldMap, Contenders, WithheldOf, Withheld, SharedHoldings, UnusedGuarantees, IndexOf, Distinct;
    var h, cs := m.ledger.policy, Contenders(m.ledger.policy, m.demand);
    var shared := SharedHoldings(cs, h, HeldMap(m.ledger.leases));
    ContendersDistinct(h, m.demand);
    WithheldIsSum(cs, shared, requester, m.rotation, available, |cs|);
    var w, unused := WithheldOf(cs, shared, requester, m.rotation, available, |cs|), UnusedGuarantees(m, requester, available);
    forall id ensures (id in w <==> id in unused) && (id in w ==> w[id] == unused[id]) {
      UnusedEntry(m, requester, available, id);
    }
    assert w == unused;
  }

  lemma WithheldKeys(cs: seq<string>, shared: seq<nat>, requester: string, cursor: nat, available: nat)
    requires |cs| == |shared| && Distinct(cs)
    ensures forall id :: id in WithheldOf(cs, shared, requester, cursor, available, |cs|) ==> id in cs
  {
    if cs != [] { WithheldEntries(cs, shared, requester, cursor, available, |cs|, 0); }
  }

  // ---------------------------------------------------------------------
  // The decision

  ghost function FreeUnits(m: Memory): int {
    m.ledger.policy.totalUnits - TotalHeld(m.ledger.leases)
  }

  /** Free units minus the idle reservations of the others. */
  ghost function OpenToPool(m: Memory, p: string): int {
    FreeUnits(m) - MapSum(IdleReservations(m.ledger.policy, m.ledger.leases, p))
  }

  /**
   The decision for a known profile, exactly: no budget; room in the own reservation;
   nothing left beside the others' idle reservations; and in the pool, a grant if and
   only if the unit cost still fits after every other contender's unused guarantee.
   */
  lemma DecisionIsExact(m: Memory, p: string)
    requires UniqueProfiles(m.ledger.policy.profiles) && Knows(m.ledger.policy, p)
    requires Lookup(m.ledger.policy.profiles, p).value.unitCost >= 1
    ensures
      var policy := Lookup(m.ledger.policy.profiles, p).value;
      var open := OpenToPool(m, p);
      VerdictFor(m, p) ==
        if FreeUnits(m) < policy.unitCost then Refuse(BudgetExhausted)
        else if policy.reservedUnits - Weight(m.ledger.leases, Some(p)) >= policy.unitCost then Admit(0)
        else if open < policy.unitCost then Refuse(ProtectedReservation)
        else if open - MapSum(UnusedGuarantees(m, p, open)) >= policy.unitCost
        then Admit(|Contenders(m.ledger.policy, m.demand)|)
        else Refuse(FairShareContention)
  {
    hide Contenders, HeldMap, Weight, MapSum, Protected, SharedHoldings, Withheld, IdleReservations, UnusedGuarantees, Lookup;
    var h, ls := m.ledger.policy, m.ledger.leases;
    HeldMapSum(ls);
    HeldMapAt(ls, p);
    ProtectedIsIdleSum(h, ls, p);
    var open := OpenToPool(m, p);
    if open >= 1 {
      WithheldIsUnused(m, p, open);
      NoContendersNoGuarantees(m, p, open);
    }
  }

  lemma NoContendersNoGuarantees(m: Memory, p: string, available: nat)
    ensures Contenders(m.ledger.policy, m.demand) == [] ==> MapSum(UnusedGuarantees(m, p, available)) == 0
  {
    hide Contenders, Weight;
    if Contenders(m.ledger.policy, m.demand) == [] {
      assert UnusedGuarantees(m, p, available) == map[];
    }
  }

  /** A grant from the pool leaves every other contender the rest of its guaranteed share. */
  lemma PoolGrantLeavesGuarantees(m: Memory, p: string, i: nat)
    requires UniqueProfiles(m.ledger.policy.profiles) && Knows(m.ledger.policy, p)
    requires Lookup(m.ledger.policy.profiles, p).value.unitCost >= 1
    requires VerdictFor(m, p).Admit? && VerdictFor(m, p).contenders > 0
    requires i < |Contenders(m.ledger.policy, m.demand)| && Contenders(m.ledger.policy, m.demand)[i] != p
    ensures
      var cs, cost := Contenders(m.ledger.policy, m.demand), Lookup(m.ledger.policy.profiles, p).value.unitCost;
      && OpenToPool(m, p) >= cost
      && OpenToPool(m, p) - cost >=
           Share(|cs|, m.rotation, i, OpenToPool(m, p))
           - Max(Weight(m.ledger.leases, Some(cs[i])) - ReservedOf(m.ledger.policy, cs[i]), 0)
  {
    hide Contenders, Weight, MapSum, IdleReservations, Lookup, VerdictFor, Share, IndexOf;
    var cs := Contenders(m.ledger.policy, m.demand);
    DecisionIsExact(m, p);
    ContendersDistinct(m.ledger.policy, m.demand);
    DistinctIndex(cs, i);
    MapSumEntry(UnusedGuarantees(m, p, OpenToPool(m, p)), cs[i]);
  }
}
