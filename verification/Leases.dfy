/**
 Leases and the unit sums taken over them: the units of all leases, the units
 held per profile, and the reservations that the holdings leave unused.
 */
module Leases {
  import opened Identity
  import opened Sums
  import opened FairShare
  import opened Policy

  datatype LeaseStatus = Provisional | Active

  datatype Lease = Lease(
    profileId: string,
    slotKey: string,
    leaseId: string,
    registrationName: string,
    units: int,
    status: LeaseStatus,
    expiresAt: int,
    grantedAt: nat,
    activatedAt: nat)

  type LeaseMap = map<Key, Lease>

  function Part(lease: Lease, who: Option<string>): int {
    if who.None? || lease.profileId == who.value then lease.units else 0
  }

  /** Units of one profile's leases, or of all leases when no profile is named. */
  ghost function Weight(ls: LeaseMap, who: Option<string>): int
    decreases |ls|
  {
    if ls == map[] then 0 else
      var k :| k in ls;
      Weight(ls - {k}, who) + Part(ls[k], who)
  }

  ghost function TotalHeld(ls: LeaseMap): int {
    Weight(ls, None)
  }

  lemma {:induction false} WeightSplit(ls: LeaseMap, k: Key, who: Option<string>)
    requires k in ls
    ensures Weight(ls, who) == Weight(ls - {k}, who) + Part(ls[k], who)
    decreases |ls|
  {
    var j :| j in ls && Weight(ls, who) == Weight(ls - {j}, who) + Part(ls[j], who);
    if j != k {
      WeightSplit(ls - {j}, k, who);
      WeightSplit(ls - {k}, j, who);
      assert ls - {j} - {k} == ls - {k} - {j};
    }
  }

  lemma WeightPut(ls: LeaseMap, k: Key, lease: Lease, who: Option<string>)
    ensures
      Weight(ls[k := lease], who) ==
        Weight(ls, who) + Part(lease, who) - (if k in ls then Part(ls[k], who) else 0)
  {
    var after := ls[k := lease];
    WeightSplit(after, k, who);
    if k in ls {
      WeightSplit(ls, k, who);
      assert after - {k} == ls - {k};
    } else {
      assert after - {k} == ls;
    }
  }

  ghost predicate PositiveUnits(ls: LeaseMap) {
    forall k :: k in ls ==> ls[k].units >= 1
  }

  lemma {:induction false} WeightNonNegative(ls: LeaseMap, who: Option<string>)
    requires PositiveUnits(ls)
    ensures Weight(ls, who) >= 0
    decreases |ls|
  {
    if ls != map[] {
      var k :| k in ls;
      WeightSplit(ls, k, who);
      WeightNonNegative(ls - {k}, who);
    }
  }

  lemma {:induction false} WeightDrop(ls: LeaseMap, gone: set<Key>, who: Option<string>)
    requires PositiveUnits(ls)
    ensures Weight(ls - gone, who) <= Weight(ls, who)
    decreases |gone|
  {
    if gone == {} {
      assert ls - gone == ls;
    } else {
      var k :| k in gone;
      var rest := gone - {k};
      WeightDrop(ls, rest, who);
      assert ls - gone == (ls - rest) - {k};
      if k in ls {
        WeightSplit(ls - rest, k, who);
      } else {
        assert (ls - rest) - {k} == ls - rest;
      }
    }
  }

  // ---------------------------------------------------------------------
  // Holdings grouped by profile

  ghost function Holders(ls: LeaseMap): set<string> {
    set k | k in ls :: ls[k].profileId
  }

  /** The per-profile map that admission decisions read. */
  ghost function HeldMap(ls: LeaseMap): map<string, int> {
    map p | p in Holders(ls) :: Weight(ls, Some(p))
  }

  lemma {:induction false} NonHolderHoldsNothing(ls: LeaseMap, p: string)
    requires p !in Holders(ls)
    ensures Weight(ls, Some(p)) == 0
    decreases |ls|
  {
    if ls != map[] {
      var k :| k in ls;
      WeightSplit(ls, k, Some(p));
      NonHolderHoldsNothing(ls - {k}, p);
    }
  }

  lemma HeldMapAt(ls: LeaseMap, p: string)
    ensures At(HeldMap(ls), p) == Weight(ls, Some(p))
  {
    if p !in Holders(ls) { NonHolderHoldsNothing(ls, p); }
  }

  /** Adding one lease moves exactly its own profile's entry. */
  lemma HeldMapPut(ls: LeaseMap, k: Key, lease: Lease)
    requires k !in ls
    ensures
      HeldMap(ls[k := lease]) ==
        HeldMap(ls)[lease.profileId := At(HeldMap(ls), lease.profileId) + lease.units]
  {
    var after := ls[k := lease];
    assert Holders(after) == Holders(ls) + {lease.profileId} by {
      forall p | p in Holders(ls) ensures p in Holders(after) {
        var j :| j in ls && ls[j].profileId == p;
        assert after[j].profileId == p;
      }
      assert after[k].profileId == lease.profileId;
    }
    HeldMapAt(ls, lease.profileId);
    forall p | p in Holders(after) ensures Weight(after, Some(p)) == Weight(ls, Some(p)) + Part(lease, Some(p)) {
      WeightPut(ls, k, lease, Some(p));
    }
  }

  /** The per-profile holdings add up to the units of all leases. */
  lemma {:induction false} HeldMapSum(ls: LeaseMap)
    ensures MapSum(HeldMap(ls)) == TotalHeld(ls)
    decreases |ls|
  {
    if ls != map[] {
      var k :| k in ls;
      HeldMapSum(ls - {k});
      HeldMapSumPut(ls - {k}, k, ls[k]);
      assert (ls - {k})[k := ls[k]] == ls;
    }
  }

  lemma HeldMapSumPut(ls: LeaseMap, k: Key, lease: Lease)
    requires k !in ls && MapSum(HeldMap(ls)) == TotalHeld(ls)
    ensures MapSum(HeldMap(ls[k := lease])) == TotalHeld(ls[k := lease])
  {
    hide HeldMap, MapSum, Weight;
    HeldMapPut(ls, k, lease);
    MapSumPut(HeldMap(ls), lease.profileId, At(HeldMap(ls), lease.profileId) + lease.units);
    WeightPut(ls, k, lease, None);
  }

  // ---------------------------------------------------------------------
  // Sums over the policy's profiles

  /** Idle non-borrowable reservations of everyone but the requester. */
  function Protected(ps: seq<ProfilePolicy>, requester: string, held: map<string, int>): (units: nat) {
    if ps == [] then 0 else
      var p := ps[|ps| - 1];
      Protected(ps[..|ps| - 1], requester, held)
      + if p.profileId == requester || p.borrowable then 0 else Max(p.reservedUnits - At(held, p.profileId), 0)
  }

  /** Idle non-borrowable reservations of every profile: the headroom that must stay free. */
  function Headroom(ps: seq<ProfilePolicy>, held: map<string, int>): (units: nat) {
    if ps == [] then 0 else
      var p := ps[|ps| - 1];
      Headroom(ps[..|ps| - 1], held) + if p.borrowable then 0 else Max(p.reservedUnits - At(held, p.profileId), 0)
  }

  /** Units held by the profiles of the policy. */
  function HeldBy(ps: seq<ProfilePolicy>, held: map<string, int>): int {
    if ps == [] then 0 else HeldBy(ps[..|ps| - 1], held) + At(held, ps[|ps| - 1].profileId)
  }
}
