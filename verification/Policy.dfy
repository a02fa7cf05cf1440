/**
 Host policy: the budget, each profile's unit cost and reservation, and the
 validation that bounds the sum of all reservations by the budget.
 */
module Policy {
  import opened Identity

  datatype Option<+T> = None | Some(value: T)

  datatype ProfilePolicy = ProfilePolicy(
    profileId: string,
    unitCost: int,
    reservedUnits: int,
    borrowable: bool,
    fingerprint: string)

  datatype HostPolicy = HostPolicy(
    generation: int,
    totalUnits: int,
    namespace: string,
    capacityUnits: int,
    safetyMarginUnits: int,
    fingerprint: string,
    profiles: seq<ProfilePolicy>)

  /** The policy of a fresh store: nothing is known, so nothing can be acquired. */
  const NO_POLICY := HostPolicy(0, 0, "", 0, 0, "", [])

  predicate ValidProfile(p: ProfilePolicy) {
    ValidProfileId(p.profileId) && p.unitCost >= 1 && p.reservedUnits >= 0 && ValidFingerprint(p.fingerprint)
  }

  function ReservedSum(ps: seq<ProfilePolicy>): int {
    if ps == [] then 0 else ReservedSum(ps[..|ps| - 1]) + ps[|ps| - 1].reservedUnits
  }

  ghost predicate UniqueProfiles(ps: seq<ProfilePolicy>) {
    forall i, j :: 0 <= i < j < |ps| ==> ps[i].profileId != ps[j].profileId
  }

  predicate ValidBudget(h: HostPolicy) {
    && h.generation >= 1
    && h.totalUnits >= 1
    && ValidNamespace(h.namespace)
    && ValidFingerprint(h.fingerprint)
    && h.capacityUnits >= 0
    && h.safetyMarginUnits >= 0
    && (h.capacityUnits == 0 ==> h.safetyMarginUnits == 0)
    && (h.capacityUnits > 0 ==>
          h.safetyMarginUnits < h.capacityUnits && h.totalUnits == h.capacityUnits - h.safetyMarginUnits)
  }

  predicate ProfileFits(p: ProfilePolicy, total: int) {
    ValidProfile(p) && p.unitCost <= total && p.reservedUnits <= total
  }

  ghost predicate ValidPolicy(h: HostPolicy) {
    && ValidBudget(h)
    && (forall i :: 0 <= i < |h.profiles| ==> ProfileFits(h.profiles[i], h.totalUnits))
    && UniqueProfiles(h.profiles)
    && ReservedSum(h.profiles) <= h.totalUnits
  }

  /** Validation as the publisher meets it: one pass with a seen-set and a running total. */
  method Validate(h: HostPolicy) returns (ok: bool)
    ensures ok <==> ValidPolicy(h)
  {
    if !ValidBudget(h) { return false; }
    var seen: set<string>, reserved, i := {}, 0, 0;
    while i < |h.profiles|
      invariant 0 <= i <= |h.profiles|
      invariant seen == set j | 0 <= j < i :: h.profiles[j].profileId
      invariant reserved == ReservedSum(h.profiles[..i])
      invariant forall j :: 0 <= j < i ==> ProfileFits(h.profiles[j], h.totalUnits)
      invariant UniqueProfiles(h.profiles[..i])
    {
      var p := h.profiles[i];
      if !ValidProfile(p) { return false; }
      if p.profileId in seen { return false; }
      if p.unitCost > h.totalUnits { return false; }
      if p.reservedUnits > h.totalUnits { return false; }
      seen := seen + {p.profileId};
      reserved := reserved + p.reservedUnits;
      assert h.profiles[..i + 1][..i] == h.profiles[..i];
      i := i + 1;
    }
    assert h.profiles[..i] == h.profiles;
    ok := reserved <= h.totalUnits;
  }

  function Lookup(ps: seq<ProfilePolicy>, id: string): (r: Option<ProfilePolicy>)
    ensures r.Some? ==> r.value.profileId == id
  {
    if ps == [] then None
    else if ps[0].profileId == id then Some(ps[0])
    else Lookup(ps[1..], id)
  }

  lemma {:induction false} LookupFinds(ps: seq<ProfilePolicy>, id: string)
    ensures Lookup(ps, id).Some? ==> Lookup(ps, id).value in ps
    ensures Lookup(ps, id).None? <==> forall i :: 0 <= i < |ps| ==> ps[i].profileId != id
  {
    if ps != [] {
      LookupFinds(ps[1..], id);
      assert forall i :: 1 <= i < |ps| ==> ps[i] == ps[1..][i - 1];
      assert forall i :: 0 <= i < |ps| - 1 ==> ps[1..][i] == ps[i + 1];
    }
  }

  predicate Knows(h: HostPolicy, id: string) {
    Lookup(h.profiles, id).Some?
  }

  /** The linear lookup every command performs. */
  method FindProfile(h: HostPolicy, id: string) returns (r: Option<ProfilePolicy>)
    ensures r == Lookup(h.profiles, id)
  {
    var i := 0;
    while i < |h.profiles|
      invariant 0 <= i <= |h.profiles|
      invariant Lookup(h.profiles, id) == Lookup(h.profiles[i..], id)
    {
      if h.profiles[i].profileId == id { return Some(h.profiles[i]); }
      i := i + 1;
    }
    r := None;
  }

  lemma LookupUnique(ps: seq<ProfilePolicy>, p: ProfilePolicy)
    requires UniqueProfiles(ps) && p in ps
    ensures Lookup(ps, p.profileId) == Some(p)
  {
    LookupFinds(ps, p.profileId);
    var r := Lookup(ps, p.profileId);
    var i :| 0 <= i < |ps| && ps[i] == p;
    var j :| 0 <= j < |ps| && ps[j] == r.value;
  }

  /** Reservation of a profile, zero when it is not in the policy. */
  function ReservedOf(h: HostPolicy, id: string): int {
    var r := Lookup(h.profiles, id);
    if r.Some? then r.value.reservedUnits else 0
  }

  lemma KnownProfileIsValid(h: HostPolicy, id: string)
    requires ValidPolicy(h) && Knows(h, id)
    ensures
      var p := Lookup(h.profiles, id).value;
      ProfileFits(p, h.totalUnits) && ReservedOf(h, id) == p.reservedUnits
  {
    LookupFinds(h.profiles, id);
    var p := Lookup(h.profiles, id).value;
    var i :| 0 <= i < |h.profiles| && h.profiles[i] == p;
  }
}
