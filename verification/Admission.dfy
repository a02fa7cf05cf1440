/**
 The admission decision: budget, own reservation, protected reservations of
 others, and the fair turn in the shared pool.
 */
module Admission {
  import opened Ordering
  import opened FairShare
  import opened Policy
  import opened Sums
  import opened Leases

  datatype Error =
    | InvalidIdentity | InvalidPolicy | StalePolicy | NegativeDemand | UnknownProfile
    | AdoptionPending | BudgetExhausted | ProtectedReservation | FairShareContention
    | LeaseNotFound | LeaseExpired | LeaseNotProvisional | EvidenceRejected
    | StoreFailure | CorruptState

  /** Either a refusal, or a grant that names how many shared-pool contenders took part. */
  datatype Verdict = Refuse(error: Error) | Admit(contenders: nat)

  /** Policy-known profiles with pending demand, sorted. */
  ghost function Contenders(policy: HostPolicy, demand: map<string, int>): seq<string> {
    SortedView(set id | id in demand && demand[id] > 0 && Knows(policy, id))
  }

  lemma ContendersDistinct(policy: HostPolicy, demand: map<string, int>)
    ensures Distinct(Contenders(policy, demand))
  {
    SortedIsDistinct(Contenders(policy, demand));
  }

  /** What each contender holds beyond its own reservation. */
  function SharedHoldings(contenders: seq<string>, policy: HostPolicy, held: map<string, int>): (r: seq<nat>)
    ensures |r| == |contenders|
  {
    seq(|contenders|, i requires 0 <= i < |contenders| =>
      Max(At(held, contenders[i]) - ReservedOf(policy, contenders[i]), 0))
  }

  /** Shared-pool units the requester may take right now. */
  function FairUnits(
    contenders: seq<string>, policy: HostPolicy, held: map<string, int>,
    rotation: nat, requester: string, available: int): (units: nat)
  {
    Allocatable(SharedHoldings(contenders, policy, held), IndexOf(contenders, requester), rotation, Max(available, 0))
  }

  ghost function Free(policy: HostPolicy, held: map<string, int>): int {
    policy.totalUnits - MapSum(held)
  }

  function OwnRemaining(p: ProfilePolicy, held: map<string, int>): nat {
    Max(p.reservedUnits - At(held, p.profileId), 0)
  }

  ghost function Decide(
    policy: HostPolicy, contenders: seq<string>, rotation: nat,
    p: ProfilePolicy, held: map<string, int>): Verdict
  {
    var free := Free(policy, held);
    if free < p.unitCost then Refuse(BudgetExhausted)
    else if OwnRemaining(p, held) >= p.unitCost then Admit(0)
    else
      var available := free - Protected(policy.profiles, p.profileId, held);
      if available < p.unitCost then Refuse(ProtectedReservation)
      else if FairUnits(contenders, policy, held, rotation, p.profileId, available) >= p.unitCost
      then Admit(|contenders|)
      else Refuse(FairShareContention)
  }

  /** The part of the decision that budget and reservations rest on, without the fair turn. */
  ghost predicate HasRoom(policy: HostPolicy, p: ProfilePolicy, held: map<string, int>) {
    && Free(policy, held) >= p.unitCost
    && (OwnRemaining(p, held) >= p.unitCost
        || Free(policy, held) - Protected(policy.profiles, p.profileId, held) >= p.unitCost)
  }

  lemma AdmittedHasRoom(policy: HostPolicy, contenders: seq<string>, rotation: nat, p: ProfilePolicy, held: map<string, int>)
    requires Decide(policy, contenders, rotation, p, held).Admit?
    ensures HasRoom(policy, p, held)
  {}
}
