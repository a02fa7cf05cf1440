/**
 The coordinator's commands as steps on values: what each command does to the
 stored document, to the process memory and to the caller.

 The clock reading, the order in which a sweep visits the lease map, and the
 outcome of each save are part of `Env`. A failed save leaves store and memory
 as they were. A crash inside a command leaves the store as if every later save
 of that command had failed.
 */
module Commands {
  import opened Identity
  import opened Ordering
  import opened FairShare
  import opened Policy
  import opened Sums
  import opened Leases
  import opened Admission
  import opened Ledgers

  const DEMAND_TTL: int := 30_000_000_000

  const DEFAULT_LEASE_TTL: int := 30_000_000_000

  const ROTATION_SEED_MODULUS: nat := 1_000_000_007

  /** The process state: the ledger it believes stored, and everything a restart forgets. */
  datatype Memory = Memory(
    ledger: Ledger,
    demand: map<string, int>,
    known: set<string>,
    demandDeadlines: map<string, int>,
    rotation: nat,
    deadlines: map<Key, int>,
    ttl: int)

  /** One running coordinator with its store; `history` lists the edits committed so far. */
  datatype Node = Node(stored: Option<Ledger>, mem: Memory, history: seq<Edit>)

  datatype Env = Env(now: int, order: seq<Key>, sweepSaved: bool, saved: bool, noteSaved: bool)

  datatype Outcome =
    | Done
    | Leased(lease: Lease)
    | Duplicate(lease: Lease)
    | Report(snapshot: Snapshot)
    | Failed(error: Error)

  datatype Reply = Reply(node: Node, outcome: Outcome)

  datatype Command =
    | CmdApplyPolicy(policy: HostPolicy)
    | CmdSetDemand(profile: string, pending: int)
    | CmdBeginAdoption(profile: string)
    | CmdCompleteAdoption(profile: string)
    | CmdAcquire(key: Key, pending: int)
    | CmdBindRegistration(key: Key, name: string)
    | CmdAdopt(key: Key)
    | CmdRenew(key: Key)
    | CmdActivate(key: Key)
    | CmdRelease(key: Key)
    | CmdReconcile(key: Key, evidence: Option<string>)
    | CmdStatus

  ghost function Run(n: Node, c: Command, env: Env): Reply
    requires PolicyOk(n.mem.ledger.policy)
  {
    match c
    case CmdApplyPolicy(h) => SetPolicy(n, h, env)
    case CmdSetDemand(p, pending) => SetDemand(n, p, pending, env)
    case CmdBeginAdoption(p) => BeginAdoption(n, p, env)
    case CmdCompleteAdoption(p) => CompleteAdoption(n, p, env)
    case CmdAcquire(k, pending) => Acquire(n, k, pending, env)
    case CmdBindRegistration(k, name) => BindRegistration(n, k, name, env)
    case CmdAdopt(k) => Adopt(n, k, env)
    case CmdRenew(k) => RenewLeaseOf(n, k, env)
    case CmdActivate(k) => Activate(n, k, env)
    case CmdRelease(k) => Release(n, k, env)
    case CmdReconcile(k, evidence) => Reconcile(n, k, evidence, env)
    case CmdStatus => Status(n, env)
  }

  // ---------------------------------------------------------------------
  // Building blocks

  /** Save, then commit in memory together with the new lease deadlines. */
  ghost function Commit(n: Node, e: Edit, deadlines: map<Key, int>): Node
    requires Defined(n.mem.ledger, e)
  {
    var next := Apply(n.mem.ledger, e);
    Node(Some(next), n.mem.(ledger := next, deadlines := deadlines), n.history + [e])
  }

  function ProvisionalKeys(ls: LeaseMap): set<Key> {
    set k | k in ls && ls[k].status.Provisional?
  }

  /** Provisional leases whose deadline has passed, or was never tracked. */
  function Due(m: Memory, now: int): set<Key> {
    set k | k in ProvisionalKeys(m.ledger.leases) && !(k in m.deadlines && now < m.deadlines[k])
  }

  function ForgetDemand(m: Memory, profiles: set<string>): Memory {
    m.(demand := m.demand - profiles, known := m.known - profiles, demandDeadlines := m.demandDeadlines - profiles)
  }

  function ProfilesOf(ls: LeaseMap, keys: set<Key>): set<string> {
    set k | k in keys && k in ls :: ls[k].profileId
  }

  /** Removes every due provisional lease in one save; None when that save fails. */
  ghost function SweepPhase(n: Node, env: Env): Option<Node> {
    var due := Due(n.mem, env.now);
    if due == {} then Some(n)
    else if !env.sweepSaved then None
    else
      var swept := Commit(n, Sweep(env.order, Expired), n.mem.deadlines - due);
      Some(swept.(mem := ForgetDemand(swept.mem, ProfilesOf(n.mem.ledger.leases, due))))
  }

  function StaleDemand(m: Memory, now: int): set<string> {
    set p | p in m.demandDeadlines && now >= m.demandDeadlines[p]
  }

  function ForgetStale(n: Node, now: int): Node {
    n.(mem := ForgetDemand(n.mem, StaleDemand(n.mem, now)))
  }

  /** Records the decision as the last one; a failed save of that record is ignored. */
  ghost function Noted(r: Reply, command: LeaseCommand, profile: string, env: Env): Reply {
    if !env.noteSaved then r else
      var d := Decision(r.node.mem.ledger.sequence, command, profile, !r.outcome.Failed?,
                        if r.outcome.Failed? then Some(r.outcome.error) else None, env.now);
      r.(node := Commit(r.node, Note(d), r.node.mem.deadlines))
  }

  // ---------------------------------------------------------------------
  // Policy, demand and adoption fences

  ghost function SetPolicy(n: Node, h: HostPolicy, env: Env): Reply {
    if !ValidPolicy(h) then Reply(n, Failed(InvalidPolicy))
    else if h.generation <= n.mem.ledger.policy.generation then Reply(n, Failed(StalePolicy))
    else if !env.saved then Reply(n, Failed(StoreFailure))
    else
      var next := Commit(n, ApplyPolicy(h), n.mem.deadlines);
      Reply(next.(mem := next.mem.(demand := map[], known := {}, demandDeadlines := map[])), Done)
  }

  function SetDemand(n: Node, p: string, pending: int, env: Env): Reply {
    if !ValidProfileId(p) then Reply(n, Failed(InvalidIdentity))
    else if pending < 0 then Reply(n, Failed(NegativeDemand))
    else if !Knows(n.mem.ledger.policy, p) then Reply(n, Failed(UnknownProfile))
    else
      var m := ForgetStale(n, env.now).mem;
      var m' :=
        if pending == 0
        then m.(known := m.known + {p}, demand := m.demand - {p}, demandDeadlines := m.demandDeadlines - {p})
        else m.(known := m.known + {p}, demand := m.demand[p := pending],
                demandDeadlines := m.demandDeadlines[p := env.now + DEMAND_TTL]);
      Reply(n.(mem := m'), Done)
  }

  ghost function BeginAdoption(n: Node, p: string, env: Env): Reply {
    if !ValidProfileId(p) then Reply(n, Failed(InvalidIdentity))
    else if !Knows(n.mem.ledger.policy, p) then Reply(n, Failed(UnknownProfile))
    else if p in n.mem.ledger.fences then Reply(n, Done)
    else if !env.saved then Reply(n, Failed(StoreFailure))
    else Reply(Commit(n, Fence(p), n.mem.deadlines), Done)
  }

  ghost function CompleteAdoption(n: Node, p: string, env: Env): Reply {
    if !ValidProfileId(p) then Reply(n, Failed(InvalidIdentity))
    else if p !in n.mem.ledger.fences then Reply(n, Done)
    else if n.mem.ledger.fences[p].pending != [] then Reply(n, Failed(AdoptionPending))
    else if !env.saved then Reply(n, Failed(StoreFailure))
    else Reply(Commit(n, Unfence(p), n.mem.deadlines), Done)
  }

  // ---------------------------------------------------------------------
  // Lease commands

  ghost function Acquire(n: Node, k: Key, pending: int, env: Env): Reply {
    if !ValidKey(k) then Reply(n, Failed(InvalidIdentity)) else
      var swept := SweepPhase(n, env);
      var r := if swept.None? then Reply(n, Failed(StoreFailure))
               else AcquireSwept(ForgetStale(swept.value, env.now), k, pending, env);
      Noted(r, AcquireLease, k.profile, env)
  }

  /** Acquire once the sweep is done: fences, duplicates and unknown profiles come first. */
  ghost function AcquireSwept(n: Node, k: Key, pending: int, env: Env): Reply {
    var l := n.mem.ledger;
    if l.fences != map[] then Reply(n, Failed(AdoptionPending))
    else if k in l.leases then Reply(n, Duplicate(l.leases[k]))
    else if !Knows(l.policy, k.profile) then Reply(n, Failed(UnknownProfile))
    else
      var want := Max(pending, 1);
      var asked := n.(mem := WithDemand(n.mem, k.profile, want, env.now + DEMAND_TTL));
      match VerdictFor(asked.mem, k.profile)
      case Refuse(error) => Reply(asked, Failed(error))
      case Admit(contenders) =>
        if !env.saved then Reply(asked, Failed(StoreFailure)) else GrantTo(asked, k, want, contenders, env)
  }

  function WithDemand(m: Memory, p: string, pending: int, deadline: int): Memory {
    m.(demand := m.demand[p := pending], known := m.known + {p}, demandDeadlines := m.demandDeadlines[p := deadline])
  }

  /** The admission decision for a known profile in the current memory. */
  ghost function VerdictFor(m: Memory, p: string): Verdict
    requires Knows(m.ledger.policy, p)
  {
    Decide(m.ledger.policy, Contenders(m.ledger.policy, m.demand), m.rotation,
           Lookup(m.ledger.policy.profiles, p).value, HeldMap(m.ledger.leases))
  }

  ghost function GrantTo(n: Node, k: Key, want: int, contenders: nat, env: Env): Reply
    requires Knows(n.mem.ledger.policy, k.profile)
  {
    var deadline := env.now + n.mem.ttl;
    var units := Lookup(n.mem.ledger.policy.profiles, k.profile).value.unitCost;
    var next := Commit(n, Grant(k, units, Provisional, deadline), n.mem.deadlines[k := deadline]);
    Reply(next.(mem := Turned(Consumed(next.mem, k.profile, want), contenders)), Leased(next.mem.ledger.leases[k]))
  }

  /** One worker of the published demand has been served. */
  function Consumed(m: Memory, p: string, want: int): Memory {
    if want == 1 then m.(demand := m.demand - {p}, demandDeadlines := m.demandDeadlines - {p})
    else m.(demand := m.demand[p := want - 1])
  }

  /** The cursor moves on after a shared-pool grant. */
  function Turned(m: Memory, contenders: nat): Memory {
    if contenders > 0 then m.(rotation := (m.rotation + 1) % contenders) else m
  }

  ghost function BindRegistration(n: Node, k: Key, name: string, env: Env): Reply {
    if !ValidKey(k) || !ValidRegistrationName(name) then Reply(n, Failed(InvalidIdentity)) else
      var swept := SweepPhase(n, env);
      if swept.None? then Reply(n, Failed(StoreFailure)) else BindSwept(swept.value, k, name, env)
  }

  ghost function BindSwept(n: Node, k: Key, name: string, env: Env): Reply {
    var ls := n.mem.ledger.leases;
    if k !in ls then Reply(n, Failed(LeaseNotFound))
    else if ls[k].registrationName == name then Reply(n, Leased(ls[k]))
    else if ls[k].registrationName != "" then Reply(n, Failed(InvalidIdentity))
    else if !env.saved then Reply(n, Failed(StoreFailure))
    else LeaseEdited(n, Bind(k, name), n.mem.deadlines)
  }

  /** Commits an edit of one lease and hands the edited lease back. */
  ghost function LeaseEdited(n: Node, e: Edit, deadlines: map<Key, int>): Reply
    requires e.Bind? || e.Renew? || e.Promote?
    requires e.key in n.mem.ledger.leases
  {
    var next := Commit(n, e, deadlines);
    Reply(next, Leased(next.mem.ledger.leases[e.key]))
  }

  ghost function Adopt(n: Node, k: Key, env: Env): Reply {
    if !ValidKey(k) then Reply(n, Failed(InvalidIdentity)) else
      var swept := SweepPhase(n, env);
      var r := if swept.None? then Reply(n, Failed(StoreFailure)) else AdoptSwept(swept.value, k, env);
      Noted(r, AdoptLease, k.profile, env)
  }

  ghost function AdoptSwept(n: Node, k: Key, env: Env): Reply {
    var l := n.mem.ledger;
    if !Knows(l.policy, k.profile) then Reply(n, Failed(UnknownProfile))
    else if k in l.leases && l.leases[k].status.Active? then
      if !AwaitsAccounting(l, k) then Reply(n, Leased(l.leases[k]))
      else if !env.saved then Reply(n, Failed(StoreFailure))
      else Reply(Commit(n, Account(k), n.mem.deadlines), Leased(l.leases[k]))
    else if !env.saved then Reply(n, Failed(StoreFailure))
    else if k in l.leases then LeaseEdited(n, Promote(k, true), n.mem.deadlines - {k})
    else
      var next := Commit(n, Grant(k, Lookup(l.policy.profiles, k.profile).value.unitCost, Active, 0), n.mem.deadlines - {k});
      Reply(next, Leased(next.mem.ledger.leases[k]))
  }

  ghost function RenewLeaseOf(n: Node, k: Key, env: Env): Reply {
    if !ValidKey(k) then Reply(n, Failed(InvalidIdentity)) else
      var swept := SweepPhase(n, env);
      var r := if swept.None? then Reply(n, Failed(StoreFailure))
               else if k in Due(n.mem, env.now) then Reply(swept.value, Failed(LeaseExpired))
               else RenewSwept(swept.value, k, env);
      Noted(r, RenewLease, k.profile, env)
  }

  ghost function RenewSwept(n: Node, k: Key, env: Env): Reply {
    var ls := n.mem.ledger.leases;
    if k !in ls then Reply(n, Failed(LeaseNotFound))
    else if !ls[k].status.Provisional? then Reply(n, Failed(LeaseNotProvisional))
    else if !env.saved then Reply(n, Failed(StoreFailure))
    else
      var deadline := env.now + n.mem.ttl;
      LeaseEdited(n, Renew(k, deadline), n.mem.deadlines[k := deadline])
  }

  ghost function Activate(n: Node, k: Key, env: Env): Reply {
    if !ValidKey(k) then Reply(n, Failed(InvalidIdentity)) else
      var swept := SweepPhase(n, env);
      var r := if swept.None? then Reply(n, Failed(StoreFailure))
               else if k in Due(n.mem, env.now) then Reply(swept.value, Failed(LeaseExpired))
               else ActivateSwept(swept.value, k, env);
      Noted(r, ActivateLease, k.profile, env)
  }

  ghost function ActivateSwept(n: Node, k: Key, env: Env): Reply {
    var ls := n.mem.ledger.leases;
    if k !in ls then Reply(n, Failed(LeaseNotFound))
    else if ls[k].status.Active? then Reply(n, Leased(ls[k]))
    else if !env.saved then Reply(n, Failed(StoreFailure))
    else LeaseEdited(n, Promote(k, false), n.mem.deadlines - {k})
  }

  ghost function Release(n: Node, k: Key, env: Env): Reply {
    if !ValidKey(k) then Reply(n, Failed(InvalidIdentity)) else
      var swept := SweepPhase(n, env);
      var r := if swept.None? then Reply(n, Failed(StoreFailure)) else EntombSwept(swept.value, k, Released, "", env);
      Noted(r, ReleaseLease, k.profile, env)
  }

  /** Evidence is None when it fails the audit format. */
  ghost function Reconcile(n: Node, k: Key, evidence: Option<string>, env: Env): Reply {
    if !ValidKey(k) then Reply(n, Failed(InvalidIdentity))
    else if evidence.None? then Reply(n, Failed(EvidenceRejected))
    else
      var swept := SweepPhase(n, env);
      var r := if swept.None? then Reply(n, Failed(StoreFailure))
               else EntombSwept(swept.value, k, ReconciledAbsent, evidence.value, env);
      Noted(r, ReconcileLease, k.profile, env)
  }

  ghost function EntombSwept(n: Node, k: Key, reason: TombstoneReason, evidence: string, env: Env): Reply {
    var l := n.mem.ledger;
    if k !in l.leases then Reply(n, if k in l.tombstones then Done else Failed(LeaseNotFound))
    else if !env.saved then Reply(n, Failed(StoreFailure))
    else Reply(Commit(n, Remove(k, reason, evidence), n.mem.deadlines - {k}), Done)
  }

  // ---------------------------------------------------------------------
  // Status

  datatype Capacity = Capacity(
    allocatableUnits: nat,
    allocatableWorkers: nat,
    theoreticalUnits: nat,
    theoreticalWorkers: nat,
    withheld: Option<Error>)

  datatype ProfileAccounting = ProfileAccounting(
    profileId: string,
    heldUnits: int,
    borrowedUnits: nat,
    pendingUnits: Option<int>,
    capacity: Capacity)

  datatype Snapshot = Snapshot(
    ledger: Ledger,
    availableUnits: nat,
    accounting: seq<ProfileAccounting>)

  /** Non-borrowable reservations of everyone else, used or not. */
  function ProtectedMaximum(ps: seq<ProfilePolicy>, requester: string): int {
    if ps == [] then 0 else
      var p := ps[|ps| - 1];
      ProtectedMaximum(ps[..|ps| - 1], requester)
      + if p.profileId == requester || p.borrowable then 0 else p.reservedUnits
  }

  predicate HasDemand(m: Memory, p: string) {
    p in m.known && p in m.demand && m.demand[p] > 0
  }

  /** Units the profile could take now, before the admission decision has its say. */
  ghost function OpenUnits(m: Memory, p: ProfilePolicy, held: map<string, int>): nat {
    var ps := m.ledger.policy.profiles;
    var ceiling := Max(Max(m.ledger.policy.totalUnits - ProtectedMaximum(ps, p.profileId), 0) - At(held, p.profileId), 0);
    var free := Max(m.ledger.policy.totalUnits - HeldBy(ps, held), 0);
    var unprotected := Max(free - Protected(ps, p.profileId, held), 0);
    if m.ledger.fences != map[] then 0
    else if HasDemand(m, p.profileId) then
      var fair := FairUnits(Contenders(m.ledger.policy, m.demand), m.ledger.policy, held, m.rotation, p.profileId, unprotected);
      Min(Max(Min(OwnRemaining(p, held), free), fair), ceiling)
    else Min(unprotected, ceiling)
  }

  ghost function WithheldReason(m: Memory, p: ProfilePolicy, held: map<string, int>): Option<Error> {
    if !HasDemand(m, p.profileId) then None
    else if m.ledger.fences != map[] then Some(AdoptionPending)
    else
      match Decide(m.ledger.policy, Contenders(m.ledger.policy, m.demand), m.rotation, p, held)
      case Refuse(error) => Some(error)
      case Admit(_) => None
  }

  ghost function CapacityOf(m: Memory, p: ProfilePolicy, held: map<string, int>): Capacity
    requires p.unitCost >= 1
  {
    var withheld := WithheldReason(m, p, held);
    var units := if withheld.Some? then 0 else OpenUnits(m, p, held);
    var theoretical := Max(m.ledger.policy.totalUnits - ProtectedMaximum(m.ledger.policy.profiles, p.profileId), 0);
    Capacity(units, units / p.unitCost, theoretical, theoretical / p.unitCost, withheld)
  }

  ghost function AccountingOf(m: Memory, p: ProfilePolicy): ProfileAccounting
    requires p.unitCost >= 1
  {
    var held := HeldMap(m.ledger.leases);
    var units := At(held, p.profileId);
    ProfileAccounting(p.profileId, units, Max(units - p.reservedUnits, 0),
                      if p.profileId in m.known then Some(At(m.demand, p.profileId) * p.unitCost) else None,
                      CapacityOf(m, p, held))
  }

  function ProfileIds(h: HostPolicy): set<string> {
    set i | 0 <= i < |h.profiles| :: h.profiles[i].profileId
  }

  ghost function SnapshotOf(m: Memory): Snapshot
    requires PolicyOk(m.ledger.policy)
  {
    var h := m.ledger.policy;
    var ids := SortedView(ProfileIds(h));
    Snapshot(m.ledger, Max(h.totalUnits - HeldBy(h.profiles, HeldMap(m.ledger.leases)), 0),
             seq(|ids|, i requires 0 <= i < |ids| =>
               ListedProfile(h, ids[i]);
               AccountingOf(m, Lookup(h.profiles, ids[i]).value)))
  }

  lemma ListedProfile(h: HostPolicy, id: string)
    requires PolicyOk(h)
    ensures id in SortedView(ProfileIds(h)) ==> Knows(h, id)
    ensures Knows(h, id) ==> id in ProfileIds(h) && h.generation > 0 && Lookup(h.profiles, id).value.unitCost >= 1
  {
    LookupFinds(h.profiles, id);
    if id in SortedView(ProfileIds(h)) {
      assert id in Elements(SortedView(ProfileIds(h)));
    }
    if Knows(h, id) {
      KnownProfileIsValid(h, id);
    }
  }

  ghost function Status(n: Node, env: Env): Reply
    requires PolicyOk(n.mem.ledger.policy)
  {
    var swept := SweepPhase(n, env);
    if swept.None? then Reply(n, Failed(StoreFailure))
    else
      var ready := ForgetStale(swept.value, env.now);
      Reply(ready, Report(SnapshotOf(ready.mem)))
  }
}
