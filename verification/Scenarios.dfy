/**
 Runs from a fresh store that reach the states in which two properties fail: Status
 that promises no worker although one would be granted, and a protected reservation
 that a reclaimed loan uses up.
 */
module Scenarios {
  import opened Identity
  import opened Ordering
  import opened FairShare
  import opened Policy
  import opened Sums
  import opened Leases
  import opened Admission
  import opened Ledgers
  import opened Commands
  import opened Invariants
  import opened Runs
  import opened Reservations
  import opened StatusAgreement

  // ---------------------------------------------------------------------
  // Steps of a quiet run

  /** Everything happens at one instant, and every save but that of the decision record succeeds. */
  const QUIET := Env(0, [], true, true, false)

  /** This policy, these leases, this sequence and this demand, no fence and nothing due. */
  ghost predicate Calm(m: Memory, policy: HostPolicy, leases: LeaseMap, sequence: nat, demand: map<string, int>) {
    && m.ledger.policy == policy && m.ledger.leases == leases && m.ledger.sequence == sequence
    && m.ledger.fences == map[] && m.demand == demand && m.ttl == DEFAULT_LEASE_TTL
    && (forall p :: p in m.demandDeadlines ==> m.demandDeadlines[p] > 0)
    && (forall k :: k in m.deadlines ==> m.deadlines[k] > 0)
  }

  /** A reachable running host with this memory. */
  ghost predicate Stage(h: Host, policy: HostPolicy, leases: LeaseMap, sequence: nat, demand: map<string, int>) {
    Reachable(h) && h.memory.Some? && Calm(h.memory.value, policy, leases, sequence, demand)
  }

  ghost predicate Idle(n: Node) {
    && NodeOk(n) && PolicyOk(n.mem.ledger.policy) && EnvOk(n, QUIET)
    && SweepPhase(n, QUIET) == Some(n) && ForgetStale(n, 0) == n
  }

  lemma NothingHappens(n: Node)
    requires NodeOk(n)
    requires forall p :: p in n.mem.demandDeadlines ==> n.mem.demandDeadlines[p] > 0
    requires forall k :: k in n.mem.deadlines ==> n.mem.deadlines[k] > 0
    ensures Idle(n)
  {
    hide LeasesOk, TombstonesOk, FencesOk, DemandOk;
    assert Due(n.mem, 0) == {};
    assert Elements<Key>([]) == {};
    assert StaleDemand(n.mem, 0) == {};
    assert ForgetDemand(n.mem, {}) == n.mem;
  }

  lemma StageIsIdle(h: Host, policy: HostPolicy, leases: LeaseMap, sequence: nat, demand: map<string, int>)
    requires Stage(h, policy, leases, sequence, demand)
    ensures Idle(NodeOf(h)) && HostOk(h)
    ensures forall c :: Possible(h, Do(c, QUIET))
  {
    hide NodeOk, Reachable;
    ReachableIsOk(h);
    NothingHappens(NodeOf(h));
  }

  /** The host after one command that nothing else disturbs. */
  ghost function Do1(h: Host, c: Command): Host
    requires h.memory.Some? && PolicyOk(LedgerOf(h).policy)
  {
    HostOf(Run(NodeOf(h), c, QUIET).node)
  }

  lemma DoIsReachable(h: Host, c: Command)
    requires Reachable(h) && h.memory.Some? && Idle(NodeOf(h))
    ensures Reachable(Do1(h, c))
  {
    hide Reachable, Run, NodeOk, SweepPhase, PolicyOk, EnvOk, ForgetStale;
    assert Possible(h, Do(c, QUIET));
    ReachStep(h, Do(c, QUIET));
  }

  lemma Start() returns (h: Host)
    ensures Stage(h, NO_POLICY, map[], 0, map[])
  {
    hide Reachable;
    FreshIsReachable();
    assert Elements<Key>([]) == {} && ProvisionalKeys(map[]) == {};
    ReachStep(FRESH_HOST, Open(0, [], true));
    h := Next(FRESH_HOST, Open(0, [], true));
  }

  lemma Publish(h: Host, current: HostPolicy, leases: LeaseMap, sequence: nat, demand: map<string, int>, policy: HostPolicy)
    returns (h': Host)
    requires Stage(h, current, leases, sequence, demand) && ValidPolicy(policy) && policy.generation > current.generation
    ensures Stage(h', policy, leases, sequence, map[])
  {
    hide Reachable, NodeOk, ValidPolicy, SweepPhase;
    StageIsIdle(h, current, leases, sequence, demand);
    DoIsReachable(h, CmdApplyPolicy(policy));
    h' := Do1(h, CmdApplyPolicy(policy));
  }

  lemma QuietAdopt(n: Node, k: Key)
    requires Idle(n) && ValidKey(k) && k !in n.mem.ledger.leases && Knows(n.mem.ledger.policy, k.profile)
    ensures
      var units := Lookup(n.mem.ledger.policy.profiles, k.profile).value.unitCost;
      Run(n, CmdAdopt(k), QUIET).node == Commit(n, Grant(k, units, Active, 0), n.mem.deadlines - {k})
  {
    hide NodeOk, SweepPhase, ValidKey, Lookup, ForgetStale, PolicyOk, EnvOk, Apply;
  }

  lemma AdoptKeepsCalm(n: Node, policy: HostPolicy, leases: LeaseMap, sequence: nat, demand: map<string, int>, k: Key, units: int)
    requires Calm(n.mem, policy, leases, sequence, demand)
    ensures
      Calm(Commit(n, Grant(k, units, Active, 0), n.mem.deadlines - {k}).mem, policy,
           leases[k := GrantedLease(k, units, Active, 0, sequence + 1)], sequence + 1, demand)
  {
    hide GrantedLease;
  }

  lemma AdoptWorker(h: Host, policy: HostPolicy, leases: LeaseMap, sequence: nat, demand: map<string, int>, k: Key)
    returns (h': Host)
    requires Stage(h, policy, leases, sequence, demand) && ValidKey(k) && k !in leases && Knows(policy, k.profile)
    ensures
      var units := Lookup(policy.profiles, k.profile).value.unitCost;
      Stage(h', policy, leases[k := GrantedLease(k, units, Active, 0, sequence + 1)], sequence + 1, demand)
  {
    hide Reachable, ValidKey, Lookup, GrantedLease, Idle, Run, Commit, Calm;
    StageIsIdle(h, policy, leases, sequence, demand);
    StageParts(h, policy, leases, sequence, demand);
    DoIsReachable(h, CmdAdopt(k));
    QuietAdopt(NodeOf(h), k);
    AdoptKeepsCalm(NodeOf(h), policy, leases, sequence, demand, k, Lookup(policy.profiles, k.profile).value.unitCost);
    h' := Do1(h, CmdAdopt(k));
  }

  lemma ReleaseWorker(h: Host, policy: HostPolicy, leases: LeaseMap, sequence: nat, demand: map<string, int>, k: Key)
    returns (h': Host)
    requires Stage(h, policy, leases, sequence, demand) && ValidKey(k) && k in leases
    ensures Stage(h', policy, leases - {k}, sequence + 1, demand)
  {
    hide Reachable, NodeOk, SweepPhase, ValidKey, Compact, ForgetStale, PolicyOk, EnvOk;
    StageIsIdle(h, policy, leases, sequence, demand);
    DoIsReachable(h, CmdRelease(k));
    h' := Do1(h, CmdRelease(k));
  }

  /** Publishing demand leaves the cursor where it is. */
  lemma Ask(h: Host, policy: HostPolicy, leases: LeaseMap, sequence: nat, demand: map<string, int>, p: string)
    returns (h': Host)
    requires Stage(h, policy, leases, sequence, demand) && ValidProfileId(p) && Knows(policy, p)
    ensures Stage(h', policy, leases, sequence, demand[p := 1])
    ensures h'.memory.value.rotation == h.memory.value.rotation && p in h'.memory.value.known
    ensures h.memory.value.known <= h'.memory.value.known
  {
    hide Reachable, NodeOk, SweepPhase, ValidProfileId, PolicyOk, EnvOk, ForgetStale;
    StageIsIdle(h, policy, leases, sequence, demand);
    DoIsReachable(h, CmdSetDemand(p, 1));
    h' := Do1(h, CmdSetDemand(p, 1));
  }

  /** A crash and a restart seed the cursor from the sequence. */
  lemma Reopen(h: Host, policy: HostPolicy, leases: LeaseMap, sequence: nat, demand: map<string, int>) returns (h': Host)
    requires Stage(h, policy, leases, sequence, demand) && ProvisionalKeys(leases) == {}
    ensures Stage(h', policy, leases, sequence, map[]) && h'.memory.value.rotation == sequence % ROTATION_SEED_MODULUS
  {
    hide Reachable, ValidLedger, Accepts, DemandOk;
    StageIsIdle(h, policy, leases, sequence, demand);
    DocumentInForce(h);
    ReachStep(h, Crash);
    var down := Next(h, Crash);
    ReachableIsOk(down);
    assert Elements<Key>([]) == {};
    OpenNeverRefuses(down, 0, []);
    ReachStep(down, Open(0, [], true));
    h' := Next(down, Open(0, [], true));
  }

  /** The memory in which an acquire decides for a profile that asked for one worker. */
  ghost function Asked(m: Memory, p: string): Memory {
    WithDemand(m, p, 1, DEMAND_TTL)
  }

  lemma QuietGrant(n: Node, k: Key)
    requires Idle(n) && ValidKey(k) && k !in n.mem.ledger.leases && n.mem.ledger.fences == map[]
    requires Knows(n.mem.ledger.policy, k.profile) && VerdictFor(Asked(n.mem, k.profile), k.profile).Admit?
    ensures
      Run(n, CmdAcquire(k, 1), QUIET).node ==
        GrantTo(n.(mem := Asked(n.mem, k.profile)), k, 1, VerdictFor(Asked(n.mem, k.profile), k.profile).contenders, QUIET).node
  {
    hide NodeOk, SweepPhase, ValidKey, VerdictFor, ForgetStale, PolicyOk, EnvOk, GrantTo;
  }

  lemma GrantKeepsCalm(n: Node, policy: HostPolicy, leases: LeaseMap, sequence: nat, k: Key, contenders: nat)
    requires Calm(n.mem, policy, leases, sequence, map[]) && Knows(policy, k.profile)
    ensures
      var units := Lookup(policy.profiles, k.profile).value.unitCost;
      Calm(GrantTo(n.(mem := Asked(n.mem, k.profile)), k, 1, contenders, QUIET).node.mem, policy,
           leases[k := GrantedLease(k, units, Provisional, DEFAULT_LEASE_TTL, sequence + 1)], sequence + 1, map[])
  {
    hide Lookup, LeaseIdText;
    var m := GrantTo(n.(mem := Asked(n.mem, k.profile)), k, 1, contenders, QUIET).node.mem;
    assert m.demand == map[];
    assert m.deadlines == n.mem.deadlines[k := DEFAULT_LEASE_TTL];
    assert m.demandDeadlines == n.mem.demandDeadlines[k.profile := DEMAND_TTL] - {k.profile};
  }

  lemma AcquireSlot(h: Host, policy: HostPolicy, leases: LeaseMap, sequence: nat, k: Key) returns (h': Host)
    requires Stage(h, policy, leases, sequence, map[]) && ValidKey(k) && k !in leases && Knows(policy, k.profile)
    requires VerdictFor(Asked(h.memory.value, k.profile), k.profile).Admit?
    ensures
      var units := Lookup(policy.profiles, k.profile).value.unitCost;
      Stage(h', policy, leases[k := GrantedLease(k, units, Provisional, DEFAULT_LEASE_TTL, sequence + 1)], sequence + 1, map[])
  {
    hide Reachable, ValidKey, VerdictFor, Lookup, GrantedLease, GrantTo, Idle, Run, Calm;
    StageIsIdle(h, policy, leases, sequence, map[]);
    StageParts(h, policy, leases, sequence, map[]);
    DoIsReachable(h, CmdAcquire(k, 1));
    var n := NodeOf(h);
    QuietGrant(n, k);
    GrantKeepsCalm(n, policy, leases, sequence, k, VerdictFor(Asked(n.mem, k.profile), k.profile).contenders);
    h' := Do1(h, CmdAcquire(k, 1));
  }

  lemma AcquireRefused(h: Host, policy: HostPolicy, leases: LeaseMap, sequence: nat, k: Key, error: Error)
    requires Stage(h, policy, leases, sequence, map[]) && ValidKey(k) && k !in leases && Knows(policy, k.profile)
    requires VerdictFor(Asked(h.memory.value, k.profile), k.profile) == Refuse(error)
    ensures Acquire(NodeOf(h), k, 1, QUIET).outcome == Failed(error)
  {
    hide Reachable, NodeOk, SweepPhase, ValidKey, VerdictFor, ForgetStale, PolicyOk, EnvOk;
    StageIsIdle(h, policy, leases, sequence, map[]);
  }

  // ---------------------------------------------------------------------
  // A departed profile's lease and a cursor out of range

  function Plain(id: string): ProfilePolicy {
    ProfilePolicy(id, 1, 0, false, "")
  }

  const CROWD := [Plain("a"), Plain("b"), Plain("c")]

  const FIRST := HostPolicy(1, 6, "", 0, 0, "", CROWD + [Plain("z")])

  const SECOND := HostPolicy(2, 6, "", 0, 0, "", CROWD)

  lemma PlainReservesNothing(ps: seq<ProfilePolicy>)
    requires forall i :: 0 <= i < |ps| ==> ps[i].reservedUnits == 0
    ensures ReservedSum(ps) == 0
  {}

  lemma PlainPolicyIsValid(h: HostPolicy)
    requires ValidBudget(h) && UniqueProfiles(h.profiles)
    requires forall i :: 0 <= i < |h.profiles| ==> h.profiles[i] == Plain(h.profiles[i].profileId) && ValidProfileId(h.profiles[i].profileId)
    ensures ValidPolicy(h)
  {
    PlainReservesNothing(h.profiles);
  }

  lemma PoliciesAreValid()
    ensures ValidPolicy(FIRST) && ValidPolicy(SECOND)
    ensures Lookup(FIRST.profiles, "a") == Some(Plain("a")) && Lookup(FIRST.profiles, "z") == Some(Plain("z"))
  {
    hide ValidPolicy;
    assert "a"[0] == 'a' && "b"[0] == 'b' && "c"[0] == 'c' && "z"[0] == 'z';
    PlainPolicyIsValid(FIRST);
    PlainPolicyIsValid(SECOND);
    assert FIRST.profiles[0] == Plain("a") && FIRST.profiles[3] == Plain("z");
    LookupUnique(FIRST.profiles, Plain("a"));
    LookupUnique(FIRST.profiles, Plain("z"));
  }

  lemma CrowdIsKnown(id: string)
    requires id == "a" || id == "b" || id == "c"
    ensures Lookup(CROWD, id) == Some(Plain(id)) && ValidProfileId(id)
  {
    assert "a"[0] == 'a' && "b"[0] == 'b' && "c"[0] == 'c';
    assert CROWD[0] == Plain("a") && CROWD[1] == Plain("b") && CROWD[2] == Plain("c");
    LookupUnique(CROWD, Plain(id));
  }

  const ORPHAN := Key("z", "s")

  const ORPHAN_LEASE := GrantedLease(ORPHAN, 1, Active, 0, 1)

  /** Adopt z, adopt and release a twice, publish a policy without z, restart: the cursor is 5. */
  lemma OrphanedRun() returns (h: Host)
    ensures Stage(h, SECOND, map[ORPHAN := ORPHAN_LEASE], 5, map[]) && h.memory.value.rotation == 5
  {
    hide Stage, ValidPolicy, Lookup, LeaseIdText;
    PoliciesAreValid();
    var other := Key("a", "s");
    assert "a"[0] == 'a' && "z"[0] == 'z' && "s"[0] == 's';
    var leases := map[ORPHAN := ORPHAN_LEASE];
    h := Start();
    h := Publish(h, NO_POLICY, map[], 0, map[], FIRST);
    h := AdoptWorker(h, FIRST, map[], 0, map[], ORPHAN);
    h := AdoptWorker(h, FIRST, leases, 1, map[], other);
    h := Dropped(h, leases, 2, other);
    h := AdoptWorker(h, FIRST, leases, 3, map[], other);
    h := Dropped(h, leases, 4, other);
    h := Publish(h, FIRST, leases, 5, map[], SECOND);
    h := Reopen(h, SECOND, leases, 5, map[]);
  }

  lemma Dropped(h: Host, leases: LeaseMap, sequence: nat, k: Key) returns (h': Host)
    requires k !in leases && ValidKey(k) && Knows(FIRST, k.profile) && sequence >= 1
    requires
      var units := Lookup(FIRST.profiles, k.profile).value.unitCost;
      Stage(h, FIRST, leases[k := GrantedLease(k, units, Active, 0, sequence)], sequence, map[])
    ensures Stage(h', FIRST, leases, sequence + 1, map[])
  {
    hide Stage, Lookup, ValidKey, LeaseIdText;
    var more := leases[k := GrantedLease(k, Lookup(FIRST.profiles, k.profile).value.unitCost, Active, 0, sequence)];
    h' := ReleaseWorker(h, FIRST, more, sequence, map[], k);
    assert more - {k} == leases;
  }

  lemma CrowdSums(held: map<string, int>, id: string)
    requires At(held, "a") == At(held, "b") == At(held, "c") == 0
    ensures Protected(CROWD, id, held) == 0 && HeldBy(CROWD, held) == 0
  {
    var two, one := CROWD[..2], CROWD[..1];
    assert two[..1] == one && one[..0] == [];
    assert Protected(one, id, held) == Protected(one[..0], id, held);
    assert Protected(two, id, held) == Protected(one, id, held);
    assert HeldBy(one, held) == HeldBy(one[..0], held);
    assert HeldBy(two, held) == HeldBy(one, held);
  }

  const CROWD_DEMAND: map<string, int> := map["a" := 1, "b" := 1, "c" := 1]

  lemma CrowdContends()
    ensures Contenders(SECOND, CROWD_DEMAND) == ["a", "b", "c"] && IndexOf(["a", "b", "c"], "c") == 2
  {
    hide Lookup;
    assert "a"[0] == 'a' && "b"[0] == 'b' && "c"[0] == 'c';
    CrowdIsKnown("a");
    CrowdIsKnown("b");
    CrowdIsKnown("c");
    var all := set id | id in CROWD_DEMAND && CROWD_DEMAND[id] > 0 && Knows(SECOND, id);
    assert all == {"a", "b", "c"};
    var listed := ["a", "b", "c"];
    assert Less("a", "b") && Less("b", "c") && Less("a", "c");
    assert StrictlySorted(listed);
    assert Elements(listed) == all;
    SortedUnique(Contenders(SECOND, CROWD_DEMAND), listed);
  }

  lemma OrphanHoldings()
    ensures HeldMap(map[ORPHAN := ORPHAN_LEASE]) == map["z" := 1] && MapSum(map["z" := 1]) == 1
  {
    var none: LeaseMap := map[];
    assert HeldMap(none) == map[];
    HeldMapPut(none, ORPHAN, ORPHAN_LEASE);
    var held: map<string, int> := map[];
    MapSumPut(held, "z", 1);
  }

  lemma CrowdSharesNothing()
    ensures SharedHoldings(["a", "b", "c"], SECOND, map["z" := 1]) == [0, 0, 0]
  {
    hide Lookup;
    assert "z"[0] == 'z' && "a"[0] == 'a' && "b"[0] == 'b' && "c"[0] == 'c';
    CrowdIsKnown("a");
    CrowdIsKnown("b");
    CrowdIsKnown("c");
  }

  /** In the orphaned state the decision admits c, and Status finds no room for it. */
  lemma BlindVerdict(m: Memory)
    requires m.ledger.policy == SECOND && m.ledger.leases == map[ORPHAN := ORPHAN_LEASE] && m.ledger.fences == map[]
    requires m.demand == CROWD_DEMAND && "c" in m.known && m.rotation == 5
    ensures
      var held := HeldMap(m.ledger.leases);
      HasDemand(m, "c") && WithheldReason(m, Plain("c"), held).None? && !ShowsRoom(m, Plain("c"), held)
  {
    hide Contenders, HeldMap, Protected, HeldBy, MapSum, SharedHoldings, Allocatable, IndexOf;
    assert "z"[0] == 'z' && "a"[0] == 'a' && "b"[0] == 'b' && "c"[0] == 'c';
    OrphanHoldings();
    CrowdContends();
    CrowdSharesNothing();
    CrowdSums(map["z" := 1], "c");
    AllocatableNotMonotoneOutOfRange();
  }

  /**
   A run from a fresh store after which Status reports pending units for c, no reason
   and no worker, while an acquire of c at the same instant is granted.
   */
  lemma PromiseFailsWhenBlind() returns (h: Host, a: ProfileAccounting)
    ensures Reachable(h) && h.memory.Some? && NodeOk(NodeOf(h)) && PolicyOk(LedgerOf(h).policy)
    ensures
      var r := Status(NodeOf(h), QUIET);
      && r.outcome.Report? && Reported(r.outcome.snapshot, a)
      && a.profileId == "c" && a.pendingUnits == Some(1)
      && a.capacity.withheld.None? && a.capacity.allocatableWorkers == 0
      && Acquire(r.node, Key("c", "t"), 1, QUIET).outcome.Leased?
  {
    hide Stage, SweepPhase, ForgetStale, SnapshotOf, WithheldReason, ShowsRoom, HeldMap, NodeOk, ValidPolicy, Acquire, EnvOk, PolicyOk, AccountingOf, Lookup;
    h := OrphanedRun();
    var leases := map[ORPHAN := ORPHAN_LEASE];
    CrowdIsKnown("a");
    CrowdIsKnown("b");
    CrowdIsKnown("c");
    h := Ask(h, SECOND, leases, 5, map[], "a");
    h := Ask(h, SECOND, leases, 5, map["a" := 1], "b");
    h := Ask(h, SECOND, leases, 5, map["a" := 1, "b" := 1], "c");
    StageIsIdle(h, SECOND, leases, 5, CROWD_DEMAND);
    StageParts(h, SECOND, leases, 5, CROWD_DEMAND);
    var n := NodeOf(h);
    BlindVerdict(n.mem);
    a := AccountingOf(n.mem, Plain("c"));
    LineIsReported(n.mem, "c");
    BlindLine(n, a);
    assert "t"[0] == 't' && "c"[0] == 'c' && "z"[0] == 'z';
    PromisedWorkerIsGranted(n, QUIET, a, "t", 1, QUIET);
    StatusReasonIsNextError(n, QUIET, a, "t", 1, QUIET);
  }

  lemma StageParts(h: Host, policy: HostPolicy, leases: LeaseMap, sequence: nat, demand: map<string, int>)
    requires Stage(h, policy, leases, sequence, demand)
    ensures
      var m := h.memory.value;
      && Reachable(h) && h.memory.Some? && m.ledger.policy == policy && m.ledger.leases == leases
      && m.ledger.fences == map[] && m.demand == demand
  {
    hide Reachable;
  }

  /** The line of a profile that Status cannot find room for. */
  lemma BlindLine(n: Node, a: ProfileAccounting)
    requires Idle(n) && n.mem.ledger.policy == SECOND && n.mem.demand == CROWD_DEMAND && HasDemand(n.mem, "c")
    requires a == AccountingOf(n.mem, Plain("c")) && WithheldReason(n.mem, Plain("c"), HeldMap(n.mem.ledger.leases)).None?
    ensures a.profileId == "c" && a.pendingUnits == Some(1) && a.capacity.withheld.None?
    ensures Status(n, QUIET) == Reply(n, Report(SnapshotOf(n.mem)))
  {
    hide NodeOk, SweepPhase, ForgetStale, SnapshotOf, WithheldReason, HeldMap, OpenUnits, PolicyOk, EnvOk;
  }

  /** Status has a line for every profile of the policy. */
  lemma LineIsReported(m: Memory, id: string)
    requires PolicyOk(m.ledger.policy) && Knows(m.ledger.policy, id)
    ensures Lookup(m.ledger.policy.profiles, id).value.unitCost >= 1
    ensures Reported(SnapshotOf(m), AccountingOf(m, Lookup(m.ledger.policy.profiles, id).value))
  {
    hide AccountingOf, HeldMap, HeldBy, PolicyOk;
    var h := m.ledger.policy;
    ListedProfile(h, id);
    var ids := SortedView(ProfileIds(h));
    assert id in Elements(ids);
    var i :| 0 <= i < |ids| && ids[i] == id;
    assert SnapshotOf(m).accounting[i] == AccountingOf(m, Lookup(h.profiles, id).value);
  }

  // ---------------------------------------------------------------------
  // A reclaimed loan

  const LENDER := ProfilePolicy("a", 1, 1, true, "")

  const PROTECTED_OWNER := ProfilePolicy("b", 1, 1, false, "")

  const BORROWER := ProfilePolicy("c", 1, 0, false, "")

  const LENDING := HostPolicy(1, 2, "", 0, 0, "", [LENDER, PROTECTED_OWNER, BORROWER])

  lemma LendingIsValid()
    ensures ValidPolicy(LENDING) && LENDING.generation > NO_POLICY.generation
    ensures Lookup(LENDING.profiles, "a") == Some(LENDER) && Lookup(LENDING.profiles, "b") == Some(PROTECTED_OWNER)
    ensures Lookup(LENDING.profiles, "c") == Some(BORROWER)
  {
    var ps, two, one := LENDING.profiles, [LENDER, PROTECTED_OWNER], [LENDER];
    assert ps[..2] == two && two[..1] == one && one[..0] == [];
    assert "a"[0] == 'a' && "b"[0] == 'b' && "c"[0] == 'c';
    assert ReservedSum(one) == ReservedSum(one[..0]) + 1;
    assert ReservedSum(two) == ReservedSum(two[..1]) + 1;
    assert ReservedSum(ps) == ReservedSum(ps[..2]);
    assert ps[0] == LENDER && ps[1] == PROTECTED_OWNER && ps[2] == BORROWER;
    LookupUnique(ps, LENDER);
    LookupUnique(ps, PROTECTED_OWNER);
    LookupUnique(ps, BORROWER);
  }

  function Loan(k: Key, sequence: nat): Lease {
    GrantedLease(k, 1, Provisional, DEFAULT_LEASE_TTL, sequence)
  }

  lemma HeldAfter(leases: LeaseMap, held: map<string, int>, k: Key, sequence: nat)
    requires k !in leases && HeldMap(leases) == held && k.profile !in held
    ensures HeldMap(leases[k := Loan(k, sequence)]) == held[k.profile := 1]
    ensures MapSum(held[k.profile := 1]) == MapSum(held) + 1
  {
    hide HeldMap, MapSum, LeaseIdText;
    HeldMapPut(leases, k, Loan(k, sequence));
    MapSumPut(held, k.profile, 1);
  }

  /** With nothing held, the shared pool admits the borrower next to b's protected unit. */
  lemma BorrowerIsAdmitted(m: Memory)
    requires m.ledger.policy == LENDING && m.ledger.leases == map[] && m.demand == map[]
    ensures Knows(LENDING, "c") && VerdictFor(Asked(m, "c"), "c").Admit?
  {
    hide Lookup, Contenders;
    LendingIsValid();
    var none: LeaseMap := map[];
    assert HeldMap(none) == map[];
    OnlyBIsProtected();
    LoneContender(m);
    assert IndexOf(["c"], "c") == 0;
    var shared := SharedHoldings(["c"], LENDING, map[]);
    assert Withheld(shared, 0, m.rotation, 1, 0) == 0;
    assert Withheld(shared, 0, m.rotation, 1, 1) == 0;
  }

  lemma LoneContender(m: Memory)
    requires m.ledger.policy == LENDING && m.demand == map[]
    ensures Contenders(LENDING, Asked(m, "c").demand) == ["c"]
  {
    hide Lookup;
    LendingIsValid();
    var demand := Asked(m, "c").demand;
    assert (set id | id in demand && demand[id] > 0 && Knows(LENDING, id)) == {"c"};
    assert StrictlySorted(["c"]) && Elements(["c"]) == {"c"};
    SortedUnique(Contenders(LENDING, demand), ["c"]);
  }

  lemma OnlyBIsProtected()
    ensures Protected(LENDING.profiles, "c", map[]) == 1
  {
    var ps, two, one := LENDING.profiles, [LENDER, PROTECTED_OWNER], [LENDER];
    var held: map<string, int> := map[];
    assert ps[..2] == two && two[..1] == one && one[..0] == [];
    assert "b"[0] == 'b' && "c"[0] == 'c';
    assert Protected(one, "c", held) == Protected(one[..0], "c", held);
    assert Protected(two, "c", held) == Protected(two[..1], "c", held) + 1;
  }

  lemma LenderReclaims(m: Memory, held: map<string, int>)
    requires m.ledger.policy == LENDING && HeldMap(m.ledger.leases) == held && MapSum(held) == 1 && "a" !in held
    ensures Knows(LENDING, "a") && VerdictFor(Asked(m, "a"), "a").Admit?
  {
    hide Lookup, Contenders, HeldMap, MapSum;
    LendingIsValid();
  }

  lemma OwnerFindsNothing(m: Memory, held: map<string, int>)
    requires m.ledger.policy == LENDING && HeldMap(m.ledger.leases) == held && MapSum(held) == 2
    ensures Knows(LENDING, "b") && VerdictFor(Asked(m, "b"), "b") == Refuse(BudgetExhausted)
  {
    hide Lookup, Contenders, HeldMap, MapSum;
    LendingIsValid();
  }

  /**
   A run from a fresh store: c borrows the unit that a lends, a reclaims its
   reservation from the unit that protects b, and b, which holds nothing of its
   own non-borrowable reservation, is refused a fresh slot.
   */
  lemma ReclaimedLoanBreaksProtection() returns (h: Host)
    ensures Reachable(h) && h.memory.Some? && LedgerOf(h).policy == LENDING && LedgerOf(h).fences == map[]
    ensures Weight(LedgerOf(h).leases, Some("b")) == 0 && Key("b", "s") !in LedgerOf(h).leases
    ensures !Covered(LENDING, HeldMap(LedgerOf(h).leases))
    ensures Acquire(NodeOf(h), Key("b", "s"), 1, QUIET).outcome == Failed(BudgetExhausted)
  {
    hide Stage, Lookup, VerdictFor, HeldMap, MapSum, LeaseIdText, ValidPolicy, Acquire, Reachable, Covered, Weight;
    LendingIsValid();
    assert "a"[0] == 'a' && "b"[0] == 'b' && "c"[0] == 'c' && "s"[0] == 's';
    var ck, ak, bk := Key("c", "s"), Key("a", "s"), Key("b", "s");
    var none: map<string, int> := map[];
    EmptyHoldings();
    h := Start();
    h := Publish(h, NO_POLICY, map[], 0, map[], LENDING);
    StageParts(h, LENDING, map[], 0, map[]);
    BorrowerIsAdmitted(h.memory.value);
    h := AcquireSlot(h, LENDING, map[], 0, ck);
    var lent: LeaseMap := map[ck := Loan(ck, 1)];
    HeldAfter(map[], none, ck, 1);
    StageParts(h, LENDING, lent, 1, map[]);
    LenderReclaims(h.memory.value, none["c" := 1]);
    h := AcquireSlot(h, LENDING, lent, 1, ak);
    var reclaimed := lent[ak := Loan(ak, 2)];
    HeldAfter(lent, none["c" := 1], ak, 2);
    StageParts(h, LENDING, reclaimed, 2, map[]);
    var held := none["c" := 1]["a" := 1];
    OwnerFindsNothing(h.memory.value, held);
    AcquireRefused(h, LENDING, reclaimed, 2, bk, BudgetExhausted);
    HeldMapAt(reclaimed, "b");
    NotCovered(held);
  }

  lemma EmptyHoldings()
    ensures HeldMap(map[]) == map[] && MapSum(map[]) == 0
  {}

  lemma NotCovered(held: map<string, int>)
    requires MapSum(held) == 2 && "b" !in held
    ensures !Covered(LENDING, held)
  {
    hide MapSum;
    var ps, two, one := LENDING.profiles, [LENDER, PROTECTED_OWNER], [LENDER];
    assert ps[..2] == two && two[..1] == one;
    assert Headroom(two, held) == Headroom(two[..1], held) + 1;
  }
}
