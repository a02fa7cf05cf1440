/**
 What every command answers, and what it leaves behind, stated by the leases
 that are in force at the instant of the call: when the command succeeds, which
 error it gives otherwise, and the lease, fence or tombstone a success leaves.
 The last part draws the consequences for whole runs.
 */
module Replies {
  import opened Identity
  import opened Ordering
  import opened FairShare
  import opened Policy
  import opened Leases
  import opened Admission
  import opened Ledgers
  import opened Commands
  import opened Invariants
  import opened Runs
  import opened Lifetimes
  import opened Adoption
  import opened Expiry

  // ---------------------------------------------------------------------
  // Leases in force at an instant

  /** The lease is active, or provisional and still before its deadline. */
  ghost predicate Live(m: Memory, k: Key, now: int) {
    && k in m.ledger.leases
    && (m.ledger.leases[k].status.Active? || (k in m.deadlines && now < m.deadlines[k]))
  }

  ghost function InForce(m: Memory, now: int): LeaseMap {
    map k | k in m.ledger.leases && Live(m, k, now) :: m.ledger.leases[k]
  }

  /** Nothing has expired, or what has expired can be removed durably. */
  ghost predicate Sweeps(m: Memory, env: Env) {
    env.sweepSaved || forall k :: k in m.ledger.leases ==> Live(m, k, env.now)
  }

  lemma DueIsExpired(m: Memory, now: int)
    ensures forall k :: k in Due(m, now) <==> k in m.ledger.leases && !Live(m, k, now)
    ensures m.ledger.leases - Due(m, now) == InForce(m, now)
  {}

  /** The sweep goes through exactly when it can, and leaves exactly the leases in force. */
  lemma SweepLeavesLive(n: Node, env: Env)
    requires EnvOk(n, env)
    ensures SweepPhase(n, env).Some? <==> Sweeps(n.mem, env)
    ensures forall k :: k in Due(n.mem, env.now) <==> k in n.mem.ledger.leases && !Live(n.mem, k, env.now)
    ensures
      SweepPhase(n, env).Some? ==>
        var m := SweepPhase(n, env).value.mem;
        && m.ledger.leases == InForce(n.mem, env.now)
        && m.ledger.policy == n.mem.ledger.policy && m.ledger.fences == n.mem.ledger.fences
        && m.ledger.epoch == n.mem.ledger.epoch && m.ledger.sequence >= n.mem.ledger.sequence
        && m.ttl == n.mem.ttl && m.rotation == n.mem.rotation
  {
    hide InForce, Live, Compact, Swept;
    DueIsExpired(n.mem, env.now);
    if SweepPhase(n, env).Some? { SweepLeavesNothingDue(n, env); }
  }

  lemma NotedParts(r: Reply, command: LeaseCommand, profile: string, env: Env)
    ensures
      var r' := Noted(r, command, profile, env);
      && r'.outcome == r.outcome
      && r'.node.mem.(ledger := r.node.mem.ledger) == r.node.mem
      && r'.node.mem.ledger.(lastDecision := r.node.mem.ledger.lastDecision) == r.node.mem.ledger
  {}

  // ---------------------------------------------------------------------
  // Activate and Renew

  /** The same worker: everything but the status and its bookkeeping. */
  predicate SameWorker(a: Lease, b: Lease) {
    b == a.(status := b.status, expiresAt := b.expiresAt, activatedAt := b.activatedAt)
  }

  /** Activation of k: it succeeds for a live lease, and then the same lease is active. */
  ghost predicate Activates(m: Memory, k: Key, env: Env, outcome: Outcome, m': Memory) {
    var l, l' := m.ledger, m'.ledger;
    && (!outcome.Failed? <==>
          ValidKey(k) && Sweeps(m, env) && Live(m, k, env.now) && (ActiveAt(l, k) || env.saved))
    && (!outcome.Failed? ==>
          && ActiveAt(l', k) && outcome == Leased(l'.leases[k]) && SameWorker(l.leases[k], l'.leases[k])
          && k !in m'.deadlines && l'.leases == InForce(m, env.now)[k := l'.leases[k]]
          && if ActiveAt(l, k) then l'.leases[k] == l.leases[k] else l'.leases[k].activatedAt == l'.sequence)
    && (outcome == Failed(LeaseExpired) <==> ValidKey(k) && Sweeps(m, env) && k in l.leases && !Live(m, k, env.now))
    && (outcome == Failed(LeaseNotFound) <==> ValidKey(k) && Sweeps(m, env) && k !in l.leases)
    && (outcome == Failed(InvalidIdentity) <==> !ValidKey(k))
  }

  lemma ActivateAnswers(n: Node, k: Key, env: Env)
    requires NodeOk(n) && EnvOk(n, env)
    ensures
      var r := Activate(n, k, env);
      Activates(n.mem, k, env, r.outcome, r.node.mem)
  {
    hide ValidLedger, EnvOk, SweepPhase, Sweeps, Noted, ValidKey, ActivateSwept, DemandOk;
    SweepLeavesLive(n, env);
    NotedParts(Reply(n, Failed(StoreFailure)), ActivateLease, k.profile, env);
    if SweepPhase(n, env).Some? {
      var s := SweepPhase(n, env).value;
      NotedParts(Reply(s, Failed(LeaseExpired)), ActivateLease, k.profile, env);
      NotedParts(ActivateSwept(s, k, env), ActivateLease, k.profile, env);
      SweepLeavesNothingDue(n, env);
      ActivateSweptAnswers(s, k, env);
    }
  }

  lemma ActivateSweptAnswers(n: Node, k: Key, env: Env)
    ensures
      var r, ls := ActivateSwept(n, k, env), n.mem.ledger.leases;
      var l' := r.node.mem.ledger;
      && (!r.outcome.Failed? <==> k in ls && (ls[k].status.Active? || env.saved))
      && (r.outcome == Failed(LeaseNotFound) <==> k !in ls)
      && (r.outcome.Failed? ==> r.outcome.error in {LeaseNotFound, StoreFailure})
      && (!r.outcome.Failed? ==>
            && k in l'.leases && l'.leases[k].status.Active? && r.outcome == Leased(l'.leases[k])
            && SameWorker(ls[k], l'.leases[k]) && l'.leases == ls[k := l'.leases[k]]
            && (if ls[k].status.Active? then l'.leases[k] == ls[k] else l'.leases[k].activatedAt == l'.sequence)
            && r.node.mem.deadlines == if ls[k].status.Active? then n.mem.deadlines else n.mem.deadlines - {k})
  {}

  /** Renewal of k: it succeeds for a live provisional lease, and then only its expiry moves. */
  ghost predicate Renews(m: Memory, k: Key, env: Env, outcome: Outcome, m': Memory) {
    var l, l', expiry := m.ledger, m'.ledger, env.now + m.ttl;
    && (!outcome.Failed? <==>
          ValidKey(k) && Sweeps(m, env) && Live(m, k, env.now) && !ActiveAt(l, k) && env.saved)
    && (!outcome.Failed? ==>
          && l'.leases == InForce(m, env.now)[k := l.leases[k].(expiresAt := expiry)]
          && outcome == Leased(l'.leases[k]) && k in m'.deadlines && m'.deadlines[k] == expiry)
    && (outcome == Failed(LeaseExpired) <==> ValidKey(k) && Sweeps(m, env) && k in l.leases && !Live(m, k, env.now))
    && (outcome == Failed(LeaseNotFound) <==> ValidKey(k) && Sweeps(m, env) && k !in l.leases)
    && (outcome == Failed(LeaseNotProvisional) <==> ValidKey(k) && Sweeps(m, env) && ActiveAt(l, k))
    && (outcome == Failed(InvalidIdentity) <==> !ValidKey(k))
  }

  lemma RenewAnswers(n: Node, k: Key, env: Env)
    requires NodeOk(n) && EnvOk(n, env)
    ensures
      var r := RenewLeaseOf(n, k, env);
      Renews(n.mem, k, env, r.outcome, r.node.mem)
  {
    hide ValidLedger, EnvOk, SweepPhase, Sweeps, Noted, ValidKey, RenewSwept, DemandOk;
    SweepLeavesLive(n, env);
    NotedParts(Reply(n, Failed(StoreFailure)), RenewLease, k.profile, env);
    if SweepPhase(n, env).Some? {
      var s := SweepPhase(n, env).value;
      NotedParts(Reply(s, Failed(LeaseExpired)), RenewLease, k.profile, env);
      NotedParts(RenewSwept(s, k, env), RenewLease, k.profile, env);
      SweepLeavesNothingDue(n, env);
      RenewSweptAnswers(s, k, env);
    }
  }

  lemma RenewSweptAnswers(n: Node, k: Key, env: Env)
    ensures
      var r, ls, expiry := RenewSwept(n, k, env), n.mem.ledger.leases, env.now + n.mem.ttl;
      && (!r.outcome.Failed? <==> k in ls && ls[k].status.Provisional? && env.saved)
      && (r.outcome == Failed(LeaseNotFound) <==> k !in ls)
      && (r.outcome == Failed(LeaseNotProvisional) <==> k in ls && ls[k].status.Active?)
      && (r.outcome.Failed? ==> r.outcome.error in {LeaseNotFound, LeaseNotProvisional, StoreFailure})
      && (!r.outcome.Failed? ==>
            && r.node.mem.ledger.leases == ls[k := ls[k].(expiresAt := expiry)]
            && r.outcome == Leased(r.node.mem.ledger.leases[k])
            && r.node.mem.deadlines == n.mem.deadlines[k := expiry])
  {}

  // ---------------------------------------------------------------------
  // BindRegistration and Adopt

  /** Binding a name to k: it succeeds for a live lease without another name, and then the lease carries it. */
  ghost predicate Binds(m: Memory, k: Key, name: string, env: Env, outcome: Outcome, m': Memory) {
    var l, l', sound := m.ledger, m'.ledger, ValidKey(k) && ValidRegistrationName(name);
    && (!outcome.Failed? <==>
          && sound && Sweeps(m, env) && Live(m, k, env.now)
          && (l.leases[k].registrationName == name || (l.leases[k].registrationName == "" && env.saved)))
    && (!outcome.Failed? ==>
          && l'.leases == InForce(m, env.now)[k := l.leases[k].(registrationName := name)]
          && outcome == Leased(l'.leases[k]))
    && (outcome == Failed(LeaseNotFound) <==> sound && Sweeps(m, env) && !Live(m, k, env.now))
    && (outcome == Failed(InvalidIdentity) <==>
          || !sound
          || (Sweeps(m, env) && Live(m, k, env.now) && l.leases[k].registrationName !in {"", name}))
  }

  lemma BindAnswers(n: Node, k: Key, name: string, env: Env)
    requires NodeOk(n) && EnvOk(n, env)
    ensures
      var r := BindRegistration(n, k, name, env);
      Binds(n.mem, k, name, env, r.outcome, r.node.mem)
  {
    hide ValidLedger, EnvOk, SweepPhase, Sweeps, ValidKey, BindSwept, DemandOk, ValidRegistrationName;
    SweepLeavesLive(n, env);
    if SweepPhase(n, env).Some? {
      SweepLeavesNothingDue(n, env);
      BindSweptAnswers(SweepPhase(n, env).value, k, name, env);
    }
  }

  lemma BindSweptAnswers(n: Node, k: Key, name: string, env: Env)
    ensures
      var r, ls := BindSwept(n, k, name, env), n.mem.ledger.leases;
      && (!r.outcome.Failed? <==>
            k in ls && (ls[k].registrationName == name || (ls[k].registrationName == "" && env.saved)))
      && (r.outcome == Failed(LeaseNotFound) <==> k !in ls)
      && (r.outcome == Failed(InvalidIdentity) <==> k in ls && ls[k].registrationName !in {"", name})
      && (!r.outcome.Failed? ==>
            && r.node.mem.ledger.leases == ls[k := ls[k].(registrationName := name)]
            && r.outcome == Leased(r.node.mem.ledger.leases[k]))
  {
    var ls := n.mem.ledger.leases;
    if k in ls && ls[k].registrationName == name { assert ls == ls[k := ls[k].(registrationName := name)]; }
  }

  /** A lease that this step issued for k, at the cost its profile has in the policy. */
  ghost predicate IssuedNow(l: Ledger, l': Ledger, k: Key) {
    && Knows(l.policy, k.profile) && k in l'.leases
    && var lease := l'.leases[k];
       && lease.profileId == k.profile && lease.slotKey == k.slot && lease.registrationName == ""
       && lease.units == Lookup(l.policy.profiles, k.profile).value.unitCost
       && lease.grantedAt == l'.sequence > l.sequence && lease.leaseId == LeaseIdText(k, l'.sequence)
  }

  /** What a successful adoption leaves of the lease of k. */
  ghost predicate Adopted(l: Ledger, k: Key, l': Ledger) {
    && ActiveAt(l', k) && !AwaitsAccounting(l', k) && l'.leases == l.leases[k := l'.leases[k]]
    && (if k in l.leases then SameWorker(l.leases[k], l'.leases[k]) else IssuedNow(l, l', k))
    && if ActiveAt(l, k) then l'.leases[k] == l.leases[k] else l'.leases[k].activatedAt == l'.sequence
  }

  /**
   Adoption of k: it succeeds for a known profile, and then k is active and accounted
   for, as the worker it was if it was live, else under a new lease.
   */
  ghost predicate Adopts(m: Memory, k: Key, env: Env, outcome: Outcome, m': Memory) {
    var l, l' := m.ledger, m'.ledger;
    && (!outcome.Failed? <==>
          && ValidKey(k) && Sweeps(m, env) && Knows(l.policy, k.profile)
          && (env.saved || (ActiveAt(l, k) && !AwaitsAccounting(l, k))))
    && (!outcome.Failed? ==>
          && Adopted(l.(leases := InForce(m, env.now)), k, l')
          && outcome == Leased(l'.leases[k]) && k !in m'.deadlines)
    && (outcome == Failed(UnknownProfile) <==> ValidKey(k) && Sweeps(m, env) && !Knows(l.policy, k.profile))
    && (outcome == Failed(InvalidIdentity) <==> !ValidKey(k))
  }

  lemma AdoptAnswers(n: Node, k: Key, env: Env)
    requires NodeOk(n) && EnvOk(n, env)
    ensures
      var r := Adopt(n, k, env);
      Adopts(n.mem, k, env, r.outcome, r.node.mem)
  {
    hide ValidLedger, EnvOk, SweepPhase, Sweeps, Noted, ValidKey, AdoptSwept, DemandOk, Knows;
    SweepLeavesLive(n, env);
    NotedParts(Reply(n, Failed(StoreFailure)), AdoptLease, k.profile, env);
    if SweepPhase(n, env).Some? {
      var s := SweepPhase(n, env).value;
      NotedParts(AdoptSwept(s, k, env), AdoptLease, k.profile, env);
      SweepLeavesNothingDue(n, env);
      AdoptSweptAnswers(s, k, env);
      if !AdoptSwept(s, k, env).outcome.Failed? { AdoptSweptLeaves(s, k, env); }
    }
  }

  lemma AdoptSweptAnswers(n: Node, k: Key, env: Env)
    ensures
      var r, l := AdoptSwept(n, k, env), n.mem.ledger;
      && (!r.outcome.Failed? <==>
            Knows(l.policy, k.profile) && (env.saved || (ActiveAt(l, k) && !AwaitsAccounting(l, k))))
      && (r.outcome == Failed(UnknownProfile) <==> !Knows(l.policy, k.profile))
      && (r.outcome.Failed? ==> r.outcome.error in {UnknownProfile, StoreFailure})
  {
    hide Knows, Apply, AwaitsAccounting;
  }

  lemma AdoptSweptLeaves(n: Node, k: Key, env: Env)
    requires !AdoptSwept(n, k, env).outcome.Failed?
    ensures
      var r, l := AdoptSwept(n, k, env), n.mem.ledger;
      && Adopted(l, k, r.node.mem.ledger) && r.outcome == Leased(r.node.mem.ledger.leases[k])
      && r.node.mem.deadlines == if ActiveAt(l, k) then n.mem.deadlines else n.mem.deadlines - {k}
  {
    hide Knows, Apply, AwaitsAccounting, Adopted, LeaseIdText;
    AdoptingEdits(n.mem.ledger, k);
  }

  lemma AdoptingEdits(l: Ledger, k: Key)
    ensures ActiveAt(l, k) && !AwaitsAccounting(l, k) ==> Adopted(l, k, l)
    ensures ActiveAt(l, k) ==> Adopted(l, k, Apply(l, Account(k))) && Apply(l, Account(k)).leases == l.leases
    ensures k in l.leases && !ActiveAt(l, k) ==> Adopted(l, k, Apply(l, Promote(k, true)))
    ensures
      k !in l.leases && Knows(l.policy, k.profile) ==>
        Adopted(l, k, Apply(l, Grant(k, Lookup(l.policy.profiles, k.profile).value.unitCost, Active, 0)))
  {
    hide Compact, Swept, Accounted, LeaseIdText, Knows;
    AccountedIsCleared(l.fences, k);
    AccountedKeys(l.fences, k);
    assert k in l.leases ==> l.leases == l.leases[k := l.leases[k]];
  }

  lemma AccountedKeys(fences: map<string, AdoptionFence>, k: Key)
    ensures Accounted(fences, k).Keys == fences.Keys
  {}

  // ---------------------------------------------------------------------
  // Release and Reconcile

  /**
   Removal of k: a live lease leaves under a tombstone of its own; without one the
   answer is success exactly if k has a tombstone.
   */
  ghost predicate Entombs(
    m: Memory, k: Key, reason: TombstoneReason, evidence: string, env: Env, outcome: Outcome, m': Memory)
  {
    var l, l' := m.ledger, m'.ledger;
    && (outcome == Failed(InvalidIdentity) <==> !ValidKey(k))
    && (ValidKey(k) && !Sweeps(m, env) ==> outcome == Failed(StoreFailure))
    && (ValidKey(k) && Sweeps(m, env) ==>
          if Live(m, k, env.now) then
            && outcome == (if env.saved then Done else Failed(StoreFailure))
            && (env.saved ==>
                  && l'.leases == InForce(m, env.now) - {k} && !AwaitsAccounting(l', k)
                  && k in l'.tombstones
                  && l'.tombstones[k] == Tombstone(k.profile, k.slot, l.leases[k].leaseId, reason, evidence, l'.sequence))
          else
            && outcome == (if k in l'.tombstones then Done else Failed(LeaseNotFound))
            && l'.leases == InForce(m, env.now))
  }

  /** The newest tombstone survives compaction. */
  lemma NewestIsKept(ts: TombstoneMap, k: Key)
    requires k in ts && forall j :: j in ts ==> ts[j].sequence <= ts[k].sequence
    ensures k in Compact(ts) && Compact(ts)[k] == ts[k]
  {
    assert Newer(ts, k) == {};
  }

  lemma EntombSweptAnswers(n: Node, k: Key, reason: TombstoneReason, evidence: string, env: Env)
    requires ValidLedger(n.mem.ledger)
    ensures
      var r, l := EntombSwept(n, k, reason, evidence, env), n.mem.ledger;
      var l' := r.node.mem.ledger;
      && (r.outcome.Failed? ==> r.outcome.error in {LeaseNotFound, StoreFailure})
      && if k in l.leases then
           && r.outcome == (if env.saved then Done else Failed(StoreFailure))
           && (env.saved ==>
                 && l'.leases == l.leases - {k} && !AwaitsAccounting(l', k)
                 && k in l'.tombstones
                 && l'.tombstones[k] == Tombstone(k.profile, k.slot, l.leases[k].leaseId, reason, evidence, l'.sequence))
         else
           && r.outcome == (if k in l'.tombstones then Done else Failed(LeaseNotFound))
           && l'.leases == l.leases
  {
    hide Compact, LeasesOk, FencesOk, PolicyOk, DecisionOk;
    var l := n.mem.ledger;
    AccountedIsCleared(l.fences, k);
    if k in l.leases {
      NewestIsKept(l.tombstones[k := Tombstone(k.profile, k.slot, l.leases[k].leaseId, reason, evidence, l.sequence + 1)], k);
    }
  }

  lemma SweepIsValid(n: Node, env: Env)
    requires NodeOk(n) && EnvOk(n, env) && SweepPhase(n, env).Some?
    ensures ValidLedger(SweepPhase(n, env).value.mem.ledger)
  {
    hide SweepPhase, ValidLedger, EnvOk, DemandOk, Grows;
    SweepOk(CmdStatus, true, n, env);
  }

  lemma RemovalAnswers(n: Node, k: Key, command: LeaseCommand, reason: TombstoneReason, evidence: string, env: Env)
    requires NodeOk(n) && EnvOk(n, env) && ValidKey(k)
    ensures
      var swept := SweepPhase(n, env);
      var r := Noted(if swept.None? then Reply(n, Failed(StoreFailure)) else EntombSwept(swept.value, k, reason, evidence, env),
                     command, k.profile, env);
      Entombs(n.mem, k, reason, evidence, env, r.outcome, r.node.mem)
  {
    hide ValidLedger, EnvOk, SweepPhase, Sweeps, Noted, ValidKey, EntombSwept, DemandOk;
    SweepLeavesLive(n, env);
    NotedParts(Reply(n, Failed(StoreFailure)), command, k.profile, env);
    if SweepPhase(n, env).Some? {
      var s := SweepPhase(n, env).value;
      NotedParts(EntombSwept(s, k, reason, evidence, env), command, k.profile, env);
      SweepIsValid(n, env);
      EntombSweptAnswers(s, k, reason, evidence, env);
    }
  }

  lemma ReleaseAnswers(n: Node, k: Key, env: Env)
    requires NodeOk(n) && EnvOk(n, env)
    ensures
      var r := Release(n, k, env);
      Entombs(n.mem, k, Released, "", env, r.outcome, r.node.mem)
  {
    hide NodeOk, EnvOk, SweepPhase, Sweeps, Noted, ValidKey, EntombSwept;
    if ValidKey(k) { RemovalAnswers(n, k, ReleaseLease, Released, "", env); }
  }

  lemma ReconcileAnswers(n: Node, k: Key, evidence: Option<string>, env: Env)
    requires NodeOk(n) && EnvOk(n, env)
    ensures
      var r := Reconcile(n, k, evidence, env);
      if evidence.Some? then Entombs(n.mem, k, ReconciledAbsent, evidence.value, env, r.outcome, r.node.mem)
      else r == Reply(n, Failed(if ValidKey(k) then EvidenceRejected else InvalidIdentity))
  {
    hide NodeOk, EnvOk, SweepPhase, Sweeps, Noted, ValidKey, EntombSwept;
    if ValidKey(k) && evidence.Some? {
      RemovalAnswers(n, k, ReconcileLease, ReconciledAbsent, evidence.value, env);
    }
  }

  // ---------------------------------------------------------------------
  // Acquire

  /** Demand that has not gone stale, of profiles none of whose leases has just expired. */
  ghost function Wanted(m: Memory, now: int): map<string, int> {
    map p | p in m.demand && !(p in m.demandDeadlines && now >= m.demandDeadlines[p])
            && !(exists k :: k in m.ledger.leases && !Live(m, k, now) && m.ledger.leases[k].profileId == p) ::
      m.demand[p]
  }

  /** What the admission decision for a request looks at. */
  ghost function AskedMemory(m: Memory, p: string, pending: int, now: int): Memory {
    m.(ledger := m.ledger.(leases := InForce(m, now)), demand := Wanted(m, now)[p := Max(pending, 1)])
  }

  /** Acquisition of k: a new provisional lease exactly if nothing stands against it and the decision admits it. */
  ghost predicate Acquires(m: Memory, k: Key, pending: int, env: Env, outcome: Outcome, m': Memory) {
    var l, l', free := m.ledger, m'.ledger, ValidKey(k) && Sweeps(m, env) && m.ledger.fences == map[];
    && (outcome.Leased? <==>
          && free && !Live(m, k, env.now) && Knows(l.policy, k.profile) && env.saved
          && VerdictFor(AskedMemory(m, k.profile, pending, env.now), k.profile).Admit?)
    && (outcome.Leased? ==>
          && IssuedNow(l, l', k) && outcome == Leased(l'.leases[k])
          && l'.leases[k].status.Provisional? && l'.leases[k].expiresAt == env.now + m.ttl
          && l'.leases == InForce(m, env.now)[k := l'.leases[k]]
          && k in m'.deadlines && m'.deadlines[k] == env.now + m.ttl)
    && (outcome.Duplicate? <==> free && Live(m, k, env.now))
    && (outcome.Duplicate? ==> outcome.lease == l.leases[k])
    && (outcome == Failed(InvalidIdentity) <==> !ValidKey(k))
    && (ValidKey(k) && !Sweeps(m, env) ==> outcome == Failed(StoreFailure))
    && (outcome == Failed(AdoptionPending) <==> ValidKey(k) && Sweeps(m, env) && l.fences != map[])
    && (outcome == Failed(UnknownProfile) <==> free && !Live(m, k, env.now) && !Knows(l.policy, k.profile))
    && (free && !Live(m, k, env.now) && Knows(l.policy, k.profile) ==>
          match VerdictFor(AskedMemory(m, k.profile, pending, env.now), k.profile)
          case Refuse(error) => outcome == Failed(error)
          case Admit(_) => outcome.Leased? || outcome == Failed(StoreFailure))
    && (ValidKey(k) && Sweeps(m, env) && !outcome.Leased? ==> l'.leases == InForce(m, env.now))
  }

  /** Sweeping and forgetting stale demand leave the demand still wanted. */
  lemma SweptDemand(n: Node, env: Env)
    requires EnvOk(n, env) && SweepPhase(n, env).Some?
    ensures ForgetStale(SweepPhase(n, env).value, env.now).mem.demand == Wanted(n.mem, env.now)
  {
    hide Live, Compact, Swept, Apply;
    var m, now := n.mem, env.now;
    DueIsExpired(m, now);
    var d := ForgetStale(SweepPhase(n, env).value, now).mem.demand;
    forall p ensures p in d <==> p in Wanted(m, now) { WantedEntry(m, now, p); }
  }

  lemma WantedEntry(m: Memory, now: int, p: string)
    ensures
      p in Wanted(m, now) <==>
        p in m.demand && p !in ProfilesOf(m.ledger.leases, Due(m, now)) && !(p in m.demandDeadlines && now >= m.demandDeadlines[p])
  {
    hide Live;
    DueIsExpired(m, now);
  }

  lemma AcquireAnswers(n: Node, k: Key, pending: int, env: Env)
    requires NodeOk(n) && EnvOk(n, env)
    ensures
      var r := Acquire(n, k, pending, env);
      Acquires(n.mem, k, pending, env, r.outcome, r.node.mem)
  {
    hide ValidLedger, EnvOk, SweepPhase, Sweeps, Noted, ValidKey, AcquireSwept, DemandOk, Knows, VerdictFor, Wanted;
    SweepLeavesLive(n, env);
    NotedParts(Reply(n, Failed(StoreFailure)), AcquireLease, k.profile, env);
    if SweepPhase(n, env).Some? {
      var s := ForgetStale(SweepPhase(n, env).value, env.now);
      NotedParts(AcquireSwept(s, k, pending, env), AcquireLease, k.profile, env);
      SweptDemand(n, env);
      AcquireSweptAnswers(s, k, pending, env);
      if Knows(n.mem.ledger.policy, k.profile) {
        SameVerdict(s.mem, AskedMemory(n.mem, k.profile, pending, env.now), k.profile, pending);
      }
    }
  }

  lemma SameVerdict(a: Memory, b: Memory, p: string, pending: int)
    requires a.ledger.policy == b.ledger.policy && a.ledger.leases == b.ledger.leases && a.rotation == b.rotation
    requires a.demand[p := Max(pending, 1)] == b.demand && Knows(a.ledger.policy, p)
    ensures VerdictFor(a.(demand := a.demand[p := Max(pending, 1)]), p) == VerdictFor(b, p)
    ensures
      VerdictFor(b, p).Refuse? ==>
        VerdictFor(b, p).error in {BudgetExhausted, ProtectedReservation, FairShareContention}
  {
    hide Contenders, FairUnits, HeldMap, Protected, Lookup;
  }

  lemma AcquireSweptAnswers(n: Node, k: Key, pending: int, env: Env)
    ensures
      var r, l := AcquireSwept(n, k, pending, env), n.mem.ledger;
      var l' := r.node.mem.ledger;
      && (l.fences != map[] ==> r.outcome == Failed(AdoptionPending))
      && (l.fences == map[] && k in l.leases ==> r.outcome == Duplicate(l.leases[k]))
      && (l.fences == map[] && k !in l.leases && !Knows(l.policy, k.profile) ==> r.outcome == Failed(UnknownProfile))
      && (l.fences == map[] && k !in l.leases && Knows(l.policy, k.profile) ==>
            match VerdictFor(n.mem.(demand := n.mem.demand[k.profile := Max(pending, 1)]), k.profile)
            case Refuse(error) => r.outcome == Failed(error)
            case Admit(_) => if env.saved then r.outcome.Leased? else r.outcome == Failed(StoreFailure))
      && (!r.outcome.Leased? ==> l'.leases == l.leases)
      && (r.outcome.Leased? ==>
            && r.outcome == Leased(GrantedLease(k, Lookup(l.policy.profiles, k.profile).value.unitCost, Provisional,
                                                env.now + n.mem.ttl, l.sequence + 1))
            && l'.sequence == l.sequence + 1 && l'.leases == l.leases[k := r.outcome.lease]
            && r.node.mem.deadlines == n.mem.deadlines[k := env.now + n.mem.ttl])
  {
    hide Knows, VerdictFor, GrantedLease, Compact, Swept, Lookup;
    if Knows(n.mem.ledger.policy, k.profile) {
      SameVerdict(n.mem, WithDemand(n.mem, k.profile, Max(pending, 1), env.now + DEMAND_TTL), k.profile, pending);
    }
  }

  // ---------------------------------------------------------------------
  // Policy, fences and the decision record

  /** A publication takes effect exactly if it is valid, newer and saved, and then drops only departed fences and the demand. */
  ghost predicate Publishes(m: Memory, h: HostPolicy, env: Env, outcome: Outcome, m': Memory) {
    var l, l' := m.ledger, m'.ledger;
    && (outcome == Done <==> ValidPolicy(h) && h.generation > l.policy.generation && env.saved)
    && (outcome == Failed(InvalidPolicy) <==> !ValidPolicy(h))
    && (outcome == Failed(StalePolicy) <==> ValidPolicy(h) && h.generation <= l.policy.generation)
    && (outcome == Done ==>
          && l'.(policy := l.policy, fences := l.fences, epoch := l.epoch) == l
          && l'.policy == h && l'.epoch > l.epoch
          && (forall p :: p in l'.fences <==> p in l.fences && Knows(h, p))
          && (forall p :: p in l'.fences ==> l'.fences[p] == l.fences[p])
          && m'.demand == map[] && m'.known == {} && m'.deadlines == m.deadlines && m'.rotation == m.rotation)
    && (outcome != Done ==> outcome.Failed? && m' == m)
  }

  lemma PublishAnswers(n: Node, h: HostPolicy, env: Env)
    ensures Publishes(n.mem, h, env, SetPolicy(n, h, env).outcome, SetPolicy(n, h, env).node.mem)
  {
    hide ValidPolicy, Knows;
  }

  /** The fence of p is up afterwards exactly if p is known and either fenced already or saved; nothing else changes. */
  ghost predicate Begins(m: Memory, p: string, env: Env, outcome: Outcome, m': Memory) {
    var l, l', known := m.ledger, m'.ledger, ValidProfileId(p) && Knows(m.ledger.policy, p);
    && (outcome == Done <==> known && (p in l.fences || env.saved))
    && (outcome == Failed(UnknownProfile) <==> ValidProfileId(p) && !known)
    && (outcome == Failed(InvalidIdentity) <==> !ValidProfileId(p))
    && (outcome != Done || p in l.fences ==> (outcome == Done || outcome.Failed?) && m' == m)
    && (outcome == Done && p !in l.fences ==>
          && p in l'.fences && l'.fences == l.fences[p := l'.fences[p]] && StrictlySorted(l'.fences[p].pending)
          && (forall s {:trigger Key(p, s)} :: s in l'.fences[p].pending <==> ActiveAt(l, Key(p, s)))
          && m'.(ledger := l) == m && l'.(fences := l.fences, epoch := l.epoch) == l && l'.epoch > l.epoch)
  }

  lemma BeginAnswers(n: Node, p: string, env: Env)
    requires NodeOk(n)
    ensures Begins(n.mem, p, env, BeginAdoption(n, p, env).outcome, BeginAdoption(n, p, env).node.mem)
  {
    hide Knows, LeasesOk, TombstonesOk, FencesOk, PolicyOk, DecisionOk, DemandOk, ActiveSlots, SortedView;
    var view := SortedView(ActiveSlots(n.mem.ledger.leases, p));
    forall s {:trigger Key(p, s)} ensures s in view <==> ActiveAt(n.mem.ledger, Key(p, s)) {
      ActiveSlotsAreKeys(n.mem.ledger, Key(p, s));
    }
  }

  /** A fence is cleared exactly if nothing is pending behind it and that is saved; without a fence there is nothing to do. */
  ghost predicate Completes(m: Memory, p: string, env: Env, outcome: Outcome, m': Memory) {
    var l, l' := m.ledger, m'.ledger;
    && (outcome == Done <==> ValidProfileId(p) && (p !in l.fences || (l.fences[p].pending == [] && env.saved)))
    && (outcome == Failed(AdoptionPending) <==> ValidProfileId(p) && p in l.fences && l.fences[p].pending != [])
    && (outcome == Failed(InvalidIdentity) <==> !ValidProfileId(p))
    && (outcome != Done ==> outcome.Failed?)
    && if outcome == Done && p in l.fences
       then m'.(ledger := l) == m && l'.(fences := l.fences, epoch := l.epoch) == l && l'.fences == l.fences - {p} && l'.epoch > l.epoch
       else m' == m
  }

  lemma CompleteAnswers(n: Node, p: string, env: Env)
    ensures Completes(n.mem, p, env, CompleteAdoption(n, p, env).outcome, CompleteAdoption(n, p, env).node.mem)
  {}

  /** The lease command whose decision is recorded, with its profile. */
  function RecordedAs(c: Command): Option<(LeaseCommand, string)> {
    match c
    case CmdAcquire(k, _) => if ValidKey(k) then Some((AcquireLease, k.profile)) else None
    case CmdAdopt(k) => if ValidKey(k) then Some((AdoptLease, k.profile)) else None
    case CmdRenew(k) => if ValidKey(k) then Some((RenewLease, k.profile)) else None
    case CmdActivate(k) => if ValidKey(k) then Some((ActivateLease, k.profile)) else None
    case CmdRelease(k) => if ValidKey(k) then Some((ReleaseLease, k.profile)) else None
    case CmdReconcile(k, evidence) => if ValidKey(k) && evidence.Some? then Some((ReconcileLease, k.profile)) else None
    case _ => None
  }

  /** Whatever the answer, the record names the command, its profile, the instant and the answer; others leave it alone. */
  ghost predicate Records(l: Ledger, c: Command, env: Env, outcome: Outcome, l': Ledger) {
    var made := RecordedAs(c);
    if made.None? || !env.noteSaved then l'.lastDecision == l.lastDecision
    else
      && l'.lastDecision.Some?
      && var d := l'.lastDecision.value;
         && d.command == made.value.0 && d.profileId == made.value.1 && d.decidedAt == env.now && d.sequence == l'.sequence
         && (d.granted <==> !outcome.Failed?)
         && if outcome.Failed? then d.failure == Some(outcome.error) else d.failure == None
  }

  lemma NotedRecords(r: Reply, command: LeaseCommand, profile: string, env: Env)
    ensures
      var d, l' := Noted(r, command, profile, env).node.mem.ledger.lastDecision, Noted(r, command, profile, env).node.mem.ledger;
      if env.noteSaved then
        d == Some(Decision(l'.sequence, command, profile, !r.outcome.Failed?,
                           if r.outcome.Failed? then Some(r.outcome.error) else None, env.now))
      else d == r.node.mem.ledger.lastDecision
  {}

  lemma SweepKeepsDecision(n: Node, env: Env)
    ensures SweepPhase(n, env).Some? ==> SweepPhase(n, env).value.mem.ledger.lastDecision == n.mem.ledger.lastDecision
  {}

  /** What a lease command does after its sweep, before the record is made. */
  ghost function SweptReply(s: Node, c: Command, expired: bool, env: Env): Reply
    requires RecordedAs(c).Some?
  {
    match c
    case CmdAcquire(k, pending) => AcquireSwept(ForgetStale(s, env.now), k, pending, env)
    case CmdAdopt(k) => AdoptSwept(s, k, env)
    case CmdRenew(k) => if expired then Reply(s, Failed(LeaseExpired)) else RenewSwept(s, k, env)
    case CmdActivate(k) => if expired then Reply(s, Failed(LeaseExpired)) else ActivateSwept(s, k, env)
    case CmdRelease(k) => EntombSwept(s, k, Released, "", env)
    case CmdReconcile(k, evidence) => EntombSwept(s, k, ReconciledAbsent, evidence.value, env)
  }

  lemma SweptKeepsDecision(s: Node, c: Command, expired: bool, env: Env)
    requires RecordedAs(c).Some?
    ensures SweptReply(s, c, expired, env).node.mem.ledger.lastDecision == s.mem.ledger.lastDecision
  {
    hide VerdictFor, Knows, Compact, Swept, Accounted, ValidKey;
  }

  lemma LeaseCommandIsNoted(n: Node, c: Command, env: Env)
    requires PolicyOk(n.mem.ledger.policy) && RecordedAs(c).Some?
    ensures
      var swept, made := SweepPhase(n, env), RecordedAs(c).value;
      Run(n, c, env) ==
        Noted(if swept.None? then Reply(n, Failed(StoreFailure)) else SweptReply(swept.value, c, c.key in Due(n.mem, env.now), env),
              made.0, made.1, env)
  {
    hide SweepPhase, AcquireSwept, AdoptSwept, RenewSwept, ActivateSwept, EntombSwept, Noted, ValidKey, PolicyOk, Due;
  }

  lemma DecisionIsRecorded(n: Node, c: Command, env: Env)
    requires PolicyOk(n.mem.ledger.policy)
    ensures Records(n.mem.ledger, c, env, Run(n, c, env).outcome, Run(n, c, env).node.mem.ledger)
  {
    hide PolicyOk, SweepPhase, Noted, SweptReply, ValidKey;
    if RecordedAs(c).None? {
      UnrecordedKeepsDecision(n, c, env);
    } else {
      hide Run;
      var swept, made := SweepPhase(n, env), RecordedAs(c).value;
      var r := if swept.None? then Reply(n, Failed(StoreFailure)) else SweptReply(swept.value, c, c.key in Due(n.mem, env.now), env);
      LeaseCommandIsNoted(n, c, env);
      NotedRecords(r, made.0, made.1, env);
      NotedParts(r, made.0, made.1, env);
      SweepKeepsDecision(n, env);
      if swept.Some? { SweptKeepsDecision(swept.value, c, c.key in Due(n.mem, env.now), env); }
    }
  }

  lemma UnrecordedKeepsDecision(n: Node, c: Command, env: Env)
    requires PolicyOk(n.mem.ledger.policy) && RecordedAs(c).None?
    ensures Run(n, c, env).node.mem.ledger.lastDecision == n.mem.ledger.lastDecision
  {
    hide PolicyOk, SweepPhase, Noted, Knows, ValidPolicy, SnapshotOf, AcquireSwept, AdoptSwept, RenewSwept, ActivateSwept, EntombSwept;
    SweepKeepsDecision(n, env);
  }

  // ---------------------------------------------------------------------
  // Activation over whole runs

  /** Every Activate of a run: its answer, and the lease it leaves. */
  lemma ActivationIsExact(t: Trace, j: nat, k: Key)
    requires ValidTrace(t) && j < |t.events| && t.events[j].Do? && t.events[j].command == CmdActivate(k)
    ensures t.hosts[j].memory.Some? && t.hosts[j + 1].memory.Some?
    ensures
      Activates(t.hosts[j].memory.value, k, t.events[j].env, ReplyAt(t, j).outcome, t.hosts[j + 1].memory.value)
  {
    hide Activates, NodeOk, EnvOk, Activate, PolicyOk;
    assert StepAt(t, j);
    EveryHostOk(t, j);
    ActivateAnswers(NodeOf(t.hosts[j]), k, t.events[j].env);
  }

  /**
   With saves that succeed, Activate promotes a provisional lease before the deadline
   of its latest acquire or renewal, and drops it with LeaseExpired from then on.
   */
  lemma ActivatedExactlyBeforeDeadline(t: Trace, i: nat, j: nat, k: Key)
    requires ValidTrace(t) && j < |t.events| && t.events[j].Do? && t.events[j].command == CmdActivate(k)
    requires k in LedgerOf(t.hosts[j]).leases && !ActiveAt(LedgerOf(t.hosts[j]), k) && LatestTouch(t, i, j, k)
    requires t.events[j].env.sweepSaved && t.events[j].env.saved
    ensures
      var l, l' := LedgerOf(t.hosts[j]), LedgerOf(t.hosts[j + 1]);
      if t.events[j].env.now < DeadlineGiven(t, i)
      then ActiveAt(l', k) && SameWorker(l.leases[k], l'.leases[k]) && ReplyAt(t, j).outcome == Leased(l'.leases[k])
      else ReplyAt(t, j).outcome == Failed(LeaseExpired)
  {
    hide StepAt, HostOk, ReplyAt, TombstonesOk, FencesOk, PolicyOk;
    ActivationIsExact(t, j, k);
    LedgerValidAt(t, j);
    assert LeaseOk(LedgerOf(t.hosts[j]), k);
    ProvisionalHasDeadline(t.hosts[j], k);
    DeadlineOrigin(t, j, k);
    var i' :| LatestTouch(t, i', j, k) && t.hosts[j].memory.value.deadlines[k] == DeadlineGiven(t, i');
    assert i' == i;
  }

  lemma ProvisionalHasDeadline(h: Host, k: Key)
    requires HostOk(h) && h.memory.Some? && k in LedgerOf(h).leases && LedgerOf(h).leases[k].status.Provisional?
    ensures k in h.memory.value.deadlines
  {
    hide ValidLedger, DemandOk;
    assert k in ProvisionalKeys(LedgerOf(h).leases);
  }

  /** Once Activate has answered, the worker stays active, whatever happens, until its own removal. */
  lemma ActivatedWorkerStays(t: Trace, i: nat, j: nat, k: Key)
    requires ValidTrace(t) && i < j <= |t.events| && t.events[i].Do? && t.events[i].command == CmdActivate(k)
    requires !ReplyAt(t, i).outcome.Failed?
    requires forall m :: i < m < j ==> !Removes(t, m, k)
    ensures k in LedgerOf(t.hosts[i]).leases && ActiveAt(LedgerOf(t.hosts[j]), k)
    ensures
      var a, b := LedgerOf(t.hosts[i]).leases[k], LedgerOf(t.hosts[j]).leases[k];
      a.leaseId == b.leaseId && a.units == b.units && (a.registrationName != "" ==> b.registrationName == a.registrationName)
  {
    hide StepAt, ReplyAt, Removes;
    ActivationIsExact(t, i, k);
    ActiveLeaseEndures(t, i + 1, j, k);
  }

  // ---------------------------------------------------------------------
  // Lease durations over whole runs

  /** Event o started the process that is still running at moment j. */
  ghost predicate StartedBy(t: Trace, o: nat, j: nat)
    requires ValidTrace(t) && j <= |t.events|
  {
    && o < j && t.events[o].Open? && t.hosts[o + 1].memory.Some?
    && forall m :: o < m < j ==> t.events[m].Do?
  }

  /** A new process starts with the ledger in force, no demand, nothing provisional, and a cursor seeded by the sequence. */
  lemma StartIsBlank(t: Trace, o: nat)
    requires ValidTrace(t) && o < |t.events| && t.events[o].Open? && t.hosts[o + 1].memory.Some?
    ensures
      var m := t.hosts[o + 1].memory.value;
      && m.demand == map[] && m.known == {} && m.demandDeadlines == map[] && m.deadlines == map[]
      && m.rotation == m.ledger.sequence % 1_000_000_007
      && (forall k :: k in m.ledger.leases ==> m.ledger.leases[k].status.Active?)
  {
    hide EnvOk, PolicyOk, Apply, Accepts, Enumerates, Run, ValidLedger;
    assert StepAt(t, o);
    EveryHostOk(t, o + 1);
    var m := t.hosts[o + 1].memory.value;
    assert ProvisionalKeys(m.ledger.leases) == {};
    assert forall k :: k in m.ledger.leases ==> k !in ProvisionalKeys(m.ledger.leases);
  }

  lemma {:induction false} DurationIsConfigured(t: Trace, o: nat, j: nat)
    requires ValidTrace(t) && j <= |t.events| && StartedBy(t, o, j)
    ensures
      && t.hosts[j].memory.Some?
      && t.hosts[j].memory.value.ttl == if t.events[o].ttl <= 0 then 30_000_000_000 else t.events[o].ttl
    decreases j
  {
    hide Run, EnvOk, PolicyOk, Apply, Accepts, Enumerates;
    assert StepAt(t, j - 1);
    if j > o + 1 {
      DurationIsConfigured(t, o, j - 1);
      StepDeadline(NodeOf(t.hosts[j - 1]), t.events[j - 1].command, t.events[j - 1].env, Key("", ""));
    }
  }

  /** A granted lease runs for the duration its process was started with, thirty seconds by default. */
  lemma GrantRunsForConfiguredTime(t: Trace, o: nat, j: nat)
    requires ValidTrace(t) && j < |t.events| && StartedBy(t, o, j)
    requires t.events[j].Do? && t.events[j].command.CmdAcquire? && ReplyAt(t, j).outcome.Leased?
    ensures
      var k, lease := t.events[j].command.key, ReplyAt(t, j).outcome.lease;
      && lease.status.Provisional?
      && lease.expiresAt == t.events[j].env.now + (if t.events[o].ttl <= 0 then 30_000_000_000 else t.events[o].ttl)
      && k in LedgerOf(t.hosts[j + 1]).leases && LedgerOf(t.hosts[j + 1]).leases[k] == lease
  {
    hide NodeOk, EnvOk, PolicyOk, Acquire, VerdictFor, Knows, Sweeps, ValidKey, IssuedNow, StartedBy;
    DurationIsConfigured(t, o, j);
    assert StepAt(t, j);
    EveryHostOk(t, j);
    AcquireAnswers(NodeOf(t.hosts[j]), t.events[j].command.key, t.events[j].command.pending, t.events[j].env);
  }
}
