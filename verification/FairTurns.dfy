/**
 Turns in the shared pool over runs: with a fixed set of n contenders, one whose
 unit cost is 1 and who could be served is passed over by at most n - 1
 successive shared-pool grants.
 */
module FairTurns {
  import opened Identity
  import opened Ordering
  import opened Division
  import opened FairShare
  import opened Policy
  import opened Sums
  import opened Leases
  import opened Admission
  import opened Ledgers
  import opened Commands
  import opened Invariants
  import opened Runs

  /** The memory in which an acquire decides: swept, stale demand forgotten, own demand recorded. */
  ghost function DecidingMemory(n: Node, p: string, pending: int, env: Env): Memory
    requires SweepPhase(n, env).Some?
  {
    WithDemand(ForgetStale(SweepPhase(n, env).value, env.now).mem, p, Max(pending, 1), env.now + DEMAND_TTL)
  }

  /** Contenders of the shared pool when the command is a grant from that pool, else 0. */
  ghost function PoolSize(n: Node, c: Command, env: Env): nat
    requires PolicyOk(n.mem.ledger.policy)
  {
    if c.CmdAcquire? && Run(n, c, env).outcome.Leased? && SweepPhase(n, env).Some? then
      var m := DecidingMemory(n, c.key.profile, c.pending, env);
      if Knows(m.ledger.policy, c.key.profile) && VerdictFor(m, c.key.profile).Admit?
      then VerdictFor(m, c.key.profile).contenders else 0
    else 0
  }

  // ---------------------------------------------------------------------
  // The cursor moves only on grants from the shared pool

  lemma SweepKeepsRotation(n: Node, env: Env)
    requires SweepPhase(n, env).Some?
    ensures SweepPhase(n, env).value.mem.rotation == n.mem.rotation
  {
    hide Apply;
  }

  lemma NotedKeepsRotation(r: Reply, command: LeaseCommand, profile: string, env: Env)
    ensures Noted(r, command, profile, env).node.mem.rotation == r.node.mem.rotation
    ensures Noted(r, command, profile, env).outcome == r.outcome
  {
    hide Apply;
  }

  lemma AcquireTurns(n: Node, k: Key, pending: int, env: Env)
    requires PolicyOk(n.mem.ledger.policy)
    ensures
      var pool := PoolSize(n, CmdAcquire(k, pending), env);
      Acquire(n, k, pending, env).node.mem.rotation ==
        if pool > 0 then (n.mem.rotation + 1) % pool else n.mem.rotation
  {
    hide PolicyOk, SweepPhase, Apply, Noted, VerdictFor, ValidKey;
    var swept := SweepPhase(n, env);
    if swept.None? {
      NotedKeepsRotation(Reply(n, Failed(StoreFailure)), AcquireLease, k.profile, env);
    } else {
      SweepKeepsRotation(n, env);
      NotedKeepsRotation(AcquireSwept(ForgetStale(swept.value, env.now), k, pending, env), AcquireLease, k.profile, env);
    }
  }

  lemma LeaseCommandKeepsRotation(n: Node, c: Command, env: Env)
    requires PolicyOk(n.mem.ledger.policy) && !c.CmdAcquire? && SweepsFirst(c)
    ensures Run(n, c, env).node.mem.rotation == n.mem.rotation
  {
    hide PolicyOk, SweepPhase, Apply, SnapshotOf, ValidKey, Due, Noted;
    if SweepPhase(n, env).None? {
      var r := Reply(n, Failed(StoreFailure));
      NotedKeepsRotation(r, AdoptLease, if c.CmdAdopt? then c.key.profile else "", env);
      NotedKeepsRotation(r, RenewLease, if c.CmdRenew? then c.key.profile else "", env);
      NotedKeepsRotation(r, ActivateLease, if c.CmdActivate? then c.key.profile else "", env);
      NotedKeepsRotation(r, ReleaseLease, if c.CmdRelease? then c.key.profile else "", env);
      NotedKeepsRotation(r, ReconcileLease, if c.CmdReconcile? then c.key.profile else "", env);
    } else {
      SweepKeepsRotation(n, env);
      var s := SweepPhase(n, env).value;
      match c
      case CmdAdopt(k) => NotedKeepsRotation(AdoptSwept(s, k, env), AdoptLease, k.profile, env);
      case CmdRenew(k) =>
        NotedKeepsRotation(if k in Due(n.mem, env.now) then Reply(s, Failed(LeaseExpired)) else RenewSwept(s, k, env),
                           RenewLease, k.profile, env);
      case CmdActivate(k) =>
        NotedKeepsRotation(if k in Due(n.mem, env.now) then Reply(s, Failed(LeaseExpired)) else ActivateSwept(s, k, env),
                           ActivateLease, k.profile, env);
      case CmdRelease(k) => NotedKeepsRotation(EntombSwept(s, k, Released, "", env), ReleaseLease, k.profile, env);
      case CmdReconcile(k, evidence) =>
        NotedKeepsRotation(EntombSwept(s, k, ReconciledAbsent, evidence.value, env), ReconcileLease, k.profile, env);
      case CmdBindRegistration(_, _) =>
      case CmdStatus =>
    }
  }

  lemma IdleCommandKeepsRotation(n: Node, c: Command, env: Env)
    requires PolicyOk(n.mem.ledger.policy) && !c.CmdAcquire? && !SweepsFirst(c)
    ensures Run(n, c, env).node.mem.rotation == n.mem.rotation
  {
    hide PolicyOk, Apply, SweepPhase;
  }

  lemma RotationStep(n: Node, c: Command, env: Env)
    requires PolicyOk(n.mem.ledger.policy)
    ensures
      Run(n, c, env).node.mem.rotation ==
        if PoolSize(n, c, env) > 0 then (n.mem.rotation + 1) % PoolSize(n, c, env) else n.mem.rotation
  {
    hide PolicyOk, PoolSize, Run;
    if c.CmdAcquire? {
      RunAcquire(n, c, env);
      AcquireTurns(n, c.key, c.pending, env);
    } else {
      OthersHaveNoPool(n, c, env);
      if SweepsFirst(c) { LeaseCommandKeepsRotation(n, c, env); } else { IdleCommandKeepsRotation(n, c, env); }
    }
  }

  lemma RunAcquire(n: Node, c: Command, env: Env)
    requires PolicyOk(n.mem.ledger.policy) && c.CmdAcquire?
    ensures Run(n, c, env) == Acquire(n, c.key, c.pending, env)
  {
    hide PolicyOk, Acquire;
  }

  lemma OthersHaveNoPool(n: Node, c: Command, env: Env)
    requires PolicyOk(n.mem.ledger.policy) && !c.CmdAcquire?
    ensures PoolSize(n, c, env) == 0
  {
    hide PolicyOk, Run;
  }

  // ---------------------------------------------------------------------
  // Runs without a crash

  ghost function RotationAt(t: Trace, m: nat): nat
    requires m < |t.hosts| && t.hosts[m].memory.Some?
  {
    t.hosts[m].memory.value.rotation
  }

  /** Shared-pool contenders of event m, 0 when it grants nothing from the pool. */
  ghost function PoolAt(t: Trace, m: nat): nat
    requires ValidTrace(t) && m < |t.events|
  {
    assert StepAt(t, m);
    if t.events[m].Do? then PoolSize(NodeOf(t.hosts[m]), t.events[m].command, t.events[m].env) else 0
  }

  ghost function PoolGrants(t: Trace, i: nat, j: nat): nat
    requires ValidTrace(t) && i <= j <= |t.events|
    decreases j
  {
    if i == j then 0 else PoolGrants(t, i, j - 1) + if PoolAt(t, j - 1) > 0 then 1 else 0
  }

  /** The coordinator stays up from i to j and every pool grant has n contenders. */
  ghost predicate SteadyPool(t: Trace, i: nat, j: nat, n: nat)
    requires ValidTrace(t) && i <= j <= |t.events|
  {
    && (forall m :: i <= m <= j ==> t.hosts[m].memory.Some?)
    && (forall m :: i <= m < j && PoolAt(t, m) > 0 ==> PoolAt(t, m) == n)
  }

  lemma CursorStep(t: Trace, m: nat)
    requires ValidTrace(t) && m < |t.events| && t.hosts[m].memory.Some? && t.hosts[m + 1].memory.Some?
    ensures
      RotationAt(t, m + 1) == if PoolAt(t, m) > 0 then Residue(RotationAt(t, m) + 1, PoolAt(t, m)) else RotationAt(t, m)
  {
    hide PoolSize, Run, EnvOk, PolicyOk;
    assert StepAt(t, m);
    if t.events[m].Do? {
      RotationStep(NodeOf(t.hosts[m]), t.events[m].command, t.events[m].env);
    }
  }

  function Residue(a: nat, n: nat): (r: nat)
    requires n > 0
    ensures r < n
  {
    a % n
  }

  lemma InRangeResidue(a: nat, n: nat)
    requires a < n
    ensures Residue(a, n) == a
  {
    SmallModulus(a, n);
  }

  lemma NextResidue(a: nat, n: nat)
    requires n > 0
    ensures Residue(Residue(a, n) + 1, n) == Residue(a + 1, n)
  {
    var q, r := a / n, a % n;
    if r + 1 < n {
      SmallModulus(r + 1, n);
      DivisionUnique(a + 1, n, q, r + 1);
    } else {
      WrappedModulus(0, n);
      MulStep(q, n);
      DivisionUnique(a + 1, n, q + 1, 0);
    }
  }

  /** From a cursor in range, the cursor counts the pool grants modulo n. */
  lemma {:induction false} CursorCounts(t: Trace, i: nat, j: nat, n: nat)
    requires ValidTrace(t) && i <= j <= |t.events| && SteadyPool(t, i, j, n)
    requires RotationAt(t, i) < n
    ensures RotationAt(t, j) == Residue(RotationAt(t, i) + PoolGrants(t, i, j), n)
    decreases j
  {
    hide PoolAt, StepAt, Residue;
    if i < j {
      CursorCounts(t, i, j - 1, n);
      CursorStep(t, j - 1);
      NextResidue(RotationAt(t, i) + PoolGrants(t, i, j - 1), n);
    } else {
      InRangeResidue(RotationAt(t, i), n);
    }
  }

  lemma {:induction false} GrantsAdd(t: Trace, i: nat, m: nat, j: nat)
    requires ValidTrace(t) && i <= m <= j <= |t.events|
    ensures PoolGrants(t, i, j) == PoolGrants(t, i, m) + PoolGrants(t, m, j)
    decreases j
  {
    hide PoolAt, StepAt;
    if m < j { GrantsAdd(t, i, m, j - 1); }
  }

  /** Pool grants come one at a time, so every smaller count is passed. */
  lemma {:induction false} CountIsPassed(t: Trace, i: nat, j: nat, count: nat) returns (m: nat)
    requires ValidTrace(t) && i <= j <= |t.events| && count <= PoolGrants(t, i, j)
    ensures i <= m <= j && PoolGrants(t, i, m) == count
    ensures count > 0 ==> i < m && PoolAt(t, m - 1) > 0
    decreases j
  {
    hide PoolAt, StepAt;
    if i == j || (PoolAt(t, j - 1) > 0 && PoolGrants(t, i, j) == count) {
      m := j;
    } else {
      m := CountIsPassed(t, i, j - 1, count);
    }
  }

  lemma CursorVisitsInRange(t: Trace, i: nat, j: nat, n: nat, index: nat) returns (m: nat)
    requires ValidTrace(t) && i <= j <= |t.events| && SteadyPool(t, i, j, n) && index < n
    requires RotationAt(t, i) < n && PoolGrants(t, i, j) >= n - 1
    ensures i <= m <= j && RotationAt(t, m) == index
  {
    hide PoolAt, StepAt, PoolGrants;
    var start := RotationAt(t, i);
    var count := if index >= start then index - start else index - start + n;
    m := CountIsPassed(t, i, j, count);
    CursorCounts(t, i, m, n);
    if index >= start { SmallModulus(index, n); } else { WrappedModulus(index, n); }
  }

  /** Within n - 1 grants from a cursor in range, or n grants from any cursor, every index gets its turn. */
  lemma CursorVisits(t: Trace, i: nat, j: nat, n: nat, index: nat) returns (m: nat)
    requires ValidTrace(t) && i <= j <= |t.events| && SteadyPool(t, i, j, n) && index < n
    requires PoolGrants(t, i, j) >= n || (PoolGrants(t, i, j) == n - 1 && RotationAt(t, i) < n)
    ensures i <= m <= j && RotationAt(t, m) == index
  {
    hide PoolAt, StepAt, PoolGrants;
    if RotationAt(t, i) < n {
      m := CursorVisitsInRange(t, i, j, n, index);
    } else {
      var first := CountIsPassed(t, i, j, 1);
      CursorStep(t, first - 1);
      GrantsAdd(t, i, first, j);
      m := CursorVisitsInRange(t, first, j, n, index);
    }
  }

  // ---------------------------------------------------------------------
  // What a turn is worth

  lemma {:induction false} IndexOfMember(s: seq<string>, i: nat)
    requires Distinct(s) && i < |s|
    ensures IndexOf(s, s[i]) == i
  {
    if i < |s| - 1 {
      IndexOfMember(s[..|s| - 1], i);
    }
  }

  /** Under the cursor, a profile of unit cost 1 is admitted whenever a unit is free and unprotected. */
  lemma TurnHolderIsAdmitted(m: Memory, p: string)
    requires Knows(m.ledger.policy, p) && Lookup(m.ledger.policy.profiles, p).value.unitCost == 1
    requires p in Contenders(m.ledger.policy, m.demand)
    requires m.rotation == IndexOf(Contenders(m.ledger.policy, m.demand), p)
    requires UnprotectedUnits(m, p) >= 1
    ensures VerdictFor(m, p).Admit?
  {
    hide Contenders, Protected, MapSum, HeldMap, Allocatable, SharedHoldings;
    var h, held := m.ledger.policy, HeldMap(m.ledger.leases);
    var shared := SharedHoldings(Contenders(h, m.demand), h, held);
    CursorHolderTakesTurn(shared, m.rotation, UnprotectedUnits(m, p));
  }

  /** Free units that no other profile's reservation protects. */
  ghost function UnprotectedUnits(m: Memory, p: string): int {
    var held := HeldMap(m.ledger.leases);
    Free(m.ledger.policy, held) - Protected(m.ledger.policy.profiles, p, held)
  }

  /** Profile p could ask in environment env: it has unit cost 1, unprotected units, and these contenders. */
  ghost predicate CouldBeServed(n: Node, p: string, pending: int, env: Env, contenders: seq<string>) {
    && SweepPhase(n, env).Some?
    && var m := DecidingMemory(n, p, pending, env);
       && Contenders(m.ledger.policy, m.demand) == contenders
       && Knows(m.ledger.policy, p) && Lookup(m.ledger.policy.profiles, p).value.unitCost == 1
       && UnprotectedUnits(m, p) >= 1
  }

  lemma DecidingMemoryKeepsRotation(n: Node, p: string, pending: int, env: Env)
    requires SweepPhase(n, env).Some?
    ensures DecidingMemory(n, p, pending, env).rotation == n.mem.rotation
  {
    hide SweepPhase;
    SweepKeepsRotation(n, env);
  }

  /** The requester is always among the contenders it is measured against. */
  lemma RequesterContends(n: Node, p: string, pending: int, env: Env)
    requires SweepPhase(n, env).Some?
    requires Knows(DecidingMemory(n, p, pending, env).ledger.policy, p)
    ensures
      var m := DecidingMemory(n, p, pending, env);
      p in Contenders(m.ledger.policy, m.demand)
  {
    hide SweepPhase;
    var m := DecidingMemory(n, p, pending, env);
    assert p in Elements(Contenders(m.ledger.policy, m.demand));
  }

  /**
   Over a stretch with n fixed contenders and n - 1 shared-pool grants from a
   cursor in range (n from any cursor), a servable contender of unit cost 1
   would have been granted at some moment: it cannot be passed over for longer.
   */
  lemma PassedOverAtMostNMinusOneTimes(
    t: Trace, i: nat, j: nat, contenders: seq<string>, p: string, pending: int, envs: seq<Env>) returns (m: nat)
    requires ValidTrace(t) && i <= j <= |t.events| && SteadyPool(t, i, j, |contenders|) && |envs| == |t.hosts|
    requires forall x :: i <= x <= j ==> CouldBeServed(NodeOf(t.hosts[x]), p, pending, envs[x], contenders)
    requires
      || PoolGrants(t, i, j) >= |contenders|
      || (PoolGrants(t, i, j) == |contenders| - 1 && RotationAt(t, i) < |contenders|)
    ensures i <= m <= j && CouldBeServed(NodeOf(t.hosts[m]), p, pending, envs[m], contenders)
    ensures VerdictFor(DecidingMemory(NodeOf(t.hosts[m]), p, pending, envs[m]), p).Admit?
  {
    hide StepAt, Contenders, SweepPhase, PoolAt, VerdictFor, DecidingMemory, UnprotectedUnits, PoolGrants;
    RequesterContends(NodeOf(t.hosts[i]), p, pending, envs[i]);
    m := CursorVisits(t, i, j, |contenders|, IndexOf(contenders, p));
    var node := NodeOf(t.hosts[m]);
    DecidingMemoryKeepsRotation(node, p, pending, envs[m]);
    TurnHolderIsAdmitted(DecidingMemory(node, p, pending, envs[m]), p);
  }

  /** An admitted request on a fresh slot is granted when no fence stands and the saves succeed. */
  lemma AdmittedIsGranted(n: Node, k: Key, pending: int, env: Env)
    requires EnvOk(n, env) && ValidKey(k) && SweepPhase(n, env).Some? && env.saved
    requires n.mem.ledger.fences == map[] && k !in n.mem.ledger.leases && Knows(n.mem.ledger.policy, k.profile)
    requires
      var m := DecidingMemory(n, k.profile, pending, env);
      Knows(m.ledger.policy, k.profile) && VerdictFor(m, k.profile).Admit?
    ensures Acquire(n, k, pending, env).outcome.Leased?
  {
    hide EnvOk, SweepPhase, Apply, VerdictFor, Noted, ValidKey;
    SweepLeavesNothingDue(n, env);
    NotedKeepsRotation(AcquireSwept(ForgetStale(SweepPhase(n, env).value, env.now), k, pending, env), AcquireLease, k.profile, env);
  }
}
