/**
 Provisional expiry: a deadline always comes from the latest acquire or renewal
 in the same process, promotion happens strictly before it, and an identity
 swept as expired is never served again.
 */
module Expiry {
  import opened Identity
  import opened Ordering
  import opened Policy
  import opened Admission
  import opened Ledgers
  import opened Commands
  import opened Invariants
  import opened Runs
  import opened Lifetimes

  /** The command sets k's deadline: a granted acquire or a successful renewal of k. */
  predicate TouchedBy(c: Command, outcome: Outcome, k: Key) {
    outcome.Leased? && (c == CmdRenew(k) || (c.CmdAcquire? && c.key == k))
  }

  /** A deadline present after a step was there before, or the step itself set it. */
  ghost predicate DeadlineFromStep(n: Node, c: Command, env: Env, r: Reply, k: Key) {
    && r.node.mem.ttl == n.mem.ttl
    && (k in r.node.mem.deadlines ==>
          if TouchedBy(c, r.outcome, k) then r.node.mem.deadlines[k] == env.now + n.mem.ttl
          else k in n.mem.deadlines && r.node.mem.deadlines[k] == n.mem.deadlines[k])
  }

  lemma SweepDeadlines(n: Node, env: Env)
    requires SweepPhase(n, env).Some?
    ensures
      var m := SweepPhase(n, env).value.mem;
      && m.ttl == n.mem.ttl
      && forall k :: k in m.deadlines ==> k in n.mem.deadlines && m.deadlines[k] == n.mem.deadlines[k]
  {}

  lemma AcquireDeadline(n: Node, k0: Key, pending: int, env: Env, k: Key)
    ensures DeadlineFromStep(n, CmdAcquire(k0, pending), env, Acquire(n, k0, pending, env), k)
  {
    hide SweepPhase, ValidKey, Noted, AcquireSwept;
    var swept := SweepPhase(n, env);
    NotedDeadlines(Reply(n, Failed(StoreFailure)), AcquireLease, k0.profile, env);
    if swept.Some? {
      SweepDeadlines(n, env);
      var ready := ForgetStale(swept.value, env.now);
      AcquireCoreDeadline(ready, k0, pending, env, k);
      NotedDeadlines(AcquireSwept(ready, k0, pending, env), AcquireLease, k0.profile, env);
    }
  }

  lemma AcquireCoreDeadline(n: Node, k0: Key, pending: int, env: Env, k: Key)
    ensures DeadlineFromStep(n, CmdAcquire(k0, pending), env, AcquireSwept(n, k0, pending, env), k)
  {
    hide VerdictFor, Apply, Knows;
  }

  lemma RenewDeadline(n: Node, k0: Key, env: Env, k: Key)
    ensures DeadlineFromStep(n, CmdRenew(k0), env, RenewLeaseOf(n, k0, env), k)
  {
    hide SweepPhase, Apply, ValidKey;
    if SweepPhase(n, env).Some? { SweepDeadlines(n, env); }
  }

  /** No deadline is new or moved. */
  ghost predicate FewerDeadlines(m: Memory, m': Memory) {
    m'.ttl == m.ttl && forall k :: k in m'.deadlines ==> k in m.deadlines && m'.deadlines[k] == m.deadlines[k]
  }

  lemma CoreDeadlines(n: Node, k: Key, reason: TombstoneReason, evidence: string, env: Env)
    ensures FewerDeadlines(n.mem, AdoptSwept(n, k, env).node.mem)
    ensures FewerDeadlines(n.mem, ActivateSwept(n, k, env).node.mem)
    ensures FewerDeadlines(n.mem, EntombSwept(n, k, reason, evidence, env).node.mem)
  {
    hide Apply, AwaitsAccounting, Knows;
  }

  lemma NotedDeadlines(r: Reply, command: LeaseCommand, profile: string, env: Env)
    ensures Noted(r, command, profile, env).node.mem.deadlines == r.node.mem.deadlines
    ensures Noted(r, command, profile, env).node.mem.ttl == r.node.mem.ttl
    ensures Noted(r, command, profile, env).outcome == r.outcome
  {
    hide Apply;
  }

  lemma LeaseCommandDeadline(n: Node, c: Command, env: Env, k: Key)
    requires PolicyOk(n.mem.ledger.policy) && (c.CmdAdopt? || c.CmdActivate? || c.CmdRelease? || c.CmdReconcile?)
    ensures DeadlineFromStep(n, c, env, Run(n, c, env), k)
  {
    hide SweepPhase, ValidKey, PolicyOk, Noted, AdoptSwept, ActivateSwept, EntombSwept, Due;
    var k0, swept := c.key, SweepPhase(n, env);
    var evidence := if c.CmdReconcile? && c.evidence.Some? then c.evidence.value else "";
    var reason := if c.CmdReconcile? then ReconciledAbsent else Released;
    var command :=
      if c.CmdAdopt? then AdoptLease else if c.CmdActivate? then ActivateLease
      else if c.CmdRelease? then ReleaseLease else ReconcileLease;
    if swept.Some? {
      SweepDeadlines(n, env);
      CoreDeadlines(swept.value, k0, reason, evidence, env);
      var core :=
        if c.CmdAdopt? then AdoptSwept(swept.value, k0, env)
        else if c.CmdActivate? then ActivateSwept(swept.value, k0, env)
        else EntombSwept(swept.value, k0, reason, evidence, env);
      NotedDeadlines(core, command, k0.profile, env);
      NotedDeadlines(Reply(swept.value, Failed(LeaseExpired)), command, k0.profile, env);
    }
    NotedDeadlines(Reply(n, Failed(StoreFailure)), command, k0.profile, env);
  }

  lemma OtherDeadlines(n: Node, c: Command, env: Env, k: Key)
    requires PolicyOk(n.mem.ledger.policy) && !c.CmdAcquire? && !c.CmdRenew?
    requires !(c.CmdAdopt? || c.CmdActivate? || c.CmdRelease? || c.CmdReconcile?)
    ensures DeadlineFromStep(n, c, env, Run(n, c, env), k)
  {
    hide SweepPhase, Apply, ValidKey, PolicyOk, ValidPolicy, SnapshotOf, Knows;
    if SweepPhase(n, env).Some? { SweepDeadlines(n, env); }
  }

  lemma StepDeadline(n: Node, c: Command, env: Env, k: Key)
    requires PolicyOk(n.mem.ledger.policy)
    ensures DeadlineFromStep(n, c, env, Run(n, c, env), k)
  {
    hide DeadlineFromStep, PolicyOk, Acquire, RenewLeaseOf;
    match c
    case CmdAcquire(k0, pending) => AcquireDeadline(n, k0, pending, env, k);
    case CmdRenew(k0) => RenewDeadline(n, k0, env, k);
    case CmdAdopt(_) => LeaseCommandDeadline(n, c, env, k);
    case CmdActivate(_) => LeaseCommandDeadline(n, c, env, k);
    case CmdRelease(_) => LeaseCommandDeadline(n, c, env, k);
    case CmdReconcile(_, _) => LeaseCommandDeadline(n, c, env, k);
    case _ => OtherDeadlines(n, c, env, k);
  }

  // ---------------------------------------------------------------------
  // Over whole runs

  ghost predicate Touches(t: Trace, i: nat, k: Key)
    requires ValidTrace(t) && i < |t.events|
  {
    t.events[i].Do? && TouchedBy(t.events[i].command, ReplyAt(t, i).outcome, k)
  }

  /** Event i is the latest acquire or renewal of k before moment j, in the same process. */
  ghost predicate LatestTouch(t: Trace, i: nat, j: nat, k: Key)
    requires ValidTrace(t) && j <= |t.events|
  {
    && i < j && Touches(t, i, k) && t.hosts[i].memory.Some?
    && forall m :: i < m < j ==> !Touches(t, m, k) && t.events[m].Do?
  }

  /** The deadline that event i gave the lease it touched. */
  function DeadlineGiven(t: Trace, i: nat): int
    requires i < |t.events| && i < |t.hosts| && t.events[i].Do? && t.hosts[i].memory.Some?
  {
    t.events[i].env.now + t.hosts[i].memory.value.ttl
  }

  lemma {:induction false} DeadlineOrigin(t: Trace, j: nat, k: Key)
    requires ValidTrace(t) && j <= |t.events|
    requires t.hosts[j].memory.Some? && k in t.hosts[j].memory.value.deadlines
    ensures exists i :: LatestTouch(t, i, j, k) && t.hosts[j].memory.value.deadlines[k] == DeadlineGiven(t, i)
  {
    hide Run, EnvOk, PolicyOk, Apply, Accepts, Enumerates;
    assert j > 0;
    assert StepAt(t, j - 1);
    var h, h', e := t.hosts[j - 1], t.hosts[j], t.events[j - 1];
    assert e.Do?;
    StepDeadline(NodeOf(h), e.command, e.env, k);
    if Touches(t, j - 1, k) {
      assert LatestTouch(t, j - 1, j, k);
    } else {
      DeadlineOrigin(t, j - 1, k);
      var i :| LatestTouch(t, i, j - 1, k) && h.memory.value.deadlines[k] == DeadlineGiven(t, i);
      assert LatestTouch(t, i, j, k);
    }
  }

  /** What a saved sweep removed as expired no later moment of the run ever holds again. */
  lemma ExpiredIdIsNeverServed(t: Trace, i: nat, j: nat, k: Key)
    requires ValidTrace(t) && i < j <= |t.events| && t.events[i].Do? && SweepsFirst(t.events[i].command)
    requires t.hosts[i].memory.Some? && k in Due(t.hosts[i].memory.value, t.events[i].env.now)
    requires SweepPhase(NodeOf(t.hosts[i]), t.events[i].env).Some?
    ensures !HasId(LedgerOf(t.hosts[j]), LedgerOf(t.hosts[i]).leases[k].leaseId)
  {
    hide HasId, NodeOk, Run, Keeps, SweepPhase, EnvOk;
    assert StepAt(t, i);
    EveryHostOk(t, i);
    SweptIdIsGone(NodeOf(t.hosts[i]), t.events[i].command, t.events[i].env, k);
    RemovedIdNeverReturns(t, i, i + 1, j, k);
  }

  lemma SweptIdIsGone(n: Node, c: Command, env: Env, k: Key)
    requires NodeOk(n) && EnvOk(n, env) && SweepsFirst(c) && SweepPhase(n, env).Some? && k in Due(n.mem, env.now)
    ensures PolicyOk(n.mem.ledger.policy)
    ensures !HasId(Run(n, c, env).node.mem.ledger, n.mem.ledger.leases[k].leaseId)
  {
    hide Run, SweepPhase, EnvOk, DemandOk, TombstonesOk, FencesOk, Permitted, LeaseIdText, HasId;
    var s, r := SweepPhase(n, env).value, Run(n, c, env);
    CommandKeepsInvariant(n, c, env);
    SweepOk(c, true, n, env);
    SweepLeavesNothingDue(n, env);
    assert LeaseOk(n.mem.ledger, k);
    DroppedIdIsGone(n.mem.ledger, s.mem.ledger, k);
    SweepSequence(n, env);
    GoneStaysGone(s.mem.ledger, r.node.history[|s.history|..], k, n.mem.ledger.leases[k].grantedAt);
  }

  lemma DroppedIdIsGone(l: Ledger, l': Ledger, k: Key)
    requires LeasesOk(l) && k in l.leases && k !in l'.leases
    requires forall j :: j in l'.leases ==> j in l.leases && l'.leases[j] == l.leases[j]
    ensures !HasId(l', l.leases[k].leaseId)
  {
    hide LeaseIdText;
    assert LeaseOk(l, k);
    if HasId(l', l.leases[k].leaseId) {
      var j :| j in l'.leases && l'.leases[j].leaseId == l.leases[k].leaseId;
      IdNamesItsKey(l, j, k, l.leases[k].grantedAt);
    }
  }

  /**
   Activation or adoption promotes a provisional lease only strictly before the
   deadline given by its latest acquire or renewal.
   */
  lemma PromotedOnlyBeforeDeadline(t: Trace, j: nat, k: Key)
    requires ValidTrace(t) && j < |t.events| && t.events[j].Do?
    requires t.events[j].command == CmdActivate(k) || t.events[j].command == CmdAdopt(k)
    requires !ReplyAt(t, j).outcome.Failed?
    requires t.hosts[j].memory.Some? && k in ProvisionalKeys(LedgerOf(t.hosts[j]).leases)
    requires ActiveAt(LedgerOf(t.hosts[j + 1]), k)
    requires LedgerOf(t.hosts[j + 1]).leases[k].leaseId == LedgerOf(t.hosts[j]).leases[k].leaseId
    ensures exists i :: LatestTouch(t, i, j, k) && t.events[j].env.now < DeadlineGiven(t, i)
  {
    hide Run, ValidLedger, EnvOk, DemandOk, SweepPhase, ValidKey, Permitted;
    assert StepAt(t, j);
    EveryHostOk(t, j);
    var n, c, env := NodeOf(t.hosts[j]), t.events[j].command, t.events[j].env;
    CommandKeepsInvariant(n, c, env);
    SucceededSweeps(n, c, env);
    assert HasId(LedgerOf(t.hosts[j + 1]), LedgerOf(t.hosts[j]).leases[k].leaseId);
    if k in Due(n.mem, env.now) { SweptIdIsGone(n, c, env, k); }
    DeadlineOrigin(t, j, k);
  }

  lemma SucceededSweeps(n: Node, c: Command, env: Env)
    requires PolicyOk(n.mem.ledger.policy) && (c.CmdActivate? || c.CmdAdopt?)
    requires !Run(n, c, env).outcome.Failed?
    ensures SweepsFirst(c)
  {
    hide SweepPhase, AdoptSwept, ActivateSwept, ValidKey, PolicyOk;
  }
}
