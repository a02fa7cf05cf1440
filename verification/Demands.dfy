/**
 Published demand over whole runs: the demand of a profile is what the latest
 publication or acquire stated, less the grant of that acquire, and it is gone
 once thirty seconds have passed without a new statement.
 */
module Demands {
  import opened Identity
  import opened Ordering
  import opened FairShare
  import opened Policy
  import opened Leases
  import opened Admission
  import opened Ledgers
  import opened Commands
  import opened Invariants
  import opened Runs
  import opened Replies

  /** Workers a profile is known to want. */
  function PendingOf(m: Memory, p: string): int {
    if p in m.demand then m.demand[p] else 0
  }

  /** The count that a command states for p; an acquire states what is left after its own grant. */
  ghost function Stated(m: Memory, c: Command, env: Env, outcome: Outcome, p: string): Option<int> {
    match c
    case CmdSetDemand(q, pending) => if q == p && outcome == Done then Some(pending) else None
    case CmdAcquire(k, pending) =>
      if k.profile == p && ValidKey(k) && Sweeps(m, env) && m.ledger.fences == map[] && !Live(m, k, env.now) && Knows(m.ledger.policy, p)
      then Some(Max(pending, 1) - if outcome.Leased? then 1 else 0)
      else None
    case _ => None
  }

  /** The command looks for demand that is too old. */
  ghost predicate Refreshes(m: Memory, c: Command, env: Env) {
    match c
    case CmdSetDemand(q, pending) => ValidProfileId(q) && pending >= 0 && Knows(m.ledger.policy, q)
    case CmdAcquire(k, _) => ValidKey(k) && Sweeps(m, env)
    case CmdStatus => Sweeps(m, env)
    case _ => false
  }

  /** The command drops what was stated for p: a new policy, an expired lease of p, or demand that is too old. */
  ghost predicate Forgets(m: Memory, c: Command, env: Env, outcome: Outcome, p: string) {
    || (c.CmdApplyPolicy? && outcome == Done)
    || (SweepsFirst(c) && Sweeps(m, env) && LostLease(m, env.now, p))
    || (Refreshes(m, c, env) && p in m.demandDeadlines && env.now >= m.demandDeadlines[p])
  }

  ghost predicate LostLease(m: Memory, now: int, p: string) {
    exists k :: k in m.ledger.leases && !Live(m, k, now) && m.ledger.leases[k].profileId == p
  }

  /** How one command changes the demand of p. */
  ghost predicate DemandStep(m: Memory, c: Command, env: Env, outcome: Outcome, m': Memory, p: string) {
    var stated := Stated(m, c, env, outcome, p);
    if stated.Some? then
      && PendingOf(m', p) == stated.value && p in m'.known
      && (stated.value > 0 ==> p in m'.demandDeadlines && m'.demandDeadlines[p] == env.now + 30_000_000_000)
    else if Forgets(m, c, env, outcome, p) then PendingOf(m', p) == 0 && p !in m'.known
    else
      && PendingOf(m', p) == PendingOf(m, p) && (p in m'.known <==> p in m.known)
      && (p in m.demand ==> p in m'.demandDeadlines && p in m.demandDeadlines && m'.demandDeadlines[p] == m.demandDeadlines[p])
  }

  // ---------------------------------------------------------------------
  // Each command

  ghost predicate SameEntries(m: Memory, m': Memory, p: string) {
    && (p in m'.demand <==> p in m.demand) && (p in m'.demand ==> m'.demand[p] == m.demand[p])
    && (p in m'.demandDeadlines <==> p in m.demandDeadlines) && (p in m'.known <==> p in m.known)
    && (p in m'.demandDeadlines ==> m'.demandDeadlines[p] == m.demandDeadlines[p])
  }

  /** The sweep drops the demand of exactly the profiles that lost a lease to it. */
  lemma SweepDemand(n: Node, env: Env, p: string)
    requires EnvOk(n, env) && SweepPhase(n, env).Some?
    ensures
      var m := SweepPhase(n, env).value.mem;
      if LostLease(n.mem, env.now, p) then p !in m.demand && p !in m.demandDeadlines && p !in m.known
      else SameEntries(n.mem, m, p)
  {
    hide Live, Compact, Swept, Apply;
    DueIsExpired(n.mem, env.now);
  }

  ghost predicate SameDemand(m: Memory, m': Memory) {
    m'.demand == m.demand && m'.demandDeadlines == m.demandDeadlines && m'.known == m.known
  }

  lemma SweptKeepsDemand(s: Node, c: Command, expired: bool, env: Env)
    requires RecordedAs(c).Some? && !c.CmdAcquire?
    ensures SameDemand(s.mem, SweptReply(s, c, expired, env).node.mem)
  {
    hide VerdictFor, Knows, Compact, Swept, Accounted, ValidKey, Apply;
  }

  lemma LeaseCommandDemand(n: Node, c: Command, env: Env, p: string)
    requires NodeOk(n) && EnvOk(n, env) && PolicyOk(n.mem.ledger.policy) && RecordedAs(c).Some? && !c.CmdAcquire?
    ensures DemandStep(n.mem, c, env, Run(n, c, env).outcome, Run(n, c, env).node.mem, p)
  {
    hide Run, ValidLedger, EnvOk, PolicyOk, SweepPhase, Noted, SweptReply, ValidKey, Sweeps, LostLease, Live;
    SweepLeavesLive(n, env);
    LeaseCommandIsNoted(n, c, env);
    var swept, made, expired := SweepPhase(n, env), RecordedAs(c).value, c.key in Due(n.mem, env.now);
    NotedParts(Reply(n, Failed(StoreFailure)), made.0, made.1, env);
    if swept.Some? {
      SweepDemand(n, env, p);
      SweptKeepsDemand(swept.value, c, expired, env);
      NotedParts(SweptReply(swept.value, c, expired, env), made.0, made.1, env);
    }
  }

  /** The three ways an acquire ends after its sweep: before it states demand, refused after that, or granted. */
  lemma AcquireSweptEnds(n: Node, k: Key, pending: int, env: Env)
    ensures
      var r, l, want := AcquireSwept(n, k, pending, env), n.mem.ledger, Max(pending, 1);
      var asked := n.(mem := WithDemand(n.mem, k.profile, want, env.now + DEMAND_TTL));
      if l.fences == map[] && k !in l.leases && Knows(l.policy, k.profile) then
        var verdict := VerdictFor(asked.mem, k.profile);
        (r.node == asked && r.outcome.Failed?) || (verdict.Admit? && r == GrantTo(asked, k, want, verdict.contenders, env))
      else r.node == n && !r.outcome.Leased?
  {
    hide VerdictFor, Knows, GrantTo;
  }

  lemma AcquireSweptDemand(n: Node, k: Key, pending: int, env: Env, p: string)
    ensures
      var r, l, want := AcquireSwept(n, k, pending, env), n.mem.ledger, Max(pending, 1);
      var m' := r.node.mem;
      if k.profile == p && l.fences == map[] && k !in l.leases && Knows(l.policy, p) then
        && PendingOf(m', p) == want - (if r.outcome.Leased? then 1 else 0) && p in m'.known
        && (PendingOf(m', p) > 0 ==> p in m'.demandDeadlines && m'.demandDeadlines[p] == env.now + DEMAND_TTL)
      else SameEntries(n.mem, m', p)
  {
    hide VerdictFor, Knows, GrantTo, AcquireSwept;
    AcquireSweptEnds(n, k, pending, env);
    var l, want := n.mem.ledger, Max(pending, 1);
    if l.fences == map[] && k !in l.leases && Knows(l.policy, k.profile) {
      var asked := n.(mem := WithDemand(n.mem, k.profile, want, env.now + DEMAND_TTL));
      if VerdictFor(asked.mem, k.profile).Admit? {
        GrantDemand(asked, k, want, VerdictFor(asked.mem, k.profile).contenders, env, p);
      }
    }
  }

  lemma GrantDemand(n: Node, k: Key, want: int, contenders: nat, env: Env, p: string)
    requires Knows(n.mem.ledger.policy, k.profile) && want >= 1
    ensures
      var r := GrantTo(n, k, want, contenders, env);
      && r.outcome.Leased? && r.node.mem.known == n.mem.known
      && if k.profile == p then
           && PendingOf(r.node.mem, p) == want - 1
           && (want > 1 ==> r.node.mem.demandDeadlines == n.mem.demandDeadlines)
         else SameEntries(n.mem, r.node.mem, p)
  {
    hide Apply;
    var e := Grant(k, Lookup(n.mem.ledger.policy.profiles, k.profile).value.unitCost, Provisional, env.now + n.mem.ttl);
    GrantParts(n.mem.ledger, e);
  }

  lemma AcquireDemand(n: Node, k: Key, pending: int, env: Env, p: string)
    requires NodeOk(n) && EnvOk(n, env)
    ensures
      var r := Acquire(n, k, pending, env);
      DemandStep(n.mem, CmdAcquire(k, pending), env, r.outcome, r.node.mem, p)
  {
    hide ValidLedger, EnvOk, SweepPhase, Noted, AcquireSwept, ValidKey, Sweeps, LostLease, Knows;
    SweepLeavesLive(n, env);
    NotedParts(Reply(n, Failed(StoreFailure)), AcquireLease, k.profile, env);
    if ValidKey(k) && SweepPhase(n, env).Some? {
      var s := ForgetStale(SweepPhase(n, env).value, env.now);
      SweepDemand(n, env, p);
      AcquireSweptDemand(s, k, pending, env, p);
      NotedParts(AcquireSwept(s, k, pending, env), AcquireLease, k.profile, env);
    }
  }

  lemma BindDemand(n: Node, k: Key, name: string, env: Env, p: string)
    requires NodeOk(n) && EnvOk(n, env)
    ensures
      var r := BindRegistration(n, k, name, env);
      DemandStep(n.mem, CmdBindRegistration(k, name), env, r.outcome, r.node.mem, p)
  {
    hide ValidLedger, EnvOk, SweepPhase, ValidKey, Sweeps, LostLease, Live, ValidRegistrationName, Apply;
    SweepLeavesLive(n, env);
    if SweepPhase(n, env).Some? { SweepDemand(n, env, p); }
  }

  lemma StatusDemand(n: Node, env: Env, p: string)
    requires NodeOk(n) && EnvOk(n, env) && PolicyOk(n.mem.ledger.policy)
    ensures
      var r := Status(n, env);
      DemandStep(n.mem, CmdStatus, env, r.outcome, r.node.mem, p)
  {
    hide ValidLedger, PolicyOk, EnvOk, SweepPhase, Sweeps, LostLease, Live, SnapshotOf;
    SweepLeavesLive(n, env);
    if SweepPhase(n, env).Some? { SweepDemand(n, env, p); }
  }

  lemma SetDemandDemand(n: Node, q: string, pending: int, env: Env, p: string)
    requires NodeOk(n)
    ensures
      var r := SetDemand(n, q, pending, env);
      DemandStep(n.mem, CmdSetDemand(q, pending), env, r.outcome, r.node.mem, p)
  {
    hide ValidLedger, ValidProfileId, Knows;
  }

  lemma OtherDemand(n: Node, c: Command, env: Env, p: string)
    requires PolicyOk(n.mem.ledger.policy) && NodeOk(n)
    requires RecordedAs(c).None? && !c.CmdAcquire? && !c.CmdBindRegistration? && !c.CmdStatus? && !c.CmdSetDemand?
    ensures DemandStep(n.mem, c, env, Run(n, c, env).outcome, Run(n, c, env).node.mem, p)
  {
    hide ValidLedger, PolicyOk, ValidKey, Sweeps, LostLease, Live, ValidPolicy, Knows, Apply;
  }

  /** How every command changes the demand of every profile. */
  lemma DemandStepHolds(n: Node, c: Command, env: Env, p: string)
    requires NodeOk(n) && EnvOk(n, env) && PolicyOk(n.mem.ledger.policy)
    ensures DemandStep(n.mem, c, env, Run(n, c, env).outcome, Run(n, c, env).node.mem, p)
  {
    hide DemandStep, NodeOk, EnvOk, PolicyOk;
    match c
    case CmdAcquire(k, pending) => AcquireDemand(n, k, pending, env, p);
    case CmdBindRegistration(k, name) => BindDemand(n, k, name, env, p);
    case CmdStatus => StatusDemand(n, env, p);
    case CmdSetDemand(q, pending) => SetDemandDemand(n, q, pending, env, p);
    case _ =>
      if RecordedAs(c).Some? { LeaseCommandDemand(n, c, env, p); } else { OtherDemand(n, c, env, p); }
  }

  // ---------------------------------------------------------------------
  // Over whole runs

  /** What event i states for p, if it is a command that does. */
  ghost function StatedAt(t: Trace, i: nat, p: string): Option<int>
    requires ValidTrace(t) && i < |t.events|
  {
    if t.events[i].Do? && t.hosts[i].memory.Some?
    then Stated(t.hosts[i].memory.value, t.events[i].command, t.events[i].env, ReplyAt(t, i).outcome, p)
    else None
  }

  ghost predicate ForgetsAt(t: Trace, i: nat, p: string)
    requires ValidTrace(t) && i < |t.events|
  {
    if t.events[i].Do?
    then t.hosts[i].memory.Some? && Forgets(t.hosts[i].memory.value, t.events[i].command, t.events[i].env, ReplyAt(t, i).outcome, p)
    else true
  }

  ghost function PendingAt(t: Trace, j: nat, p: string): int
    requires j < |t.hosts|
  {
    if t.hosts[j].memory.Some? then PendingOf(t.hosts[j].memory.value, p) else 0
  }

  lemma DemandEvent(t: Trace, j: nat, p: string)
    requires ValidTrace(t) && j < |t.events|
    ensures t.events[j].Do? ==> t.hosts[j].memory.Some? && t.hosts[j + 1].memory.Some?
    ensures
      t.events[j].Do? ==>
        DemandStep(t.hosts[j].memory.value, t.events[j].command, t.events[j].env, ReplyAt(t, j).outcome, t.hosts[j + 1].memory.value, p)
    ensures !t.events[j].Do? ==> PendingAt(t, j + 1, p) == 0
  {
    hide DemandStep, NodeOk, EnvOk, PolicyOk, Run, Accepts, Apply, Enumerates;
    assert StepAt(t, j);
    EveryHostOk(t, j);
    if t.events[j].Do? { DemandStepHolds(NodeOf(t.hosts[j]), t.events[j].command, t.events[j].env, p); }
  }

  /** Event i is the latest statement for p before moment j, and nothing has dropped it since. */
  ghost predicate LatestStatement(t: Trace, i: nat, j: nat, p: string)
    requires ValidTrace(t) && j <= |t.events|
  {
    && i < j && StatedAt(t, i, p).Some?
    && forall m :: i < m < j ==> StatedAt(t, m, p).None? && !ForgetsAt(t, m, p)
  }

  /** At moment j the demand of p is what event i left of it, with event i's deadline. */
  ghost predicate FollowsStatement(t: Trace, i: nat, j: nat, p: string)
    requires ValidTrace(t) && j <= |t.events|
  {
    && i < |t.events| && t.events[i].Do? && StatedAt(t, i, p) == Some(PendingAt(t, j, p))
    && (PendingAt(t, j, p) > 0 ==>
          && p in t.hosts[j].memory.value.demandDeadlines
          && t.hosts[j].memory.value.demandDeadlines[p] == t.events[i].env.now + 30_000_000_000)
  }

  /** The demand at every moment: what the latest statement left of it, if nothing dropped it; else none. */
  lemma {:induction false} DemandIsLatestStatement(t: Trace, j: nat, p: string)
    requires ValidTrace(t) && j <= |t.events|
    ensures forall i: nat :: LatestStatement(t, i, j, p) ==> FollowsStatement(t, i, j, p)
    ensures PendingAt(t, j, p) > 0 ==> exists i: nat :: LatestStatement(t, i, j, p)
  {
    hide StepAt, ReplyAt, Stated, Forgets;
    if j > 0 {
      DemandIsLatestStatement(t, j - 1, p);
      DemandEvent(t, j - 1, p);
      DeadlinesOfDemand(t, j - 1, p);
      if StatedAt(t, j - 1, p).Some? {
        assert LatestStatement(t, j - 1, j, p);
      } else if PendingAt(t, j, p) > 0 {
        assert !ForgetsAt(t, j - 1, p);
        var i: nat :| LatestStatement(t, i, j - 1, p);
        assert LatestStatement(t, i, j, p);
      }
      forall i: nat | LatestStatement(t, i, j, p) ensures FollowsStatement(t, i, j, p) {
        if i < j - 1 {
          assert StatedAt(t, j - 1, p).None? && !ForgetsAt(t, j - 1, p);
          assert LatestStatement(t, i, j - 1, p);
        }
      }
    }
  }

  lemma DeadlinesOfDemand(t: Trace, j: nat, p: string)
    requires ValidTrace(t) && j <= |t.events|
    ensures PendingAt(t, j, p) >= 0
    ensures t.hosts[j].memory.Some? && PendingAt(t, j, p) > 0 ==> p in t.hosts[j].memory.value.demand
  {
    hide StepAt, ValidLedger;
    EveryHostOk(t, j);
  }

  /** Event m looks for old demand at least thirty seconds after event i stated it. */
  ghost predicate FindsStale(t: Trace, i: nat, m: nat)
    requires ValidTrace(t) && m < |t.events| && i < |t.events| && t.events[i].Do?
  {
    && t.events[m].Do? && t.hosts[m].memory.Some?
    && Refreshes(t.hosts[m].memory.value, t.events[m].command, t.events[m].env)
    && t.events[m].env.now >= t.events[i].env.now + 30_000_000_000
  }

  /** Demand is gone, for good, once a command that looks for old demand finds it thirty seconds old. */
  lemma StaleDemandIsGone(t: Trace, i: nat, m: nat, j: nat, p: string)
    requires ValidTrace(t) && i < m < j <= |t.events| && StatedAt(t, i, p).Some? && t.events[i].Do? && FindsStale(t, i, m)
    requires forall x :: i < x < j ==> StatedAt(t, x, p).None?
    ensures PendingAt(t, j, p) == 0
  {
    hide StepAt, ReplyAt, Stated, Refreshes;
    DeadlinesOfDemand(t, j, p);
    DemandIsLatestStatement(t, j, p);
    assert forall i': nat :: LatestStatement(t, i', j, p) ==> i' == i;
    assert LatestStatement(t, i, j, p) ==> LatestStatement(t, i, m, p) && !ForgetsAt(t, m, p);
    StaleIsForgotten(t, i, m, p);
  }

  lemma StaleIsForgotten(t: Trace, i: nat, m: nat, p: string)
    requires ValidTrace(t) && i < m < |t.events| && StatedAt(t, i, p).Some? && t.events[i].Do? && FindsStale(t, i, m)
    ensures LatestStatement(t, i, m, p) && StatedAt(t, i, p).value > 0 ==> ForgetsAt(t, m, p)
  {
    hide StepAt, ReplyAt, Stated, Refreshes, StatedAt;
    DemandIsLatestStatement(t, m, p);
  }
}
