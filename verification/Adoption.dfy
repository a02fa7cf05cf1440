/**
 Recovery fencing over whole runs: what is pending behind a fence is exactly
 what was active when the fence went up and has not been accounted for since.
 */
module Adoption {
  import opened Identity
  import opened Ordering
  import opened Policy
  import opened Admission
  import opened Ledgers
  import opened Commands
  import opened Invariants
  import opened Runs
  import opened Lifetimes

  /** A command that accounts for the worker behind a key. */
  predicate AccountsFor(c: Command, k: Key) {
    c == CmdAdopt(k) || c == CmdRelease(k) || (c.CmdReconcile? && c.key == k)
  }

  ghost predicate AccountedAt(t: Trace, m: nat, k: Key)
    requires ValidTrace(t) && m < |t.events|
  {
    t.events[m].Do? && AccountsFor(t.events[m].command, k) && !ReplyAt(t, m).outcome.Failed?
  }

  predicate AccountingEdit(e: Edit, k: Key) {
    match e
    case Account(j) => j == k
    case Grant(j, _, status, _) => j == k && status.Active?
    case Promote(j, adopting) => j == k && adopting
    case Remove(j, _, _) => j == k
    case _ => false
  }

  ghost predicate Fenced(l: Ledger, p: string) {
    p in l.fences
  }

  // ---------------------------------------------------------------------
  // Edits

  /** Without a new fence and without accounting for k, a fence that survives still waits for k. */
  lemma PendingStep(l: Ledger, e: Edit, k: Key)
    requires Enabled(l, e) && e != Fence(k.profile) && !AccountingEdit(e, k)
    requires Fenced(l, k.profile) ==> AwaitsAccounting(l, k)
    ensures Fenced(Apply(l, e), k.profile) ==> AwaitsAccounting(Apply(l, e), k)
  {
    hide Compact, Swept, HasRoom, ValidPolicy;
    if Fenced(l, k.profile) && (e.Account? || e.Grant? || e.Promote? || e.Remove?) && e.key != k {
      OthersStayPending(l.fences, k, e.key);
    }
  }

  lemma OthersStayPending(fences: map<string, AdoptionFence>, k: Key, other: Key)
    requires k.profile in fences && k.slot in fences[k.profile].pending && other != k
    ensures k.profile in Accounted(fences, other) && k.slot in Accounted(fences, other)[k.profile].pending
  {
    if other.profile == k.profile {
      var pending := fences[k.profile].pending;
      WithoutElements(pending, other.slot);
      assert k.slot in Elements(pending);
      assert k.slot in Elements(Without(pending, other.slot));
    }
  }

  lemma {:induction false} PendingPath(l: Ledger, es: seq<Edit>, k: Key)
    requires AllEnabled(l, es) && AwaitsAccounting(l, k)
    requires forall e :: e in es ==> e != Fence(k.profile) && !AccountingEdit(e, k)
    ensures Fenced(After(l, es), k.profile) ==> AwaitsAccounting(After(l, es), k)
    decreases |es|
  {
    hide Enabled, Apply, AwaitsAccounting, Fenced, AccountingEdit;
    if es != [] {
      var front, last := es[..|es| - 1], es[|es| - 1];
      assert last in es && forall e :: e in front ==> e in es;
      PendingPath(l, front, k);
      PendingStep(After(l, front), last, k);
    }
  }

  /** Nothing but a new fence ever makes a slot pending. */
  lemma ClearedStep(l: Ledger, e: Edit, k: Key)
    requires Enabled(l, e) && e != Fence(k.profile) && !AwaitsAccounting(l, k)
    ensures !AwaitsAccounting(Apply(l, e), k)
  {
    hide Compact, Swept, HasRoom, ValidPolicy;
    if k.profile in l.fences && (e.Account? || e.Grant? || e.Promote? || e.Remove?) {
      var pending := l.fences[k.profile].pending;
      WithoutElements(pending, e.key.slot);
      assert forall s :: s in Without(pending, e.key.slot) <==> s in Elements(Without(pending, e.key.slot));
    }
  }

  lemma {:induction false} ClearedPath(l: Ledger, es: seq<Edit>, k: Key)
    requires AllEnabled(l, es) && !AwaitsAccounting(l, k)
    requires forall e :: e in es ==> e != Fence(k.profile)
    ensures !AwaitsAccounting(After(l, es), k)
    decreases |es|
  {
    hide Enabled, Apply, AwaitsAccounting;
    if es != [] {
      var front, last := es[..|es| - 1], es[|es| - 1];
      assert last in es && forall e :: e in front ==> e in es;
      ClearedPath(l, front, k);
      ClearedStep(After(l, front), last, k);
    }
  }

  /** Only its own removal, or a policy that does not know the profile, takes a fence down. */
  lemma FenceStep(l: Ledger, e: Edit, p: string)
    requires Enabled(l, e) && Fenced(l, p) && e != Unfence(p) && (e.ApplyPolicy? ==> Knows(e.policy, p))
    ensures Fenced(Apply(l, e), p)
  {
    hide Compact, Swept, HasRoom, ValidPolicy, Knows;
  }

  lemma {:induction false} FencePath(l: Ledger, es: seq<Edit>, p: string)
    requires AllEnabled(l, es) && Fenced(l, p)
    requires forall e :: e in es ==> e != Unfence(p) && (e.ApplyPolicy? ==> Knows(e.policy, p))
    ensures Fenced(After(l, es), p)
    decreases |es|
  {
    hide Enabled, Apply, Fenced, Knows;
    if es != [] {
      var front, last := es[..|es| - 1], es[|es| - 1];
      assert last in es && forall e :: e in front ==> e in es;
      FencePath(l, front, p);
      FenceStep(After(l, front), last, p);
    }
  }

  /** A path that publishes one policy ends with that policy in force. */
  lemma {:induction false} PublishedPath(l: Ledger, es: seq<Edit>, h: HostPolicy)
    requires AllEnabled(l, es) && ApplyPolicy(h) in es
    requires forall e :: e in es && e.ApplyPolicy? ==> e.policy == h
    ensures After(l, es).policy == h
    decreases |es|
  {
    hide Enabled, Apply;
    var front, last := es[..|es| - 1], es[|es| - 1];
    assert last in es && forall e :: e in front ==> e in es;
    if last.ApplyPolicy? {
      PublishStep(After(l, front), h);
    } else {
      assert es == front + [last];
      PublishedPath(l, front, h);
      EnabledIsDefined(After(l, front), last);
      EditFrame(After(l, front), last);
    }
  }

  lemma PublishStep(l: Ledger, h: HostPolicy)
    ensures Apply(l, ApplyPolicy(h)).policy == h
  {}

  // ---------------------------------------------------------------------
  // Commands

  /** A repeated BeginAdoption leaves the fence and everything else alone. */
  lemma RepeatedBeginIsNoOp(n: Node, p: string, env: Env)
    requires Fenced(n.mem.ledger, p)
    ensures BeginAdoption(n, p, env).node == n
  {}

  /** While any profile is fenced, no acquire succeeds. */
  lemma FencedHostGrantsNothing(n: Node, k: Key, pending: int, env: Env)
    requires EnvOk(n, env) && n.mem.ledger.fences != map[]
    ensures Acquire(n, k, pending, env).outcome.Failed?
    ensures ValidKey(k) && SweepPhase(n, env).Some? ==> Acquire(n, k, pending, env).outcome.error == AdoptionPending
  {
    hide EnvOk, SweepPhase, Apply, ValidKey, GrantTo, VerdictFor;
    if SweepPhase(n, env).Some? { SweepLeavesNothingDue(n, env); }
  }

  lemma EntombClears(n: Node, k: Key, reason: TombstoneReason, evidence: string, env: Env)
    requires k in n.mem.ledger.leases && !EntombSwept(n, k, reason, evidence, env).outcome.Failed?
    ensures !AwaitsAccounting(EntombSwept(n, k, reason, evidence, env).node.mem.ledger, k)
  {
    hide Compact;
    AccountedIsCleared(n.mem.ledger.fences, k);
  }

  lemma AccountedIsCleared(fences: map<string, AdoptionFence>, k: Key)
    ensures k.profile in fences ==> k.slot !in Accounted(fences, k)[k.profile].pending
  {
    if k.profile in fences {
      var rest := Without(fences[k.profile].pending, k.slot);
      WithoutElements(fences[k.profile].pending, k.slot);
      assert k.slot !in Elements(rest);
    }
  }

  lemma AdoptClears(n: Node, k: Key, env: Env)
    requires ActiveAt(n.mem.ledger, k) && !AdoptSwept(n, k, env).outcome.Failed?
    ensures !AwaitsAccounting(AdoptSwept(n, k, env).node.mem.ledger, k)
  {
    hide Compact, Swept;
    AccountedIsCleared(n.mem.ledger.fences, k);
  }

  lemma NotedKeepsFences(r: Reply, command: LeaseCommand, profile: string, env: Env)
    ensures Noted(r, command, profile, env).node.mem.ledger.fences == r.node.mem.ledger.fences
    ensures Noted(r, command, profile, env).outcome == r.outcome
  {}

  /** A successful adopt, release or reconcile of a pending worker takes it off the pending list. */
  lemma AccountingClears(n: Node, c: Command, k: Key, env: Env)
    requires NodeOk(n) && EnvOk(n, env) && AccountsFor(c, k) && ActiveAt(n.mem.ledger, k)
    requires PolicyOk(n.mem.ledger.policy) && !Run(n, c, env).outcome.Failed?
    ensures !AwaitsAccounting(Run(n, c, env).node.mem.ledger, k)
  {
    hide NodeOk, EnvOk, PolicyOk, SweepPhase, EntombSwept, AdoptSwept, Noted, ValidKey;
    if SweepPhase(n, env).Some? {
      var s := SweepPhase(n, env).value;
      SweepKeepsActive(n, k, env);
      match c
      case CmdAdopt(_) =>
        NotedKeepsFences(AdoptSwept(s, k, env), AdoptLease, k.profile, env);
        AdoptClears(s, k, env);
      case CmdRelease(_) =>
        NotedKeepsFences(EntombSwept(s, k, Released, "", env), ReleaseLease, k.profile, env);
        EntombClears(s, k, Released, "", env);
      case CmdReconcile(_, evidence) =>
        NotedKeepsFences(EntombSwept(s, k, ReconciledAbsent, evidence.value, env), ReconcileLease, k.profile, env);
        EntombClears(s, k, ReconciledAbsent, evidence.value, env);
    } else {
      SweptFirst(n, c, k, env);
    }
  }

  lemma SweptFirst(n: Node, c: Command, k: Key, env: Env)
    requires PolicyOk(n.mem.ledger.policy) && AccountsFor(c, k) && SweepPhase(n, env).None?
    ensures Run(n, c, env).outcome.Failed?
  {
    hide PolicyOk, SweepPhase, EntombSwept, AdoptSwept, ValidKey, Apply;
  }

  lemma SweepKeepsActive(n: Node, k: Key, env: Env)
    requires EnvOk(n, env) && SweepPhase(n, env).Some? && ActiveAt(n.mem.ledger, k)
    ensures ActiveAt(SweepPhase(n, env).value.mem.ledger, k)
  {
    hide SweepPhase;
    SweepLeavesNothingDue(n, env);
  }

  // ---------------------------------------------------------------------
  // Runs

  /** An event that meets a standing fence commits no second fence for it. */
  lemma StandingFenceIsKept(t: Trace, m: nat, p: string)
    requires ValidTrace(t) && m < |t.events| && Fenced(LedgerOf(t.hosts[m]), p)
    ensures |t.hosts[m].history| <= |t.hosts[m + 1].history|
    ensures Fence(p) !in Between(t, m, m + 1)
  {
    hide HostOk, EnvOk, Extends, SetPolicy, CompleteAdoption, Acquire, BindRegistration, Adopt,
      RenewLeaseOf, Activate, Release, Reconcile, Status, SetDemand, Opened, Enumerates;
    RunIsPathLength(t, m);
    assert StepAt(t, m);
    if Fence(p) in Between(t, m, m + 1) {
      EventEdits(t, m, Fence(p));
      RepeatedBeginIsNoOp(NodeOf(t.hosts[m]), p, t.events[m].env);
    }
  }

  lemma RunIsPathLength(t: Trace, m: nat)
    requires ValidTrace(t) && m < |t.events|
    ensures |t.hosts[m].history| <= |t.hosts[m + 1].history|
  {
    hide Next, Possible, AllEnabled;
    RunIsPath(t, m, m + 1);
  }

  /** An event that does not account for k leaves it pending if the fence survives. */
  lemma UnaccountedEvent(t: Trace, m: nat, k: Key)
    requires ValidTrace(t) && m < |t.events| && AwaitsAccounting(LedgerOf(t.hosts[m]), k) && !AccountedAt(t, m, k)
    ensures Fenced(LedgerOf(t.hosts[m + 1]), k.profile) ==> AwaitsAccounting(LedgerOf(t.hosts[m + 1]), k)
  {
    hide HostOk, Next, Possible, AllEnabled, ReplyAt;
    RunIsPath(t, m, m + 1);
    StandingFenceIsKept(t, m, k.profile);
    forall e | e in Between(t, m, m + 1) ensures !AccountingEdit(e, k) { EventEdits(t, m, e); }
    PendingPath(LedgerOf(t.hosts[m]), Between(t, m, m + 1), k);
  }

  lemma ClearedEvent(t: Trace, m: nat, k: Key)
    requires ValidTrace(t) && m < |t.events|
    requires Fenced(LedgerOf(t.hosts[m]), k.profile) && !AwaitsAccounting(LedgerOf(t.hosts[m]), k)
    ensures !AwaitsAccounting(LedgerOf(t.hosts[m + 1]), k)
  {
    hide HostOk, Next, Possible, AllEnabled, AwaitsAccounting;
    RunIsPath(t, m, m + 1);
    StandingFenceIsKept(t, m, k.profile);
    ClearedPath(LedgerOf(t.hosts[m]), Between(t, m, m + 1), k);
  }

  lemma AccountedEvent(t: Trace, m: nat, k: Key)
    requires ValidTrace(t) && m < |t.events| && AccountedAt(t, m, k) && AwaitsAccounting(LedgerOf(t.hosts[m]), k)
    ensures !AwaitsAccounting(LedgerOf(t.hosts[m + 1]), k)
  {
    hide Run, EnvOk, PolicyOk, LeasesOk, TombstonesOk, DemandOk;
    assert StepAt(t, m);
    LedgerValidAt(t, m);
    assert FenceOk(LedgerOf(t.hosts[m]), k.profile);
    AccountingClears(NodeOf(t.hosts[m]), t.events[m].command, k, t.events[m].env);
  }

  /** Event m is a CompleteAdoption of p that succeeded. */
  ghost predicate CompletedAt(t: Trace, m: nat, p: string)
    requires ValidTrace(t) && m < |t.events|
  {
    t.events[m].Do? && t.events[m].command == CmdCompleteAdoption(p) && !ReplyAt(t, m).outcome.Failed?
  }

  lemma UncompletedEvent(t: Trace, m: nat, p: string)
    requires ValidTrace(t) && m < |t.events| && Fenced(LedgerOf(t.hosts[m]), p)
    requires Knows(LedgerOf(t.hosts[m + 1]).policy, p) && !CompletedAt(t, m, p)
    ensures Fenced(LedgerOf(t.hosts[m + 1]), p)
  {
    hide HostOk, Next, Possible, AllEnabled, ReplyAt, Knows, Fenced;
    var l, es := LedgerOf(t.hosts[m]), RunEdits(t, m);
    forall e | e in es ensures e != Unfence(p) && (e.ApplyPolicy? ==> Knows(e.policy, p)) {
      EventEdits(t, m, e);
      if e.ApplyPolicy? {
        forall x | x in es && x.ApplyPolicy? ensures x.policy == e.policy { EventEdits(t, m, x); }
        PublishedPath(l, es, e.policy);
      }
    }
    FencePath(l, es, p);
  }

  /** The edits of one event, as a path between its two moments. */
  ghost function RunEdits(t: Trace, m: nat): (es: seq<Edit>)
    requires ValidTrace(t) && m < |t.events|
    ensures |t.hosts[m].history| <= |t.hosts[m + 1].history| && es == Between(t, m, m + 1)
    ensures AllEnabled(LedgerOf(t.hosts[m]), es) && After(LedgerOf(t.hosts[m]), es) == LedgerOf(t.hosts[m + 1])
  {
    RunIsPath(t, m, m + 1);
    Between(t, m, m + 1)
  }

  lemma CompletedEvent(t: Trace, m: nat, p: string)
    requires ValidTrace(t) && m < |t.events| && CompletedAt(t, m, p)
    ensures !Fenced(LedgerOf(t.hosts[m + 1]), p)
  {
    hide EnvOk, PolicyOk;
    assert StepAt(t, m);
  }

  /**
   Over any stretch of a run a fence stands throughout if and only if the policies in
   force keep its profile and no CompleteAdoption of that profile succeeds: commands,
   crashes, restarts and publications that keep the profile never take it down.
   */
  lemma {:induction false} FenceStandsExactly(t: Trace, i: nat, j: nat, p: string)
    requires ValidTrace(t) && i <= j <= |t.events| && Fenced(LedgerOf(t.hosts[i]), p)
    ensures
      (forall m :: i <= m <= j ==> Fenced(LedgerOf(t.hosts[m]), p)) <==>
        && (forall m :: i <= m <= j ==> Knows(LedgerOf(t.hosts[m]).policy, p))
        && (forall m :: i <= m < j ==> !CompletedAt(t, m, p))
    decreases j
  {
    hide StepAt, Fenced, Knows, CompletedAt;
    FencedIsKnown(t, j, p);
    if i < j {
      FenceStandsExactly(t, i, j - 1, p);
      if CompletedAt(t, j - 1, p) {
        CompletedEvent(t, j - 1, p);
      } else if Fenced(LedgerOf(t.hosts[j - 1]), p) && Knows(LedgerOf(t.hosts[j]).policy, p) {
        UncompletedEvent(t, j - 1, p);
      }
    }
  }

  lemma FencedIsKnown(t: Trace, j: nat, p: string)
    requires ValidTrace(t) && j <= |t.events|
    ensures Fenced(LedgerOf(t.hosts[j]), p) ==> Knows(LedgerOf(t.hosts[j]).policy, p)
  {
    hide StepAt, HostOk, Knows, LeasesOk, TombstonesOk, PolicyOk;
    LedgerValidAt(t, j);
    if Fenced(LedgerOf(t.hosts[j]), p) { assert FenceOk(LedgerOf(t.hosts[j]), p); }
  }

  /** Event i put up the fence of p. */
  ghost predicate RaisesFence(t: Trace, i: nat, p: string)
    requires ValidTrace(t) && i < |t.events|
  {
    && t.events[i].Do? && t.events[i].command == CmdBeginAdoption(p)
    && !Fenced(LedgerOf(t.hosts[i]), p) && Fenced(LedgerOf(t.hosts[i + 1]), p)
  }

  lemma FenceStartsFull(t: Trace, i: nat, k: Key)
    requires ValidTrace(t) && i < |t.events| && RaisesFence(t, i, k.profile)
    ensures AwaitsAccounting(LedgerOf(t.hosts[i + 1]), k) <==> ActiveAt(LedgerOf(t.hosts[i]), k)
  {
    hide EnvOk, PolicyOk, TombstonesOk, FencesOk, DemandOk;
    assert StepAt(t, i);
    LedgerValidAt(t, i);
    var l := LedgerOf(t.hosts[i]);
    assert LedgerOf(t.hosts[i + 1]) == Apply(l, Fence(k.profile));
    ActiveSlotsAreKeys(l, k);
  }

  lemma ActiveSlotsAreKeys(l: Ledger, k: Key)
    requires LeasesOk(l)
    ensures k.slot in SortedView(ActiveSlots(l.leases, k.profile)) <==> ActiveAt(l, k)
  {
    var view := SortedView(ActiveSlots(l.leases, k.profile));
    assert k.slot in view <==> k.slot in Elements(view);
    if k.slot in view {
      var j :| j in l.leases && l.leases[j].profileId == k.profile && l.leases[j].status.Active? && l.leases[j].slotKey == k.slot;
      assert LeaseOk(l, j);
      assert j == k;
    }
    if ActiveAt(l, k) { assert LeaseOk(l, k); }
  }

  /** The fence raised by event i has not been completed or dropped by a policy up to moment j. */
  ghost predicate Standing(t: Trace, i: nat, j: nat, p: string)
    requires ValidTrace(t) && j <= |t.events|
  {
    && (forall m :: i < m <= j ==> Knows(LedgerOf(t.hosts[m]).policy, p))
    && (forall m :: i < m < j ==> !CompletedAt(t, m, p))
  }

  /**
   As long as the policies in force keep the profile and no CompleteAdoption of it
   succeeds, the fence raised by event i stands, and a worker is pending behind it
   exactly when it was active at that event and has not been adopted, released or
   reconciled since.
   */
  lemma PendingIsExactlyUnaccounted(t: Trace, i: nat, j: nat, k: Key)
    requires ValidTrace(t) && i < j <= |t.events| && RaisesFence(t, i, k.profile) && Standing(t, i, j, k.profile)
    ensures Fenced(LedgerOf(t.hosts[j]), k.profile)
    ensures
      AwaitsAccounting(LedgerOf(t.hosts[j]), k) <==>
        ActiveAt(LedgerOf(t.hosts[i]), k) && forall m :: i < m < j ==> !AccountedAt(t, m, k)
  {
    hide StepAt, AwaitsAccounting, AccountedAt, ActiveAt, Fenced, CompletedAt, Knows;
    FenceStandsExactly(t, i + 1, j, k.profile);
    PendingWhileFenced(t, i, j, k);
  }

  lemma {:induction false} PendingWhileFenced(t: Trace, i: nat, j: nat, k: Key)
    requires ValidTrace(t) && i < j <= |t.events| && RaisesFence(t, i, k.profile)
    requires forall m :: i < m <= j ==> Fenced(LedgerOf(t.hosts[m]), k.profile)
    ensures
      AwaitsAccounting(LedgerOf(t.hosts[j]), k) <==>
        ActiveAt(LedgerOf(t.hosts[i]), k) && forall m :: i < m < j ==> !AccountedAt(t, m, k)
    decreases j
  {
    hide StepAt, AwaitsAccounting, AccountedAt, ActiveAt, Fenced, RaisesFence;
    if j == i + 1 {
      FenceStartsFull(t, i, k);
    } else {
      PendingWhileFenced(t, i, j - 1, k);
      if !AwaitsAccounting(LedgerOf(t.hosts[j - 1]), k) {
        ClearedEvent(t, j - 1, k);
      } else if AccountedAt(t, j - 1, k) {
        AccountedEvent(t, j - 1, k);
      } else {
        UnaccountedEvent(t, j - 1, k);
      }
    }
  }

  /**
   A CompleteAdoption of a fence that is still standing clears it exactly when every
   worker active at the fence's BeginAdoption has since been adopted, released or
   reconciled, given that its save succeeds.
   */
  lemma FenceClearsExactlyWhenAccounted(t: Trace, i: nat, j: nat, p: string)
    requires ValidTrace(t) && i < j < |t.events| && RaisesFence(t, i, p) && Standing(t, i, j, p)
    requires t.events[j].Do? && t.events[j].command == CmdCompleteAdoption(p) && t.events[j].env.saved
    ensures
      !Fenced(LedgerOf(t.hosts[j + 1]), p) <==>
        forall s {:trigger Key(p, s)} :: ActiveAt(LedgerOf(t.hosts[i]), Key(p, s)) ==>
          exists m :: i < m < j && AccountedAt(t, m, Key(p, s))
  {
    hide EnvOk, LeasesOk, TombstonesOk, DemandOk, PolicyOk, ReplyAt, RaisesFence, ActiveAt, AccountedAt, Standing;
    assert StepAt(t, j);
    LedgerValidAt(t, j);
    var l, l' := LedgerOf(t.hosts[j]), LedgerOf(t.hosts[j + 1]);
    PendingIsExactlyUnaccounted(t, i, j, Key(p, ""));
    assert FenceOk(l, p);
    var pending := l.fences[p].pending;
    assert pending == [] <==> forall s {:trigger Key(p, s)} :: !AwaitsAccounting(l, Key(p, s)) by {
      if pending != [] { assert AwaitsAccounting(l, Key(p, pending[0])); }
    }
    forall s {:trigger Key(p, s)}
      ensures AwaitsAccounting(l, Key(p, s)) <==>
        ActiveAt(LedgerOf(t.hosts[i]), Key(p, s)) && !exists m :: i < m < j && AccountedAt(t, m, Key(p, s))
    {
      PendingIsExactlyUnaccounted(t, i, j, Key(p, s));
    }
    CompletesWhenEmpty(NodeOf(t.hosts[j]), p, t.events[j].env);
  }

  lemma CompletesWhenEmpty(n: Node, p: string, env: Env)
    requires Fenced(n.mem.ledger, p) && ValidProfileId(p) && env.saved
    ensures !Fenced(CompleteAdoption(n, p, env).node.mem.ledger, p) <==> n.mem.ledger.fences[p].pending == []
  {}
}
