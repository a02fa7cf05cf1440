/**
 Lifetimes of leases over whole runs: identities are never reused, an identity
 that left the ledger never returns, active leases endure until their own
 release, a registration name is written once, and a lease is only promoted
 before its latest deadline.
 */
module Lifetimes {
  import opened Identity
  import opened Ordering
  import opened Policy
  import opened Leases
  import opened Admission
  import opened Ledgers
  import opened Commands
  import opened Invariants
  import opened Runs

  // ---------------------------------------------------------------------
  // Lease identities

  ghost predicate HasId(l: Ledger, id: string) {
    exists k :: k in l.leases && l.leases[k].leaseId == id
  }

  lemma IdNamesItsKey(l: Ledger, k: Key, k0: Key, s: nat)
    requires LeasesOk(l) && k in l.leases && ValidKey(k0) && l.leases[k].leaseId == LeaseIdText(k0, s)
    ensures k == k0 && l.leases[k].grantedAt == s
  {
    assert LeaseOk(l, k);
    LeaseIdTextInjective(k, l.leases[k].grantedAt, k0, s);
  }

  /** One edit never brings an identity back: new identities carry a new sequence. */
  lemma GoneStaysGoneStep(l: Ledger, e: Edit, k0: Key, s: nat)
    requires ValidLedger(l) && Enabled(l, e) && ValidKey(k0) && s <= l.sequence
    requires !HasId(l, LeaseIdText(k0, s))
    ensures !HasId(Apply(l, e), LeaseIdText(k0, s))
  {
    hide TombstonesOk, FencesOk, Compact, Swept, HasRoom, Accounted;
    var l', id := Apply(l, e), LeaseIdText(k0, s);
    if HasId(l', id) {
      var k :| k in l'.leases && l'.leases[k].leaseId == id;
      assert e.Grant? && e.key == k;
      LeaseIdTextInjective(k, l.sequence + 1, k0, s);
    }
  }

  lemma {:induction false} GoneStaysGone(l: Ledger, es: seq<Edit>, k0: Key, s: nat)
    requires ValidLedger(l) && AllEnabled(l, es) && ValidKey(k0) && s <= l.sequence
    requires !HasId(l, LeaseIdText(k0, s))
    ensures !HasId(After(l, es), LeaseIdText(k0, s))
    ensures l.sequence <= After(l, es).sequence
    decreases |es|
  {
    hide ValidLedger, Enabled, HasId, Apply;
    if es != [] {
      var front, last := es[..|es| - 1], es[|es| - 1];
      GoneStaysGone(l, front, k0, s);
      PathKeepsValid(l, front);
      EnabledIsDefined(After(l, front), last);
      EditFrame(After(l, front), last);
      GoneStaysGoneStep(After(l, front), last, k0, s);
    }
  }

  lemma {:induction false} SequenceGrows(l: Ledger, es: seq<Edit>)
    requires AllEnabled(l, es)
    ensures l.sequence <= After(l, es).sequence
    decreases |es|
  {
    hide Enabled, Apply;
    if es != [] {
      SequenceGrows(l, es[..|es| - 1]);
      EnabledIsDefined(After(l, es[..|es| - 1]), es[|es| - 1]);
      EditFrame(After(l, es[..|es| - 1]), es[|es| - 1]);
    }
  }

  /** Once a lease identity has left the ledger, no later moment of the run holds it again. */
  lemma RemovedIdNeverReturns(t: Trace, i: nat, m: nat, j: nat, k: Key)
    requires ValidTrace(t) && i <= m <= j <= |t.events|
    requires k in LedgerOf(t.hosts[i]).leases
    requires !HasId(LedgerOf(t.hosts[m]), LedgerOf(t.hosts[i]).leases[k].leaseId)
    ensures !HasId(LedgerOf(t.hosts[j]), LedgerOf(t.hosts[i]).leases[k].leaseId)
  {
    hide HasId, Next, Possible, NodeOk;
    var l, l', lease := LedgerOf(t.hosts[i]), LedgerOf(t.hosts[m]), LedgerOf(t.hosts[i]).leases[k];
    LedgerValidAt(t, i);
    LedgerValidAt(t, m);
    RunIsPath(t, i, m);
    RunIsPath(t, m, j);
    assert LeaseOk(l, k);
    SequenceGrows(l, Between(t, i, m));
    GoneStaysGone(l', Between(t, m, j), k, lease.grantedAt);
  }

  lemma LedgerValidAt(t: Trace, i: nat)
    requires ValidTrace(t) && i <= |t.events|
    ensures ValidLedger(LedgerOf(t.hosts[i])) && HostOk(t.hosts[i])
  {
    hide Next, Possible, ValidLedger;
    EveryHostOk(t, i);
    DocumentInForce(t.hosts[i]);
  }

  /** A lease of this moment that was granted during event i. */
  ghost predicate IssuedAt(t: Trace, i: nat, k: Key)
    requires i + 1 < |t.hosts|
  {
    && k in LedgerOf(t.hosts[i + 1]).leases
    && LedgerOf(t.hosts[i + 1]).leases[k].grantedAt > LedgerOf(t.hosts[i]).sequence
  }

  /** No two events of a run, restarts included, issue the same lease identity. */
  lemma LeaseIdsAreNeverReissued(t: Trace, i: nat, j: nat, a: Key, b: Key)
    requires ValidTrace(t) && i < j < |t.events| && IssuedAt(t, i, a) && IssuedAt(t, j, b)
    ensures LedgerOf(t.hosts[i + 1]).leases[a].leaseId != LedgerOf(t.hosts[j + 1]).leases[b].leaseId
  {
    hide Next, Possible, NodeOk, TombstonesOk, FencesOk, PolicyOk, LeaseIdText;
    var l, l' := LedgerOf(t.hosts[i + 1]), LedgerOf(t.hosts[j + 1]);
    LedgerValidAt(t, i + 1);
    LedgerValidAt(t, j + 1);
    assert LeaseOk(l, a) && LeaseOk(l', b);
    RunIsPath(t, i + 1, j);
    SequenceGrows(l, Between(t, i + 1, j));
    if l.leases[a].leaseId == l'.leases[b].leaseId {
      LeaseIdTextInjective(a, l.leases[a].grantedAt, b, l'.leases[b].grantedAt);
    }
  }

  /** A lease handed out by Acquire was issued by that very event. */
  lemma AcquireIssues(t: Trace, i: nat)
    requires ValidTrace(t) && i < |t.events| && t.events[i].Do? && t.events[i].command.CmdAcquire?
    requires ReplyAt(t, i).outcome.Leased?
    ensures
      var k := t.events[i].command.key;
      IssuedAt(t, i, k) && LedgerOf(t.hosts[i + 1]).leases[k] == ReplyAt(t, i).outcome.lease
  {
    hide EnvOk, PolicyOk, Acquire;
    assert StepAt(t, i);
    var c := t.events[i].command;
    AcquireReply(NodeOf(t.hosts[i]), c.key, c.pending, t.events[i].env);
  }

  lemma AcquireReply(n: Node, k: Key, pending: int, env: Env)
    requires Acquire(n, k, pending, env).outcome.Leased?
    ensures
      var r := Acquire(n, k, pending, env);
      && k in r.node.mem.ledger.leases && r.node.mem.ledger.leases[k] == r.outcome.lease
      && r.outcome.lease.grantedAt > n.mem.ledger.sequence
  {
    hide SweepPhase, AcquireSwept, Noted, ValidKey;
    NotedKeepsLeases(Reply(n, Failed(StoreFailure)), AcquireLease, k.profile, env);
    SweepSequence(n, env);
    var ready := ForgetStale(SweepPhase(n, env).value, env.now);
    NotedKeepsLeases(AcquireSwept(ready, k, pending, env), AcquireLease, k.profile, env);
    AcquireSweptReply(ready, k, pending, env);
  }

  lemma NotedKeepsLeases(r: Reply, command: LeaseCommand, profile: string, env: Env)
    ensures Noted(r, command, profile, env).outcome == r.outcome
    ensures Noted(r, command, profile, env).node.mem.ledger.leases == r.node.mem.ledger.leases
  {}

  lemma AcquireSweptReply(n: Node, k: Key, pending: int, env: Env)
    requires AcquireSwept(n, k, pending, env).outcome.Leased?
    ensures
      var r := AcquireSwept(n, k, pending, env);
      && k in r.node.mem.ledger.leases && r.node.mem.ledger.leases[k] == r.outcome.lease
      && r.outcome.lease.grantedAt > n.mem.ledger.sequence
  {
    hide VerdictFor, Compact, Swept;
  }

  lemma SweepSequence(n: Node, env: Env)
    requires SweepPhase(n, env).Some?
    ensures SweepPhase(n, env).value.mem.ledger.sequence >= n.mem.ledger.sequence
  {}

  // ---------------------------------------------------------------------
  // Which event committed an edit

  /** Event m committed edit e. */
  ghost predicate CausedBy(t: Trace, m: nat, e: Edit)
    requires ValidTrace(t) && m < |t.events|
  {
    match t.events[m]
    case Do(c, _) => Permitted(c, !ReplyAt(t, m).outcome.Failed?, e)
    case Crash => false
    case Open(_, _, _) => e.Sweep? && e.reason.RestartDiscarded?
  }

  lemma EventEdits(t: Trace, m: nat, e: Edit)
    requires ValidTrace(t) && m < |t.events|
    requires |t.hosts[m].history| <= |t.hosts[m + 1].history| && e in Between(t, m, m + 1)
    ensures CausedBy(t, m, e)
  {
    hide ValidLedger, Run, EnvOk, DemandOk, Extends, Apply, Permitted, Enumerates;
    assert StepAt(t, m);
    EveryHostOk(t, m);
    if t.events[m].Do? {
      CommandKeepsInvariant(NodeOf(t.hosts[m]), t.events[m].command, t.events[m].env);
    }
  }

  /** Every edit between two moments was committed by an event between them. */
  lemma {:induction false} EditsComeFromEvents(t: Trace, i: nat, j: nat, e: Edit)
    requires ValidTrace(t) && i <= j <= |t.events|
    requires |t.hosts[i].history| <= |t.hosts[j].history| && e in Between(t, i, j)
    ensures exists m :: i <= m < j && CausedBy(t, m, e)
    decreases j - i
  {
    hide HostOk, Next, Possible, CausedBy, AllEnabled, After;
    if i < j {
      RunIsPath(t, i, j - 1);
      RunIsPath(t, j - 1, j);
      assert Between(t, i, j) == Between(t, i, j - 1) + Between(t, j - 1, j);
      if e in Between(t, j - 1, j) {
        EventEdits(t, j - 1, e);
      } else {
        EditsComeFromEvents(t, i, j - 1, e);
      }
    }
  }

  // ---------------------------------------------------------------------
  // Active leases endure

  /** The same lease, up to a registration name that may be bound while still empty. */
  predicate SameLease(a: Lease, b: Lease) {
    && b == a.(registrationName := b.registrationName)
    && (a.registrationName != "" ==> b.registrationName == a.registrationName)
  }

  ghost predicate ActiveAt(l: Ledger, k: Key) {
    k in l.leases && l.leases[k].status.Active?
  }

  lemma ActiveStep(l: Ledger, e: Edit, k: Key)
    requires Enabled(l, e) && ActiveAt(l, k) && !(e.Remove? && e.key == k)
    ensures ActiveAt(Apply(l, e), k) && SameLease(l.leases[k], Apply(l, e).leases[k])
  {
    hide Compact, Swept, HasRoom, Accounted, ValidPolicy;
  }

  lemma {:induction false} ActivePath(l: Ledger, es: seq<Edit>, k: Key)
    requires AllEnabled(l, es) && ActiveAt(l, k)
    requires forall e :: e in es ==> !(e.Remove? && e.key == k)
    ensures ActiveAt(After(l, es), k) && SameLease(l.leases[k], After(l, es).leases[k])
    decreases |es|
  {
    hide Enabled, Apply;
    if es != [] {
      var front, last := es[..|es| - 1], es[|es| - 1];
      assert last in es && forall e :: e in front ==> e in es;
      ActivePath(l, front, k);
      ActiveStep(After(l, front), last, k);
    }
  }

  /** A successful release or reconciliation of exactly this key. */
  ghost predicate Removes(t: Trace, m: nat, k: Key)
    requires ValidTrace(t) && m < |t.events|
  {
    && t.events[m].Do?
    && (t.events[m].command == CmdRelease(k) || (t.events[m].command.CmdReconcile? && t.events[m].command.key == k))
    && !ReplyAt(t, m).outcome.Failed?
  }

  /**
   An active lease keeps its identity, units and bound name through time, policy
   changes, crashes and restarts until its own key is released or reconciled.
   */
  lemma ActiveLeaseEndures(t: Trace, i: nat, j: nat, k: Key)
    requires ValidTrace(t) && i <= j <= |t.events| && ActiveAt(LedgerOf(t.hosts[i]), k)
    requires forall m :: i <= m < j ==> !Removes(t, m, k)
    ensures ActiveAt(LedgerOf(t.hosts[j]), k)
    ensures SameLease(LedgerOf(t.hosts[i]).leases[k], LedgerOf(t.hosts[j]).leases[k])
  {
    hide HostOk, Next, Possible, AllEnabled, ReplyAt;
    RunIsPath(t, i, j);
    forall e | e in Between(t, i, j) ensures !(e.Remove? && e.key == k) {
      EditsComeFromEvents(t, i, j, e);
      var m :| i <= m < j && CausedBy(t, m, e);
      assert !Removes(t, m, k);
    }
    ActivePath(LedgerOf(t.hosts[i]), Between(t, i, j), k);
  }

  // ---------------------------------------------------------------------
  // Registration names

  lemma NameStep(l: Ledger, e: Edit, k: Key)
    requires ValidLedger(l) && Enabled(l, e) && k in l.leases && l.leases[k].registrationName != ""
    ensures
      var l' := Apply(l, e);
      k in l'.leases && l'.leases[k].leaseId == l.leases[k].leaseId ==>
        l'.leases[k].registrationName == l.leases[k].registrationName
  {
    hide TombstonesOk, FencesOk, Compact, Swept, HasRoom, Accounted, PolicyOk;
    assert LeaseOk(l, k);
  }

  /** While a lease identity lives, its registration name, once written, never changes. */
  lemma {:induction false} NamePath(l: Ledger, es: seq<Edit>, k: Key)
    requires ValidLedger(l) && AllEnabled(l, es) && k in l.leases && l.leases[k].registrationName != ""
    ensures
      var l' := After(l, es);
      k in l'.leases && l'.leases[k].leaseId == l.leases[k].leaseId ==>
        l'.leases[k].registrationName == l.leases[k].registrationName
    decreases |es|
  {
    hide Enabled, Apply, TombstonesOk, FencesOk, PolicyOk, LeaseIdText;
    if es != [] {
      var front, last := es[..|es| - 1], es[|es| - 1];
      var mid, l', id := After(l, front), After(l, es), l.leases[k].leaseId;
      NamePath(l, front, k);
      PathKeepsValid(l, front);
      SequenceGrows(l, front);
      assert LeaseOk(l, k);
      if k in mid.leases && mid.leases[k].leaseId == id {
        NameStep(mid, last, k);
      } else {
        assert !HasId(mid, id) by {
          if HasId(mid, id) {
            var k' :| k' in mid.leases && mid.leases[k'].leaseId == id;
            IdNamesItsKey(mid, k', k, l.leases[k].grantedAt);
          }
        }
        GoneStaysGoneStep(mid, last, k, l.leases[k].grantedAt);
        assert k in l'.leases && l'.leases[k].leaseId == id ==> HasId(l', id);
      }
    }
  }

  lemma RegistrationNameIsWrittenOnce(t: Trace, i: nat, j: nat, k: Key)
    requires ValidTrace(t) && i <= j <= |t.events|
    requires k in LedgerOf(t.hosts[i]).leases && LedgerOf(t.hosts[i]).leases[k].registrationName != ""
    requires k in LedgerOf(t.hosts[j]).leases
    requires LedgerOf(t.hosts[j]).leases[k].leaseId == LedgerOf(t.hosts[i]).leases[k].leaseId
    ensures LedgerOf(t.hosts[j]).leases[k].registrationName == LedgerOf(t.hosts[i]).leases[k].registrationName
  {
    hide NodeOk, Next, Possible, AllEnabled, ValidLedger;
    LedgerValidAt(t, i);
    RunIsPath(t, i, j);
    NamePath(LedgerOf(t.hosts[i]), Between(t, i, j), k);
  }

  // ---------------------------------------------------------------------
  // Policy generations

  lemma {:induction false} PolicyPath(l: Ledger, es: seq<Edit>)
    requires AllEnabled(l, es)
    ensures
      var h := After(l, es).policy;
      h.generation > l.policy.generation || h == l.policy
    decreases |es|
  {
    hide Apply, Enabled;
    if es != [] {
      var front, last := es[..|es| - 1], es[|es| - 1];
      PolicyPath(l, front);
      PolicyEdit(After(l, front), last);
    }
  }

  lemma PolicyEdit(l: Ledger, e: Edit)
    requires Enabled(l, e)
    ensures
      var h := Apply(l, e).policy;
      h.generation > l.policy.generation || h == l.policy
  {
    hide ValidPolicy, HasRoom, Compact, Swept, Accounted;
  }

  /**
   A replayed or reordered publication never moves admission back: over a run, crashes
   and restarts included, the policy in force stays the same or gets a newer generation.
   */
  lemma PolicyNeverMovesBack(t: Trace, i: nat, j: nat)
    requires ValidTrace(t) && i <= j <= |t.events|
    ensures
      var h, h' := LedgerOf(t.hosts[i]).policy, LedgerOf(t.hosts[j]).policy;
      h'.generation > h.generation || h' == h
  {
    hide HostOk, Next, Possible, AllEnabled;
    RunIsPath(t, i, j);
    PolicyPath(LedgerOf(t.hosts[i]), Between(t, i, j));
  }
}
