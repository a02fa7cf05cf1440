/**
 The unit budget over whole runs: a granted acquire always ends within the
 budget, and apart from adopting running workers and publishing a new policy
 nothing ever raises the held units beyond it.
 */
module Budget {
  import opened Identity
  import opened Ordering
  import opened FairShare
  import opened Policy
  import opened Sums
  import opened Leases
  import opened Admission
  import opened Ledgers
  import opened Commands
  import opened Invariants
  import opened Runs
  import opened Lifetimes

  /** An edit that neither publishes a policy nor adopts a worker without a lease. */
  predicate Ordinary(e: Edit) {
    !e.ApplyPolicy? && !(e.Grant? && e.status.Active?)
  }

  lemma AmendKeepsWeight(l: Ledger, e: Edit, who: Option<string>)
    requires Enabled(l, e) && (e.Bind? || e.Renew? || e.Promote?)
    ensures Weight(Apply(l, e).leases, who) == Weight(l.leases, who)
  {
    hide Compact, Swept, Accounted;
    WeightPut(l.leases, e.key, Apply(l, e).leases[e.key], who);
  }

  lemma UnitsArePositive(l: Ledger)
    requires LeasesOk(l)
    ensures PositiveUnits(l.leases)
  {
    forall k | k in l.leases ensures l.leases[k].units >= 1 { assert LeaseOk(l, k); }
  }

  /** An ordinary edit ends within the budget, or does not raise the held units. */
  lemma OrdinaryStep(l: Ledger, e: Edit)
    requires ValidLedger(l) && Enabled(l, e) && Ordinary(e)
    ensures TotalHeld(Apply(l, e).leases) <= Max(TotalHeld(l.leases), l.policy.totalUnits)
  {
    hide TombstonesOk, FencesOk, PolicyOk, Compact, Swept, Accounted, LeaseOk;
    UnitsArePositive(l);
    match e
    case Sweep(order, _) => WeightDrop(l.leases, Elements(order), None);
    case Remove(k, _, _) => WeightDrop(l.leases, {k}, None);
    case Grant(k, units, status, expiresAt) =>
      HeldMapSum(l.leases);
      WeightPut(l.leases, k, Apply(l, e).leases[k], None);
    case Bind(_, _) => AmendKeepsWeight(l, e, None);
    case Renew(_, _) => AmendKeepsWeight(l, e, None);
    case Promote(_, _) => AmendKeepsWeight(l, e, None);
    case _ =>
  }

  lemma {:induction false} OrdinaryPath(l: Ledger, es: seq<Edit>)
    requires ValidLedger(l) && AllEnabled(l, es) && forall e :: e in es ==> Ordinary(e)
    ensures TotalHeld(After(l, es).leases) <= Max(TotalHeld(l.leases), l.policy.totalUnits)
    ensures After(l, es).policy == l.policy
    decreases |es|
  {
    hide ValidLedger, Enabled, Apply, TotalHeld;
    if es != [] {
      var front, last := es[..|es| - 1], es[|es| - 1];
      assert last in es && forall e :: e in front ==> e in es;
      OrdinaryPath(l, front);
      PathKeepsValid(l, front);
      EnabledIsDefined(After(l, front), last);
      EditFrame(After(l, front), last);
      OrdinaryStep(After(l, front), last);
    }
  }

  // ---------------------------------------------------------------------
  // Over whole runs

  ghost predicate PublishesPolicy(t: Trace, m: nat)
    requires ValidTrace(t) && m < |t.events|
  {
    t.events[m].Do? && t.events[m].command.CmdApplyPolicy? && !ReplyAt(t, m).outcome.Failed?
  }

  /** The event adopted a running worker that had no lease. */
  ghost predicate AdoptsAnew(t: Trace, m: nat)
    requires ValidTrace(t) && m < |t.events|
  {
    && t.events[m].Do? && t.events[m].command.CmdAdopt? && !ReplyAt(t, m).outcome.Failed?
    && IssuedAt(t, m, t.events[m].command.key)
  }

  lemma AdoptionGrantIsIssued(t: Trace, m: nat, e: Edit)
    requires ValidTrace(t) && m < |t.events|
    requires |t.hosts[m].history| <= |t.hosts[m + 1].history| && e in Between(t, m, m + 1)
    requires e.Grant? && e.status.Active?
    ensures AdoptsAnew(t, m)
  {
    hide HostOk, Next, Possible, ReplyAt;
    EventEdits(t, m, e);
    RunIsPath(t, m, m + 1);
    var l, es := LedgerOf(t.hosts[m]), Between(t, m, m + 1);
    var i :| 0 <= i < |es| && es[i] == e;
    forall x | x in es ensures !(x.Remove? && x.key == e.key) {
      EventEdits(t, m, x);
    }
    GrantSurvives(l, es, i);
  }

  /** A lease granted active inside a path is still there at its end unless its key was removed. */
  lemma {:induction false} GrantSurvives(l: Ledger, es: seq<Edit>, i: nat)
    requires AllEnabled(l, es) && i < |es| && es[i].Grant? && es[i].status.Active?
    requires forall x :: x in es ==> !(x.Remove? && x.key == es[i].key)
    ensures es[i].key in After(l, es).leases && After(l, es).leases[es[i].key].grantedAt > l.sequence
    ensures ActiveAt(After(l, es), es[i].key)
    decreases |es|
  {
    hide Enabled, Compact, Swept, Accounted;
    var front, last, k := es[..|es| - 1], es[|es| - 1], es[i].key;
    SequenceGrows(l, front);
    if i < |es| - 1 {
      assert front[i] == es[i] && last in es && forall x :: x in front ==> x in es;
      GrantSurvives(l, front, i);
      ActiveStep(After(l, front), last, k);
    }
  }

  /** Between publications and adoptions of new workers the policy in force stays the same. */
  lemma SegmentIsOrdinary(t: Trace, i: nat, j: nat)
    requires ValidTrace(t) && i <= j <= |t.events|
    requires forall m :: i <= m < j ==> !PublishesPolicy(t, m) && !AdoptsAnew(t, m)
    ensures |t.hosts[i].history| <= |t.hosts[j].history|
    ensures forall e :: e in Between(t, i, j) ==> Ordinary(e)
    decreases j - i
  {
    hide HostOk, Next, Possible, AllEnabled, ReplyAt, AdoptsAnew;
    RunIsPath(t, i, j);
    if i < j {
      SegmentIsOrdinary(t, i, j - 1);
      RunIsPath(t, j - 1, j);
      forall e | e in Between(t, j - 1, j) ensures Ordinary(e) {
        EventEdits(t, j - 1, e);
        assert !PublishesPolicy(t, j - 1);
        if e.Grant? && e.status.Active? { AdoptionGrantIsIssued(t, j - 1, e); }
      }
      assert Between(t, i, j) == Between(t, i, j - 1) + Between(t, j - 1, j);
    }
  }

  /**
   Without a new policy and without newly adopted workers, the units held at a
   later moment never exceed the larger of the budget and the units held before:
   a ledger within budget stays within it, one above it can only come down.
   */
  lemma HeldUnitsStayWithinBudget(t: Trace, i: nat, j: nat)
    requires ValidTrace(t) && i <= j <= |t.events|
    requires forall m :: i <= m < j ==> !PublishesPolicy(t, m) && !AdoptsAnew(t, m)
    ensures
      TotalHeld(LedgerOf(t.hosts[j]).leases) <=
        Max(TotalHeld(LedgerOf(t.hosts[i]).leases), LedgerOf(t.hosts[i]).policy.totalUnits)
    ensures LedgerOf(t.hosts[j]).policy == LedgerOf(t.hosts[i]).policy
  {
    hide NodeOk, Next, Possible, AllEnabled, ValidLedger, TotalHeld, PublishesPolicy, AdoptsAnew;
    LedgerValidAt(t, i);
    RunIsPath(t, i, j);
    SegmentIsOrdinary(t, i, j);
    OrdinaryPath(LedgerOf(t.hosts[i]), Between(t, i, j));
  }

  /** After a granted acquire all leases together, whoever holds them, fit the budget. */
  lemma GrantedAcquireFitsBudget(n: Node, k: Key, pending: int, env: Env)
    requires Acquire(n, k, pending, env).outcome.Leased?
    ensures
      var l := Acquire(n, k, pending, env).node.mem.ledger;
      TotalHeld(l.leases) <= l.policy.totalUnits
  {
    hide SweepPhase, Compact, Swept, ValidKey, AcquireSwept, TotalHeld;
    GrantedSweptFitsBudget(ForgetStale(SweepPhase(n, env).value, env.now), k, pending, env);
  }

  lemma GrantedSweptFitsBudget(n: Node, k: Key, pending: int, env: Env)
    requires AcquireSwept(n, k, pending, env).outcome.Leased?
    ensures
      var l := AcquireSwept(n, k, pending, env).node.mem.ledger;
      TotalHeld(l.leases) <= l.policy.totalUnits
  {
    hide Compact, Swept, Contenders, FairUnits, Protected, HeldMap, MapSum, Weight;
    var l := AcquireSwept(n, k, pending, env).node.mem.ledger;
    HeldMapSum(n.mem.ledger.leases);
    WeightPut(n.mem.ledger.leases, k, l.leases[k], None);
  }
}
