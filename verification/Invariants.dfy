/**
 What every command keeps: a valid ledger that agrees with the store, deadlines
 for exactly the provisional leases, and consistent demand. Each command also
 extends the history by enabled edits only, so any two moments of a run are
 linked by a path of edits.
 */
module Invariants {
  import opened Identity
  import opened Ordering
  import opened FairShare
  import opened Policy
  import opened Leases
  import opened Admission
  import opened Ledgers
  import opened Commands

  // ---------------------------------------------------------------------
  // Paths of edits

  ghost predicate AllEnabled(l: Ledger, es: seq<Edit>)
    decreases |es|, 0
  {
    es == [] ||
    (AllEnabled(l, es[..|es| - 1]) && Enabled(After(l, es[..|es| - 1]), es[|es| - 1]))
  }

  ghost function After(l: Ledger, es: seq<Edit>): Ledger
    requires AllEnabled(l, es)
    decreases |es|, 1
  {
    if es == [] then l else Apply(After(l, es[..|es| - 1]), es[|es| - 1])
  }

  lemma {:induction false} PathJoin(l: Ledger, a: seq<Edit>, b: seq<Edit>)
    requires AllEnabled(l, a) && AllEnabled(After(l, a), b)
    ensures AllEnabled(l, a + b) && After(l, a + b) == After(After(l, a), b)
    decreases |b|
  {
    hide Enabled, Apply;
    if b == [] {
      assert a + b == a;
    } else {
      PathJoin(l, a, b[..|b| - 1]);
      assert (a + b)[..|a + b| - 1] == a + b[..|b| - 1];
    }
  }

  lemma {:induction false} PathKeepsValid(l: Ledger, es: seq<Edit>)
    requires ValidLedger(l) && AllEnabled(l, es)
    ensures ValidLedger(After(l, es))
    decreases |es|
  {
    hide ValidLedger, Enabled, Apply;
    if es != [] {
      PathKeepsValid(l, es[..|es| - 1]);
      EditKeepsValid(After(l, es[..|es| - 1]), es[|es| - 1]);
    }
  }

  /** From `before` to `after` the history grew by enabled edits that explain the new ledger. */
  ghost predicate Extends(l: Ledger, h: seq<Edit>, l': Ledger, h': seq<Edit>) {
    h <= h' && AllEnabled(l, h'[|h|..]) && After(l, h'[|h|..]) == l'
  }

  lemma ExtendsByOne(l: Ledger, e: Edit, h: seq<Edit>)
    requires Enabled(l, e)
    ensures Extends(l, h, Apply(l, e), h + [e])
  {
    hide Enabled;
    var es := (h + [e])[|h|..];
    assert es == [e] && es[..|es| - 1] == [];
    assert AllEnabled(l, []) && After(l, []) == l;
    assert AllEnabled(l, es);
  }

  lemma ExtendsTransitive(l: Ledger, h: seq<Edit>, l1: Ledger, h1: seq<Edit>, l2: Ledger, h2: seq<Edit>)
    requires Extends(l, h, l1, h1) && Extends(l1, h1, l2, h2)
    ensures Extends(l, h, l2, h2)
  {
    hide AllEnabled, After;
    PathJoin(l, h1[|h|..], h2[|h1|..]);
    assert h2[|h|..] == h1[|h|..] + h2[|h1|..];
  }

  // ---------------------------------------------------------------------
  // The invariant

  /** Store and memory agree, and exactly the provisional leases have a deadline. */
  ghost predicate DurableOk(n: Node) {
    && ValidLedger(n.mem.ledger)
    && (n.stored == Some(n.mem.ledger) || (n.stored.None? && n.mem.ledger == NEW_LEDGER))
    && n.mem.deadlines.Keys == ProvisionalKeys(n.mem.ledger.leases)
  }

  ghost predicate DemandOk(m: Memory) {
    && m.demand.Keys == m.demandDeadlines.Keys
    && m.demand.Keys <= m.known
    && (forall p :: p in m.demand ==> m.demand[p] >= 1)
    && (forall p {:trigger Knows(m.ledger.policy, p)} :: p in m.known ==> Knows(m.ledger.policy, p))
  }

  ghost predicate NodeOk(n: Node) {
    DurableOk(n) && DemandOk(n.mem) && n.mem.ttl > 0
  }

  /** The sweep order visits every due lease exactly once. */
  ghost predicate EnvOk(n: Node, env: Env) {
    Enumerates(env.order, Due(n.mem, env.now))
  }

  /** Which edits a command may commit; its own edit implies that the command succeeded. */
  predicate Permitted(c: Command, ok: bool, e: Edit) {
    match e
    case Note(_) => true
    case Sweep(_, reason) => reason.Expired?
    case ApplyPolicy(h) => ok && c == CmdApplyPolicy(h)
    case Fence(p) => ok && c == CmdBeginAdoption(p)
    case Unfence(p) => ok && c == CmdCompleteAdoption(p)
    case Grant(k, _, status, _) => ok && if status.Provisional? then c.CmdAcquire? && c.key == k else c == CmdAdopt(k)
    case Bind(k, name) => ok && c == CmdBindRegistration(k, name)
    case Renew(k, _) => ok && c == CmdRenew(k)
    case Promote(k, adopting) => ok && c == if adopting then CmdAdopt(k) else CmdActivate(k)
    case Account(k) => ok && c == CmdAdopt(k)
    case Remove(k, _, _) => ok && (c == CmdRelease(k) || (c.CmdReconcile? && c.key == k))
  }

  /** The step from n to n' of command c commits enabled edits that belong to c. */
  ghost predicate Grows(c: Command, ok: bool, n: Node, n': Node) {
    && Extends(n.mem.ledger, n.history, n'.mem.ledger, n'.history)
    && forall e :: e in n'.history[|n.history|..] ==> Permitted(c, ok, e)
  }

  /** The reply r to command c in node n keeps the invariant. */
  ghost predicate Keeps(c: Command, n: Node, r: Reply) {
    NodeOk(r.node) && Grows(c, !r.outcome.Failed?, n, r.node)
  }

  /** Status and every well-formed lease command sweep before they do anything else. */
  predicate SweepsFirst(c: Command) {
    match c
    case CmdStatus => true
    case CmdAcquire(k, _) => ValidKey(k)
    case CmdBindRegistration(k, name) => ValidKey(k) && ValidRegistrationName(name)
    case CmdAdopt(k) => ValidKey(k)
    case CmdRenew(k) => ValidKey(k)
    case CmdActivate(k) => ValidKey(k)
    case CmdRelease(k) => ValidKey(k)
    case CmdReconcile(k, evidence) => ValidKey(k) && evidence.Some?
    case _ => false
  }

  /** The command keeps the invariant, and all it does happens after a successful sweep. */
  ghost predicate KeepsSwept(c: Command, n: Node, env: Env, r: Reply) {
    && Keeps(c, n, r)
    && (SweepsFirst(c) && SweepPhase(n, env).Some? ==> Grows(c, !r.outcome.Failed?, SweepPhase(n, env).value, r.node))
    && (SweepsFirst(c) && SweepPhase(n, env).None? ==> r.outcome.Failed?)
  }

  lemma GrowsReflexive(c: Command, ok: bool, n: Node)
    ensures Grows(c, ok, n, n)
  {
    assert n.history[|n.history|..] == [];
  }

  lemma GrowsTransitive(c: Command, ok: bool, x: Node, y: Node, z: Node)
    requires Grows(c, ok, x, y) && Grows(c, ok, y, z)
    ensures Grows(c, ok, x, z)
  {
    hide AllEnabled, After, Permitted;
    ExtendsTransitive(x.mem.ledger, x.history, y.mem.ledger, y.history, z.mem.ledger, z.history);
    assert z.history[|x.history|..] == y.history[|x.history|..] + z.history[|y.history|..];
  }

  lemma CommitOk(c: Command, ok: bool, n: Node, e: Edit, deadlines: map<Key, int>)
    requires DurableOk(n) && Enabled(n.mem.ledger, e) && Permitted(c, ok, e)
    requires deadlines.Keys == ProvisionalKeys(Apply(n.mem.ledger, e).leases)
    ensures DurableOk(Commit(n, e, deadlines)) && Grows(c, ok, n, Commit(n, e, deadlines))
  {
    hide ValidLedger, Enabled, Apply, Extends;
    EditKeepsValid(n.mem.ledger, e);
    ExtendsByOne(n.mem.ledger, e, n.history);
    assert (n.history + [e])[|n.history|..] == [e];
  }

  /** Edits other than a new policy keep the profiles that demand refers to. */
  lemma CommitKeepsDemand(n: Node, e: Edit, deadlines: map<Key, int>)
    requires DemandOk(n.mem) && Defined(n.mem.ledger, e) && !e.ApplyPolicy?
    ensures DemandOk(Commit(n, e, deadlines).mem)
  {
    assert Apply(n.mem.ledger, e).policy == n.mem.ledger.policy;
  }

  lemma ForgetKeepsDemand(m: Memory, profiles: set<string>)
    requires DemandOk(m)
    ensures DemandOk(ForgetDemand(m, profiles))
  {}

  lemma QuietCommitOk(c: Command, ok: bool, n: Node, e: Edit)
    requires NodeOk(n) && Enabled(n.mem.ledger, e) && !e.ApplyPolicy? && Permitted(c, ok, e)
    requires ProvisionalKeys(Apply(n.mem.ledger, e).leases) == ProvisionalKeys(n.mem.ledger.leases)
    ensures NodeOk(Commit(n, e, n.mem.deadlines)) && Grows(c, ok, n, Commit(n, e, n.mem.deadlines))
  {
    CommitOk(c, ok, n, e, n.mem.deadlines);
    CommitKeepsDemand(n, e, n.mem.deadlines);
  }

  // ---------------------------------------------------------------------
  // Phases

  lemma SweepEnabled(n: Node, env: Env)
    requires NodeOk(n) && EnvOk(n, env) && Due(n.mem, env.now) != {}
    ensures Enabled(n.mem.ledger, Sweep(env.order, Expired))
  {
    assert forall k :: k in env.order ==> k in Elements(env.order);
  }

  lemma SweepOk(c: Command, ok: bool, n: Node, env: Env)
    requires NodeOk(n) && EnvOk(n, env) && SweepPhase(n, env).Some?
    ensures NodeOk(SweepPhase(n, env).value) && Grows(c, ok, n, SweepPhase(n, env).value)
  {
    hide ValidLedger, Compact, Swept;
    var due := Due(n.mem, env.now);
    if due == {} {
      GrowsReflexive(c, ok, n);
    } else {
      SweepEnabled(n, env);
      var e := Sweep(env.order, Expired);
      assert ProvisionalKeys(Apply(n.mem.ledger, e).leases) == ProvisionalKeys(n.mem.ledger.leases) - due;
      CommitOk(c, ok, n, e, n.mem.deadlines - due);
      CommitKeepsDemand(n, e, n.mem.deadlines - due);
      ForgetKeepsDemand(Commit(n, e, n.mem.deadlines - due).mem, ProfilesOf(n.mem.ledger.leases, due));
    }
  }

  /** After a sweep nothing is due, and everything a sweep does not concern is as before. */
  lemma SweepLeavesNothingDue(n: Node, env: Env)
    requires EnvOk(n, env) && SweepPhase(n, env).Some?
    ensures
      var n' := SweepPhase(n, env).value;
      && Due(n'.mem, env.now) == {}
      && n'.mem.ledger.leases == n.mem.ledger.leases - Due(n.mem, env.now)
      && n'.mem.deadlines == n.mem.deadlines - Due(n.mem, env.now)
      && n'.mem.ledger.policy == n.mem.ledger.policy
      && n'.mem.ledger.fences == n.mem.ledger.fences
      && n'.mem.rotation == n.mem.rotation && n'.mem.ttl == n.mem.ttl
  {}

  lemma ForgetStaleOk(c: Command, ok: bool, n: Node, now: int)
    requires NodeOk(n)
    ensures NodeOk(ForgetStale(n, now)) && Grows(c, ok, n, ForgetStale(n, now))
  {
    hide ValidLedger;
    ForgetKeepsDemand(n.mem, StaleDemand(n.mem, now));
    GrowsReflexive(c, ok, n);
  }

  lemma NotedOk(c: Command, r: Reply, command: LeaseCommand, profile: string, env: Env)
    requires NodeOk(r.node) && ValidProfileId(profile)
    ensures Keeps(c, r.node, Noted(r, command, profile, env))
  {
    hide ValidLedger;
    var ok := !r.outcome.Failed?;
    GrowsReflexive(c, ok, r.node);
    if env.noteSaved {
      var d := Decision(r.node.mem.ledger.sequence, command, profile, ok,
                        if r.outcome.Failed? then Some(r.outcome.error) else None, env.now);
      QuietCommitOk(c, ok, r.node, Note(d));
    }
  }

  /** A command body that runs between the sweep and the decision record. */
  lemma WrappedOk(c: Command, n: Node, swept: Option<Node>, r: Reply, command: LeaseCommand, profile: string, env: Env)
    requires NodeOk(n) && EnvOk(n, env) && swept == SweepPhase(n, env) && ValidProfileId(profile)
    requires if swept.Some? then Keeps(c, swept.value, r) else r.node == n && r.outcome.Failed?
    ensures KeepsSwept(c, n, env, Noted(r, command, profile, env))
  {
    hide NodeOk, Extends, EnvOk, SweepPhase;
    var ok := !r.outcome.Failed?;
    if swept.Some? {
      SweepOk(c, ok, n, env);
      GrowsTransitive(c, ok, n, swept.value, r.node);
    } else {
      GrowsReflexive(c, ok, n);
    }
    NotedOk(c, r, command, profile, env);
    if swept.Some? { GrowsTransitive(c, ok, swept.value, r.node, Noted(r, command, profile, env).node); }
    GrowsTransitive(c, ok, n, r.node, Noted(r, command, profile, env).node);
  }

  // ---------------------------------------------------------------------
  // Commands

  lemma SetPolicyOk(n: Node, h: HostPolicy, env: Env)
    requires NodeOk(n)
    ensures Keeps(CmdApplyPolicy(h), n, SetPolicy(n, h, env))
  {
    hide ValidLedger;
    var c := CmdApplyPolicy(h);
    GrowsReflexive(c, false, n);
    if ValidPolicy(h) && h.generation > n.mem.ledger.policy.generation && env.saved {
      CommitOk(c, true, n, ApplyPolicy(h), n.mem.deadlines);
    }
  }

  lemma SetDemandOk(n: Node, p: string, pending: int, env: Env)
    requires NodeOk(n)
    ensures Keeps(CmdSetDemand(p, pending), n, SetDemand(n, p, pending, env))
  {
    hide ValidLedger;
    var c := CmdSetDemand(p, pending);
    GrowsReflexive(c, !SetDemand(n, p, pending, env).outcome.Failed?, n);
    ForgetStaleOk(c, true, n, env.now);
  }

  lemma BeginAdoptionOk(n: Node, p: string, env: Env)
    requires NodeOk(n)
    ensures Keeps(CmdBeginAdoption(p), n, BeginAdoption(n, p, env))
  {
    hide ValidLedger;
    var c := CmdBeginAdoption(p);
    GrowsReflexive(c, true, n);
    GrowsReflexive(c, false, n);
    if ValidProfileId(p) && Knows(n.mem.ledger.policy, p) && p !in n.mem.ledger.fences && env.saved {
      QuietCommitOk(c, true, n, Fence(p));
    }
  }

  lemma CompleteAdoptionOk(n: Node, p: string, env: Env)
    requires NodeOk(n)
    ensures Keeps(CmdCompleteAdoption(p), n, CompleteAdoption(n, p, env))
  {
    hide ValidLedger;
    var c := CmdCompleteAdoption(p);
    GrowsReflexive(c, true, n);
    GrowsReflexive(c, false, n);
    if p in n.mem.ledger.fences && n.mem.ledger.fences[p].pending == [] && env.saved {
      QuietCommitOk(c, true, n, Unfence(p));
    }
  }

  lemma AdmittedGrantEnabled(m: Memory, k: Key, expiresAt: int)
    requires ValidKey(k) && k !in m.ledger.leases && m.ledger.fences == map[]
    requires Knows(m.ledger.policy, k.profile) && VerdictFor(m, k.profile).Admit?
    ensures
      Enabled(m.ledger, Grant(k, Lookup(m.ledger.policy.profiles, k.profile).value.unitCost, Provisional, expiresAt))
  {
    var l := m.ledger;
    AdmittedHasRoom(l.policy, Contenders(l.policy, m.demand), m.rotation,
                    Lookup(l.policy.profiles, k.profile).value, HeldMap(l.leases));
  }

  lemma ConsumedOk(m: Memory, p: string, want: int)
    requires DemandOk(m) && p in m.demand && want >= 1
    ensures DemandOk(Consumed(m, p, want))
  {}

  lemma GrantCommitOk(c: Command, n: Node, e: Edit, deadlines: map<Key, int>)
    requires NodeOk(n) && e.Grant? && Enabled(n.mem.ledger, e) && Permitted(c, true, e)
    requires deadlines.Keys == n.mem.deadlines.Keys + if e.status.Provisional? then {e.key} else {}
    ensures NodeOk(Commit(n, e, deadlines)) && Grows(c, true, n, Commit(n, e, deadlines))
  {
    hide ValidLedger, Contenders, HasRoom, ValidKey;
    assert ProvisionalKeys(Apply(n.mem.ledger, e).leases) == deadlines.Keys;
    CommitOk(c, true, n, e, deadlines);
    CommitKeepsDemand(n, e, deadlines);
  }

  lemma GrantToOk(n: Node, k: Key, pending: int, want: int, contenders: nat, env: Env)
    requires NodeOk(n) && ValidKey(k) && k !in n.mem.ledger.leases && n.mem.ledger.fences == map[]
    requires Knows(n.mem.ledger.policy, k.profile) && VerdictFor(n.mem, k.profile).Admit?
    requires want >= 1 && k.profile in n.mem.demand
    ensures Keeps(CmdAcquire(k, pending), n, GrantTo(n, k, want, contenders, env))
  {
    hide ValidLedger, HeldMap, Decide, Apply, Contenders;
    var l := n.mem.ledger;
    var deadline := env.now + n.mem.ttl;
    var e := Grant(k, Lookup(l.policy.profiles, k.profile).value.unitCost, Provisional, deadline);
    AdmittedGrantEnabled(n.mem, k, deadline);
    GrantCommitOk(CmdAcquire(k, pending), n, e, n.mem.deadlines[k := deadline]);
    var next := Commit(n, e, n.mem.deadlines[k := deadline]);
    ConsumedOk(next.mem, k.profile, want);
    assert GrantTo(n, k, want, contenders, env).node ==
      next.(mem := Turned(Consumed(next.mem, k.profile, want), contenders));
  }

  lemma WithDemandOk(n: Node, p: string, want: int, deadline: int)
    requires NodeOk(n) && Knows(n.mem.ledger.policy, p) && want >= 1
    ensures NodeOk(n.(mem := WithDemand(n.mem, p, want, deadline)))
  {
    hide ValidLedger;
  }

  lemma AcquireSweptOk(n: Node, k: Key, pending: int, env: Env)
    requires NodeOk(n) && ValidKey(k)
    ensures Keeps(CmdAcquire(k, pending), n, AcquireSwept(n, k, pending, env))
  {
    hide ValidLedger, HeldMap, Decide, Apply, NodeOk, Extends, GrantTo, Contenders, Permitted;
    var c, l := CmdAcquire(k, pending), n.mem.ledger;
    GrowsReflexive(c, true, n);
    GrowsReflexive(c, false, n);
    if l.fences == map[] && k !in l.leases && Knows(l.policy, k.profile) {
      var want := Max(pending, 1);
      var asked := n.(mem := WithDemand(n.mem, k.profile, want, env.now + DEMAND_TTL));
      WithDemandOk(n, k.profile, want, env.now + DEMAND_TTL);
      if VerdictFor(asked.mem, k.profile).Admit? {
        GrantToOk(asked, k, pending, want, VerdictFor(asked.mem, k.profile).contenders, env);
      }
    }
  }

  lemma AcquireOk(n: Node, k: Key, pending: int, env: Env)
    requires NodeOk(n) && EnvOk(n, env)
    ensures KeepsSwept(CmdAcquire(k, pending), n, env, Acquire(n, k, pending, env))
  {
    hide NodeOk, EnvOk, Extends, SweepPhase, AcquireSwept, Permitted;
    var c := CmdAcquire(k, pending);
    GrowsReflexive(c, false, n);
    if ValidKey(k) {
      var swept := SweepPhase(n, env);
      var r := Reply(n, Failed(StoreFailure));
      if swept.Some? {
        var ready := ForgetStale(swept.value, env.now);
        r := AcquireSwept(ready, k, pending, env);
        SweepOk(c, true, n, env);
        ForgetStaleOk(c, !r.outcome.Failed?, swept.value, env.now);
        AcquireSweptOk(ready, k, pending, env);
        GrowsTransitive(c, !r.outcome.Failed?, swept.value, ready, r.node);
      }
      WrappedOk(c, n, swept, r, AcquireLease, k.profile, env);
    }
  }

  lemma LeaseEditedOk(c: Command, n: Node, e: Edit, deadlines: map<Key, int>)
    requires NodeOk(n) && (e.Bind? || e.Renew? || e.Promote?) && Enabled(n.mem.ledger, e) && Permitted(c, true, e)
    requires deadlines.Keys == if e.Promote? then n.mem.deadlines.Keys - {e.key} else n.mem.deadlines.Keys
    ensures Keeps(c, n, LeaseEdited(n, e, deadlines))
  {
    hide ValidLedger, Apply, DemandOk, Permitted, Grows;
    EditedProvisionals(n.mem.ledger, e);
    CommitOk(c, true, n, e, deadlines);
    CommitKeepsDemand(n, e, deadlines);
  }

  lemma EditedProvisionals(l: Ledger, e: Edit)
    requires (e.Bind? || e.Renew? || e.Promote?) && Defined(l, e) && (e.Promote? ==> l.leases[e.key].status.Provisional?)
    ensures ProvisionalKeys(Apply(l, e).leases) == ProvisionalKeys(l.leases) - if e.Promote? then {e.key} else {}
  {
    hide Compact, Swept, Accounted;
  }

  lemma BindSweptOk(n: Node, k: Key, name: string, env: Env)
    requires NodeOk(n) && ValidRegistrationName(name)
    ensures Keeps(CmdBindRegistration(k, name), n, BindSwept(n, k, name, env))
  {
    hide ValidLedger, Apply, LeaseEdited;
    var c := CmdBindRegistration(k, name);
    GrowsReflexive(c, true, n);
    GrowsReflexive(c, false, n);
    if k in n.mem.ledger.leases && n.mem.ledger.leases[k].registrationName == "" && env.saved {
      LeaseEditedOk(c, n, Bind(k, name), n.mem.deadlines);
    }
  }

  lemma BindRegistrationOk(n: Node, k: Key, name: string, env: Env)
    requires NodeOk(n) && EnvOk(n, env)
    ensures KeepsSwept(CmdBindRegistration(k, name), n, env, BindRegistration(n, k, name, env))
  {
    hide NodeOk, EnvOk, Extends, SweepPhase, BindSwept, Permitted;
    var c := CmdBindRegistration(k, name);
    GrowsReflexive(c, false, n);
    if ValidKey(k) && ValidRegistrationName(name) && SweepPhase(n, env).Some? {
      var s := SweepPhase(n, env).value;
      var r := BindSwept(s, k, name, env);
      SweepOk(c, !r.outcome.Failed?, n, env);
      BindSweptOk(s, k, name, env);
      GrowsTransitive(c, !r.outcome.Failed?, n, s, r.node);
    }
  }

  lemma AdoptSweptOk(n: Node, k: Key, env: Env)
    requires NodeOk(n) && ValidKey(k)
    ensures Keeps(CmdAdopt(k), n, AdoptSwept(n, k, env))
  {
    hide ValidLedger, Compact, Swept, HasRoom, LeaseEdited;
    var c, l := CmdAdopt(k), n.mem.ledger;
    GrowsReflexive(c, true, n);
    GrowsReflexive(c, false, n);
    if Knows(l.policy, k.profile) && env.saved {
      if k !in l.leases {
        assert n.mem.deadlines - {k} == n.mem.deadlines;
        GrantCommitOk(c, n, Grant(k, Lookup(l.policy.profiles, k.profile).value.unitCost, Active, 0), n.mem.deadlines - {k});
      } else if l.leases[k].status.Provisional? {
        LeaseEditedOk(c, n, Promote(k, true), n.mem.deadlines - {k});
      } else if AwaitsAccounting(l, k) {
        QuietCommitOk(c, true, n, Account(k));
      }
    }
  }

  lemma AdoptOk(n: Node, k: Key, env: Env)
    requires NodeOk(n) && EnvOk(n, env)
    ensures KeepsSwept(CmdAdopt(k), n, env, Adopt(n, k, env))
  {
    hide NodeOk, EnvOk, Extends, SweepPhase, AdoptSwept, Permitted;
    var c := CmdAdopt(k);
    GrowsReflexive(c, false, n);
    if ValidKey(k) {
      var swept := SweepPhase(n, env);
      var r := Reply(n, Failed(StoreFailure));
      if swept.Some? {
        SweepOk(c, true, n, env);
        r := AdoptSwept(swept.value, k, env);
        AdoptSweptOk(swept.value, k, env);
      }
      WrappedOk(c, n, swept, r, AdoptLease, k.profile, env);
    }
  }

  lemma RenewSweptOk(n: Node, k: Key, env: Env)
    requires NodeOk(n)
    ensures Keeps(CmdRenew(k), n, RenewSwept(n, k, env))
  {
    hide ValidLedger, Apply, LeaseEdited;
    var c := CmdRenew(k);
    GrowsReflexive(c, false, n);
    if k in n.mem.ledger.leases && n.mem.ledger.leases[k].status.Provisional? && env.saved {
      var deadline := env.now + n.mem.ttl;
      assert n.mem.deadlines[k := deadline].Keys == n.mem.deadlines.Keys;
      LeaseEditedOk(c, n, Renew(k, deadline), n.mem.deadlines[k := deadline]);
    }
  }

  lemma RenewOk(n: Node, k: Key, env: Env)
    requires NodeOk(n) && EnvOk(n, env)
    ensures KeepsSwept(CmdRenew(k), n, env, RenewLeaseOf(n, k, env))
  {
    hide NodeOk, EnvOk, Extends, SweepPhase, RenewSwept, Permitted, Due;
    var c := CmdRenew(k);
    GrowsReflexive(c, false, n);
    if ValidKey(k) {
      var swept := SweepPhase(n, env);
      var r := Reply(n, Failed(StoreFailure));
      if swept.Some? {
        SweepOk(c, true, n, env);
        GrowsReflexive(c, false, swept.value);
        r := if k in Due(n.mem, env.now) then Reply(swept.value, Failed(LeaseExpired)) else RenewSwept(swept.value, k, env);
        RenewSweptOk(swept.value, k, env);
      }
      WrappedOk(c, n, swept, r, RenewLease, k.profile, env);
    }
  }

  lemma ActivateSweptOk(n: Node, k: Key, env: Env)
    requires NodeOk(n)
    ensures Keeps(CmdActivate(k), n, ActivateSwept(n, k, env))
  {
    hide ValidLedger, Apply, LeaseEdited;
    var c := CmdActivate(k);
    GrowsReflexive(c, true, n);
    GrowsReflexive(c, false, n);
    if k in n.mem.ledger.leases && n.mem.ledger.leases[k].status.Provisional? && env.saved {
      LeaseEditedOk(c, n, Promote(k, false), n.mem.deadlines - {k});
    }
  }

  lemma ActivateOk(n: Node, k: Key, env: Env)
    requires NodeOk(n) && EnvOk(n, env)
    ensures KeepsSwept(CmdActivate(k), n, env, Activate(n, k, env))
  {
    hide NodeOk, EnvOk, Extends, SweepPhase, ActivateSwept, Permitted, Due;
    var c := CmdActivate(k);
    GrowsReflexive(c, false, n);
    if ValidKey(k) {
      var swept := SweepPhase(n, env);
      var r := Reply(n, Failed(StoreFailure));
      if swept.Some? {
        SweepOk(c, true, n, env);
        GrowsReflexive(c, false, swept.value);
        r := if k in Due(n.mem, env.now) then Reply(swept.value, Failed(LeaseExpired)) else ActivateSwept(swept.value, k, env);
        ActivateSweptOk(swept.value, k, env);
      }
      WrappedOk(c, n, swept, r, ActivateLease, k.profile, env);
    }
  }

  lemma EntombSweptOk(c: Command, n: Node, k: Key, reason: TombstoneReason, evidence: string, env: Env)
    requires NodeOk(n) && (reason.Released? || reason.ReconciledAbsent?)
    requires Permitted(c, true, Remove(k, reason, evidence))
    ensures Keeps(c, n, EntombSwept(n, k, reason, evidence, env))
  {
    hide ValidLedger, Compact, Swept;
    GrowsReflexive(c, true, n);
    GrowsReflexive(c, false, n);
    if k in n.mem.ledger.leases && env.saved {
      var e := Remove(k, reason, evidence);
      assert ProvisionalKeys(Apply(n.mem.ledger, e).leases) == ProvisionalKeys(n.mem.ledger.leases) - {k};
      CommitOk(c, true, n, e, n.mem.deadlines - {k});
      CommitKeepsDemand(n, e, n.mem.deadlines - {k});
    }
  }

  lemma ReleaseOk(n: Node, k: Key, env: Env)
    requires NodeOk(n) && EnvOk(n, env)
    ensures KeepsSwept(CmdRelease(k), n, env, Release(n, k, env))
  {
    hide NodeOk, EnvOk, Extends, SweepPhase, EntombSwept;
    var c := CmdRelease(k);
    GrowsReflexive(c, false, n);
    if ValidKey(k) {
      var swept := SweepPhase(n, env);
      var r := Reply(n, Failed(StoreFailure));
      if swept.Some? {
        SweepOk(c, true, n, env);
        r := EntombSwept(swept.value, k, Released, "", env);
        EntombSweptOk(c, swept.value, k, Released, "", env);
      }
      WrappedOk(c, n, swept, r, ReleaseLease, k.profile, env);
    }
  }

  lemma ReconcileOk(n: Node, k: Key, evidence: Option<string>, env: Env)
    requires NodeOk(n) && EnvOk(n, env)
    ensures KeepsSwept(CmdReconcile(k, evidence), n, env, Reconcile(n, k, evidence, env))
  {
    hide NodeOk, EnvOk, Extends, SweepPhase, EntombSwept;
    var c := CmdReconcile(k, evidence);
    GrowsReflexive(c, false, n);
    if ValidKey(k) && evidence.Some? {
      var swept := SweepPhase(n, env);
      var r := Reply(n, Failed(StoreFailure));
      if swept.Some? {
        SweepOk(c, true, n, env);
        r := EntombSwept(swept.value, k, ReconciledAbsent, evidence.value, env);
        EntombSweptOk(c, swept.value, k, ReconciledAbsent, evidence.value, env);
      }
      WrappedOk(c, n, swept, r, ReconcileLease, k.profile, env);
    }
  }

  lemma StatusOk(n: Node, env: Env)
    requires NodeOk(n) && EnvOk(n, env)
    ensures KeepsSwept(CmdStatus, n, env, Status(n, env))
  {
    hide ValidLedger, EnvOk, Extends, SweepPhase, SnapshotOf, Permitted;
    GrowsReflexive(CmdStatus, false, n);
    if SweepPhase(n, env).Some? {
      var s := SweepPhase(n, env).value;
      SweepOk(CmdStatus, true, n, env);
      ForgetStaleOk(CmdStatus, true, s, env.now);
      GrowsTransitive(CmdStatus, true, n, s, ForgetStale(s, env.now));
    }
  }

  /** Every command keeps the invariant, whatever the clock, the sweep order and the saves do. */
  lemma CommandKeepsInvariant(n: Node, c: Command, env: Env)
    requires NodeOk(n) && EnvOk(n, env)
    ensures PolicyOk(n.mem.ledger.policy)
    ensures KeepsSwept(c, n, env, Run(n, c, env))
  {
    hide LeasesOk, TombstonesOk, FencesOk, DemandOk, EnvOk, Keeps, SweepPhase, Grows;
    match c
    case CmdApplyPolicy(h) => SetPolicyOk(n, h, env);
    case CmdSetDemand(p, pending) => SetDemandOk(n, p, pending, env);
    case CmdBeginAdoption(p) => BeginAdoptionOk(n, p, env);
    case CmdCompleteAdoption(p) => CompleteAdoptionOk(n, p, env);
    case CmdAcquire(k, pending) => AcquireOk(n, k, pending, env);
    case CmdBindRegistration(k, name) => BindRegistrationOk(n, k, name, env);
    case CmdAdopt(k) => AdoptOk(n, k, env);
    case CmdRenew(k) => RenewOk(n, k, env);
    case CmdActivate(k) => ActivateOk(n, k, env);
    case CmdRelease(k) => ReleaseOk(n, k, env);
    case CmdReconcile(k, evidence) => ReconcileOk(n, k, evidence, env);
    case CmdStatus => StatusOk(n, env);
  }
}
