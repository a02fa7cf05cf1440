/**
 The coordinator as it runs: an object whose commands update its fields step by
 step around saves. Every command is proved to take exactly the step that its
 value-level definition takes, so the theorems about runs hold of it.
 */
module Coordinators {
  import opened Identity
  import opened Ordering
  import opened FairShare
  import opened Policy
  import opened Sums
  import opened Leases
  import opened Admission
  import opened Ledgers
  import opened Commands
  import opened Invariants
  import opened Runs
  import opened Tallies

  /** The durable document; `history` records the edit behind every save. */
  class Store {
    var document: Option<Ledger>
    ghost var history: seq<Edit>

    constructor ()
      ensures document.None? && history == []
    {
      document := None;
      history := [];
    }

    /** Replaces the document, or fails and leaves it alone. */
    method Save(next: Ledger, succeeds: bool, ghost e: Edit) returns (saved: bool)
      modifies this
      ensures saved == succeeds
      ensures document == if saved then Some(next) else old(document)
      ensures history == if saved then old(history) + [e] else old(history)
    {
      saved := succeeds;
      if saved {
        document := Some(next);
        history := history + [e];
      }
    }

    /** Reads the document; a present but malformed one is refused. */
    method Load() returns (ok: bool, r: Option<Ledger>)
      ensures ok <==> document.None? || Accepts(document.value)
      ensures r == document
    {
      r := document;
      ok := true;
      if r.Some? { ok := CheckDocument(r.value); }
    }
  }

  /** Whether each save of a command succeeds: the sweep's, the command's own, the decision record's. */
  datatype Saves = Saves(sweep: bool, own: bool, note: bool)

  function EnvOf(now: int, order: seq<Key>, saves: Saves): Env {
    Env(now, order, saves.sweep, saves.own, saves.note)
  }

  // ---------------------------------------------------------------------
  // Loop steps

  lemma {:induction false} IndexOfAppended<T>(s: seq<T>, x: T, y: T)
    requires x !in s
    ensures IndexOf(s + [x], y) == if y == x then |s| else IndexOf(s, y)
  {
    assert (s + [x])[..|s|] == s;
  }

  /** Sweeping one more lease adds its tombstone under the next sequence number. */
  lemma SweptStep(l: Ledger, order: seq<Key>, reason: TombstoneReason, k: Key)
    requires k in l.leases && k !in order
    ensures
      Swept(l, order + [k], reason) ==
        Swept(l, order, reason)[k := SweptTombstone(l.leases[k], reason, l.sequence + 1 + |order|)]
  {
    hide Swept;
    var after := Swept(l, order, reason)[k := SweptTombstone(l.leases[k], reason, l.sequence + 1 + |order|)];
    forall j ensures j in Swept(l, order + [k], reason) <==> j in after { SweptEntryStep(l, order, reason, k, j); }
    forall j | j in after ensures Swept(l, order + [k], reason)[j] == after[j] { SweptEntryStep(l, order, reason, k, j); }
  }

  lemma SweptEntryStep(l: Ledger, order: seq<Key>, reason: TombstoneReason, k: Key, j: Key)
    requires k in l.leases && k !in order
    ensures
      var before, after := Swept(l, order, reason), Swept(l, order + [k], reason);
      && (j in after <==> j in before || j == k)
      && (j in after ==>
            after[j] == if j == k then SweptTombstone(l.leases[k], reason, l.sequence + 1 + |order|) else before[j])
  {
    hide IndexOf;
    assert Elements(order + [k]) == Elements(order) + {k};
    IndexOfAppended(order, k, j);
    assert j in order + [k] <==> j in order || j == k;
  }

  lemma NothingSwept(l: Ledger, reason: TombstoneReason)
    ensures Swept(l, [], reason) == l.tombstones
  {
    assert Elements<Key>([]) == {};
  }

  lemma SweptIsDistinct(l: Ledger, order: seq<Key>, reason: TombstoneReason)
    requires ValidLedger(l) && Elements(order) <= l.leases.Keys
    ensures DistinctSequences(Swept(l, order, reason))
  {
    hide Swept, PolicyOk, FencesOk;
    SweptIsOk(l, order, reason);
  }

  /** The ledger while a sweep is under way. */
  ghost predicate Sweeping(l: Ledger, order: seq<Key>, reason: TombstoneReason, next: Ledger) {
    && Distinct(order) && Elements(order) <= l.leases.Keys
    && next == l.(sequence := l.sequence + |order|, leases := l.leases - Elements(order), tombstones := Swept(l, order, reason))
  }

  lemma SweepingStep(l: Ledger, order: seq<Key>, reason: TombstoneReason, next: Ledger, k: Key)
    requires Sweeping(l, order, reason, next) && k in l.leases && k !in order
    ensures
      Sweeping(l, order + [k], reason,
               next.(sequence := next.sequence + 1, leases := next.leases - {k},
                     tombstones := next.tombstones[k := SweptTombstone(l.leases[k], reason, next.sequence + 1)]))
  {
    hide Swept;
    SweptStep(l, order, reason, k);
    assert Elements(order + [k]) == Elements(order) + {k};
    assert l.leases - Elements(order) - {k} == l.leases - Elements(order + [k]);
  }

  lemma SweepingStarts(l: Ledger, reason: TombstoneReason)
    ensures Sweeping(l, [], reason, l)
  {
    NothingSwept(l, reason);
    assert Elements<Key>([]) == {};
    assert l.leases - {} == l.leases;
  }

  lemma {:induction false} Enumeration(s: set<Key>) returns (order: seq<Key>)
    ensures Enumerates(order, s)
  {
    if s == {} {
      order := [];
    } else {
      var k :| k in s;
      var rest := Enumeration(s - {k});
      order := rest + [k];
      assert Elements(order) == Elements(rest) + {k};
      assert k !in Elements(rest);
    }
  }

  /** Collects every provisional lease that `due` names into tombstones, in whatever order the map yields. */
  method EntombDue(l: Ledger, due: set<Key>, reason: TombstoneReason) returns (next: Ledger, ghost order: seq<Key>)
    requires ValidLedger(l) && due <= ProvisionalKeys(l.leases)
    ensures Enumerates(order, due)
    ensures next == Apply(l, Sweep(order, reason))
  {
    hide ValidLedger, Swept, Compact;
    next, order := l, [];
    SweepingStarts(l, reason);
    var rest := l.leases.Keys;
    while rest != {}
      invariant rest <= l.leases.Keys
      invariant Elements(order) == due - rest
      invariant Sweeping(l, order, reason, next)
      decreases rest
    {
      var k :| k in rest;
      if k in due {
        assert k !in Elements(order);
        SweepingStep(l, order, reason, next, k);
        next := next.(sequence := next.sequence + 1, leases := next.leases - {k},
                      tombstones := next.tombstones[k := SweptTombstone(l.leases[k], reason, next.sequence + 1)]);
        assert Elements(order + [k]) == Elements(order) + {k};
        order := order + [k];
      }
      rest := rest - {k};
    }
    SweptIsDistinct(l, order, reason);
    var trimmed := CompactTombstones(next.tombstones);
    next := next.(tombstones := trimmed);
  }

  // ---------------------------------------------------------------------
  // The coordinator

  class Coordinator {
    const store: Store
    const provisionalTtl: int
    var state: Ledger
    var demand: map<string, int>
    var demandKnown: set<string>
    var demandDeadlines: map<string, int>
    var rotation: nat
    var provisionalDeadlines: map<Key, int>

    ghost function View(): Node
      reads this, store
    {
      Node(store.document,
           Memory(state, demand, demandKnown, demandDeadlines, rotation, provisionalDeadlines, provisionalTtl),
           store.history)
    }

    ghost predicate Valid()
      reads this, store
    {
      NodeOk(View())
    }

    constructor (backing: Store, ledger: Ledger, ttl: int)
      ensures store == backing
      ensures View() == Node(backing.document, StartMemory(ledger, ttl), backing.history)
    {
      store := backing;
      provisionalTtl := if ttl <= 0 then DEFAULT_LEASE_TTL else ttl;
      state := ledger;
      demand, demandKnown, demandDeadlines := map[], {}, map[];
      rotation := ledger.sequence % ROTATION_SEED_MODULUS;
      provisionalDeadlines := map[];
    }

    /** Restores a coordinator from its store, discarding restored provisional leases first. */
    static method Open(backing: Store, ttl: int, saved: bool) returns (r: Option<Coordinator>, ghost order: seq<Key>)
      requires backing.document.Some? ==> ValidLedger(backing.document.value)
      modifies backing
      ensures
        var before := Host(old(backing.document), None, old(backing.history));
        var started := Opened(before, ttl, order, saved);
        && Enumerates(order, ProvisionalKeys(Document(before).leases))
        && (started.Some? <==> r.Some?)
        && (r.Some? ==> fresh(r.value) && r.value.store == backing && HostOf(r.value.View()) == started.value && r.value.Valid())
        && (r.None? ==> backing.document == old(backing.document) && backing.history == old(backing.history))
    {
      hide ValidLedger, Accepts, Apply;
      ghost var before := Host(backing.document, None, backing.history);
      EmptyLedgerValid();
      var ok, document := backing.Load();
      var ledger := if document.Some? then document.value else NEW_LEDGER;
      var due := ProvisionalKeys(ledger.leases);
      var next;
      next, order := EntombDue(ledger, due, RestartDiscarded);
      if !ok { return None, order; }
      if due != {} {
        var saving := backing.Save(next, saved, Sweep(order, RestartDiscarded));
        if !saving { return None, order; }
        ledger := next;
      }
      OpenedOk(before, ttl, order, saved);
      var c := new Coordinator(backing, ledger, ttl);
      r := Some(c);
    }

    /** Saves the edited ledger and, once that succeeded, adopts it in memory. */
    method SaveState(next: Ledger, succeeds: bool, ghost e: Edit) returns (saved: bool)
      requires Defined(state, e) && next == Apply(state, e)
      modifies this`state, store
      ensures saved == succeeds
      ensures View() == if saved then Commit(old(View()), e, old(provisionalDeadlines)) else old(View())
    {
      hide Apply;
      saved := store.Save(next, succeeds, e);
      if saved { state := next; }
    }

    method ApplyPolicy(policy: HostPolicy, saves: Saves) returns (r: Outcome)
      requires Valid()
      modifies this, store
      ensures Reply(View(), r) == SetPolicy(old(View()), policy, EnvOf(0, [], saves))
      ensures Valid()
    {
      hide NodeOk, Grows, ValidPolicy;
      SetPolicyOk(View(), policy, EnvOf(0, [], saves));
      var valid := Validate(policy);
      if !valid { return Failed(InvalidPolicy); }
      if policy.generation <= state.policy.generation { return Failed(StalePolicy); }
      var fences := RetainedFences(state.fences, policy);
      var next := state.(policy := policy, epoch := state.epoch + 1, fences := fences);
      var saved := SaveState(next, saves.own, Edit.ApplyPolicy(policy));
      if !saved { return Failed(StoreFailure); }
      demand, demandKnown, demandDeadlines := map[], {}, map[];
      r := Done;
    }

    static method RetainedFences(fences: map<string, AdoptionFence>, policy: HostPolicy)
      returns (kept: map<string, AdoptionFence>)
      ensures kept == map p | p in fences && Knows(policy, p) :: fences[p]
    {
      kept := fences;
      var rest := fences.Keys;
      while rest != {}
        invariant rest <= fences.Keys
        invariant kept == map p | p in fences && (p in rest || Knows(policy, p)) :: fences[p]
        decreases rest
      {
        var p :| p in rest;
        var retained := FindProfile(policy, p);
        if retained.None? { kept := kept - {p}; }
        rest := rest - {p};
      }
    }

    method ExpireStaleDemand(now: int)
      modifies this`demand, this`demandKnown, this`demandDeadlines
      ensures View() == ForgetStale(old(View()), now)
    {
      var rest := demandDeadlines.Keys;
      ghost var done: set<string> := {};
      ghost var before := View();
      assert ForgetDemand(before.mem, {}) == before.mem;
      while rest != {}
        invariant rest + done == before.mem.demandDeadlines.Keys && rest !! done
        invariant View() == before.(mem := ForgetDemand(before.mem, StaleAmong(before.mem, done, now)))
        decreases rest
      {
        var p :| p in rest;
        ghost var stale := StaleAmong(before.mem, done, now);
        assert p !in stale;
        if !(now < demandDeadlines[p]) {
          demand, demandKnown, demandDeadlines := demand - {p}, demandKnown - {p}, demandDeadlines - {p};
          ForgetOneMore(before.mem, stale, p);
          assert StaleAmong(before.mem, done + {p}, now) == stale + {p};
        } else {
          assert StaleAmong(before.mem, done + {p}, now) == stale;
        }
        rest, done := rest - {p}, done + {p};
      }
      assert StaleAmong(before.mem, done, now) == StaleDemand(before.mem, now);
    }

    method SetDemand(p: string, pending: int, now: int) returns (r: Outcome)
      requires Valid()
      modifies this
      ensures Reply(View(), r) == Commands.SetDemand(old(View()), p, pending, EnvOf(now, [], Saves(false, false, false)))
      ensures Valid()
    {
      hide NodeOk, Grows, ForgetStale;
      SetDemandOk(View(), p, pending, EnvOf(now, [], Saves(false, false, false)));
      if !ValidProfileId(p) { return Failed(InvalidIdentity); }
      if pending < 0 { return Failed(NegativeDemand); }
      var known := FindProfile(state.policy, p);
      if known.None? { return Failed(UnknownProfile); }
      ExpireStaleDemand(now);
      demandKnown := demandKnown + {p};
      if pending == 0 {
        demand, demandDeadlines := demand - {p}, demandDeadlines - {p};
      } else {
        demand, demandDeadlines := demand[p := pending], demandDeadlines[p := now + DEMAND_TTL];
      }
      r := Done;
    }

    method BeginAdoption(p: string, saves: Saves) returns (r: Outcome)
      requires Valid()
      modifies this, store
      ensures Reply(View(), r) == Commands.BeginAdoption(old(View()), p, EnvOf(0, [], saves))
      ensures Valid()
    {
      hide NodeOk, Grows;
      BeginAdoptionOk(View(), p, EnvOf(0, [], saves));
      if !ValidProfileId(p) { return Failed(InvalidIdentity); }
      var known := FindProfile(state.policy, p);
      if known.None? { return Failed(UnknownProfile); }
      if p in state.fences { return Done; }
      var pending := ActiveLeaseSlotKeys(state.leases, p);
      var next := state.(epoch := state.epoch + 1, fences := state.fences[p := AdoptionFence(p, pending)]);
      var saved := SaveState(next, saves.own, Fence(p));
      r := if saved then Done else Failed(StoreFailure);
    }

    method CompleteAdoption(p: string, saves: Saves) returns (r: Outcome)
      requires Valid()
      modifies this, store
      ensures Reply(View(), r) == Commands.CompleteAdoption(old(View()), p, EnvOf(0, [], saves))
      ensures Valid()
    {
      hide NodeOk, Grows;
      CompleteAdoptionOk(View(), p, EnvOf(0, [], saves));
      if !ValidProfileId(p) { return Failed(InvalidIdentity); }
      if p !in state.fences { return Done; }
      if |state.fences[p].pending| > 0 { return Failed(AdoptionPending); }
      var next := state.(epoch := state.epoch + 1, fences := state.fences - {p});
      var saved := SaveState(next, saves.own, Unfence(p));
      r := if saved then Done else Failed(StoreFailure);
    }

    /** Leases whose deadline has passed or was never tracked. */
    method DueLeases(now: int) returns (due: set<Key>)
      ensures due == Due(View().mem, now)
    {
      due := {};
      var rest := state.leases.Keys;
      while rest != {}
        invariant rest <= state.leases.Keys
        invariant due == Due(View().mem, now) - rest
        decreases rest
      {
        var k :| k in rest;
        if state.leases[k].status.Provisional? && !(k in provisionalDeadlines && now < provisionalDeadlines[k]) {
          due := due + {k};
        }
        rest := rest - {k};
      }
    }

    method SweepExpired(now: int, saves: Saves) returns (ok: bool, expired: set<Key>, ghost env: Env)
      requires Valid()
      modifies this, store
      ensures env == EnvOf(now, env.order, saves) && EnvOk(old(View()), env)
      ensures expired == Due(old(View()).mem, now)
      ensures ok <==> SweepPhase(old(View()), env).Some?
      ensures View() == if ok then SweepPhase(old(View()), env).value else old(View())
      ensures Valid()
    {
      hide ValidLedger, Apply;
      ghost var before := View();
      expired := DueLeases(now);
      var next;
      ghost var order;
      next, order := EntombDue(state, expired, Expired);
      env := EnvOf(now, order, saves);
      ok := true;
      if expired != {} {
        var profiles := set k | k in expired && k in state.leases :: state.leases[k].profileId;
        ok := SaveState(next, saves.sweep, Sweep(order, Expired));
        if ok {
          demand, demandKnown, demandDeadlines := demand - profiles, demandKnown - profiles, demandDeadlines - profiles;
          provisionalDeadlines := provisionalDeadlines - expired;
        }
      }
      if ok { SweepOk(CmdStatus, true, before, env); }
    }

    /** Records the decision; a failed save of the record goes unnoticed. */
    method RecordDecision(command: LeaseCommand, profile: string, r: Outcome, ghost env: Env, now: int, noteSaved: bool)
      requires Valid() && ValidProfileId(profile) && env.now == now && env.noteSaved == noteSaved
      modifies this, store
      ensures Reply(View(), r) == Noted(Reply(old(View()), r), command, profile, env)
      ensures Valid()
    {
      hide ValidLedger;
      NotedOk(CmdStatus, Reply(View(), r), command, profile, env);
      var d := Decision(state.sequence, command, profile, !r.Failed?, if r.Failed? then Some(r.error) else None, now);
      var saved := SaveState(state.(lastDecision := Some(d)), noteSaved, Note(d));
    }

    method Acquire(k: Key, pending: int, now: int, saves: Saves) returns (r: Outcome, ghost env: Env)
      requires Valid()
      modifies this, store
      ensures env == EnvOf(now, env.order, saves) && EnvOk(old(View()), env)
      ensures Reply(View(), r) == Commands.Acquire(old(View()), k, pending, env)
      ensures Valid()
    {
      hide NodeOk, EnvOk, SweepPhase, AcquireSwept, Noted, ForgetStale, ValidKey, Due;
      if !ValidKey(k) {
        env := AnyEnv(View(), now, saves);
        return Failed(InvalidIdentity), env;
      }
      ghost var before := View();
      var ok, expired;
      ok, expired, env := SweepExpired(now, saves);
      if !ok {
        r := Failed(StoreFailure);
      } else {
        ghost var swept := View();
        ForgetStaleOk(CmdStatus, true, swept, now);
        ExpireStaleDemand(now);
        r := AcquireAfterSweep(k, pending, now, saves.own, env);
      }
      KeyNamesProfile(k);
      RecordDecision(AcquireLease, k.profile, r, env, now, saves.note);
    }

    method AcquireAfterSweep(k: Key, pending: int, now: int, saved: bool, ghost env: Env) returns (r: Outcome)
      requires Valid() && ValidKey(k) && env.now == now && env.saved == saved
      modifies this, store
      ensures Reply(View(), r) == AcquireSwept(old(View()), k, pending, env)
      ensures Valid()
    {
      hide NodeOk, Decide, HeldMap, Contenders, Grows, Apply, GrantTo, ValidKey;
      AcquireSweptOk(View(), k, pending, env);
      if state.fences != map[] { return Failed(AdoptionPending); }
      if k in state.leases { return Duplicate(state.leases[k]); }
      var found := FindProfile(state.policy, k.profile);
      if found.None? { return Failed(UnknownProfile); }
      KnownCost(View(), k.profile);
      var want := if pending < 1 then 1 else pending;
      demand, demandKnown := demand[k.profile := want], demandKnown + {k.profile};
      demandDeadlines := demandDeadlines[k.profile := now + DEMAND_TTL];
      var held := HeldUnitsByProfile(state.leases);
      var verdict := Evaluate(state.policy, demand, rotation, found.value, held);
      if verdict.Refuse? { return Failed(verdict.error); }
      r := GrantLease(k, want, found.value.unitCost, verdict.contenders, now, saved, env);
    }

    method GrantLease(k: Key, want: int, units: int, contenders: nat, now: int, saved: bool, ghost env: Env) returns (r: Outcome)
      requires env.now == now && env.saved == saved && Knows(state.policy, k.profile)
      requires units == Lookup(state.policy.profiles, k.profile).value.unitCost
      modifies this, store
      ensures
        Reply(View(), r) ==
          if saved then GrantTo(old(View()), k, want, contenders, env) else Reply(old(View()), Failed(StoreFailure))
    {
      hide Apply;
      var deadline := now + provisionalTtl;
      var lease := GrantedLease(k, units, Provisional, deadline, state.sequence + 1);
      var next := state.(sequence := state.sequence + 1, tombstones := state.tombstones - {k},
                         leases := state.leases[k := lease]);
      GrantIsApplied(state, k, units, deadline);
      var done := SaveState(next, saved, Grant(k, units, Provisional, deadline));
      if !done { return Failed(StoreFailure); }
      provisionalDeadlines := provisionalDeadlines[k := deadline];
      if want == 1 {
        demand, demandDeadlines := demand - {k.profile}, demandDeadlines - {k.profile};
      } else {
        demand := demand[k.profile := want - 1];
      }
      if contenders > 0 { rotation := (rotation + 1) % contenders; }
      r := Leased(lease);
    }

    method BindRegistration(k: Key, name: string, now: int, saves: Saves) returns (r: Outcome, ghost env: Env)
      requires Valid()
      modifies this, store
      ensures env == EnvOf(now, env.order, saves) && EnvOk(old(View()), env)
      ensures Reply(View(), r) == Commands.BindRegistration(old(View()), k, name, env)
      ensures Valid()
    {
      hide NodeOk, EnvOk, SweepPhase, Apply, ValidKey, ValidRegistrationName, Due;
      if !ValidKey(k) || !ValidRegistrationName(name) {
        env := AnyEnv(View(), now, saves);
        return Failed(InvalidIdentity), env;
      }
      var ok, expired;
      ok, expired, env := SweepExpired(now, saves);
      if !ok { return Failed(StoreFailure), env; }
      ghost var swept := View();
      BindSweptOk(swept, k, name, env);
      if k !in state.leases { return Failed(LeaseNotFound), env; }
      var lease := state.leases[k];
      if lease.registrationName == name { return Leased(lease), env; }
      if lease.registrationName != "" { return Failed(InvalidIdentity), env; }
      lease := lease.(registrationName := name);
      var next := state.(sequence := state.sequence + 1, leases := state.leases[k := lease]);
      BindIsApplied(state, k, name);
      var saved := SaveState(next, saves.own, Bind(k, name));
      r := if saved then Leased(lease) else Failed(StoreFailure);
    }

    method Adopt(k: Key, now: int, saves: Saves) returns (r: Outcome, ghost env: Env)
      requires Valid()
      modifies this, store
      ensures env == EnvOf(now, env.order, saves) && EnvOk(old(View()), env)
      ensures Reply(View(), r) == Commands.Adopt(old(View()), k, env)
      ensures Valid()
    {
      hide NodeOk, EnvOk, SweepPhase, AdoptSwept, Noted, ValidKey, Due;
      if !ValidKey(k) {
        env := AnyEnv(View(), now, saves);
        return Failed(InvalidIdentity), env;
      }
      var ok, expired;
      ok, expired, env := SweepExpired(now, saves);
      if !ok {
        r := Failed(StoreFailure);
      } else {
        r := AdoptAfterSweep(k, saves.own, env);
      }
      KeyNamesProfile(k);
      RecordDecision(AdoptLease, k.profile, r, env, now, saves.note);
    }

    method AdoptAfterSweep(k: Key, saved: bool, ghost env: Env) returns (r: Outcome)
      requires Valid() && ValidKey(k) && env.saved == saved
      modifies this, store
      ensures Reply(View(), r) == AdoptSwept(old(View()), k, env)
      ensures Valid()
    {
      hide NodeOk, Grows, Compact, Swept, Accounted, ValidKey;
      AdoptSweptOk(View(), k, env);
      FenceIsSorted(View(), k.profile);
      var found := FindProfile(state.policy, k.profile);
      if found.None? { return Failed(UnknownProfile); }
      var fences, changed := MarkAccounted(state.fences, k);
      if k in state.leases && state.leases[k].status.Active? {
        r := Leased(state.leases[k]);
        if changed {
          var done := SaveState(state.(fences := fences), saved, Account(k));
          if !done { r := Failed(StoreFailure); }
        }
        return;
      }
      var sequence := state.sequence + 1;
      var lease :=
        if k in state.leases then PromotedLease(state.leases[k], sequence)
        else GrantedLease(k, found.value.unitCost, Active, 0, sequence);
      ghost var e := if k in state.leases then Promote(k, true) else Grant(k, found.value.unitCost, Active, 0);
      var next := state.(sequence := sequence, tombstones := state.tombstones - {k},
                         leases := state.leases[k := lease], fences := fences);
      var done := SaveState(next, saved, e);
      if !done { return Failed(StoreFailure); }
      provisionalDeadlines := provisionalDeadlines - {k};
      r := Leased(lease);
    }

    method Renew(k: Key, now: int, saves: Saves) returns (r: Outcome, ghost env: Env)
      requires Valid()
      modifies this, store
      ensures env == EnvOf(now, env.order, saves) && EnvOk(old(View()), env)
      ensures Reply(View(), r) == RenewLeaseOf(old(View()), k, env)
      ensures Valid()
    {
      hide NodeOk, EnvOk, SweepPhase, RenewSwept, Noted, ValidKey, Due;
      if !ValidKey(k) {
        env := AnyEnv(View(), now, saves);
        return Failed(InvalidIdentity), env;
      }
      var ok, expired;
      ok, expired, env := SweepExpired(now, saves);
      if !ok {
        r := Failed(StoreFailure);
      } else if k in expired {
        r := Failed(LeaseExpired);
      } else {
        r := RenewAfterSweep(k, now, saves.own, env);
      }
      KeyNamesProfile(k);
      RecordDecision(RenewLease, k.profile, r, env, now, saves.note);
    }

    method RenewAfterSweep(k: Key, now: int, saved: bool, ghost env: Env) returns (r: Outcome)
      requires Valid() && env.saved == saved && env.now == now
      modifies this, store
      ensures Reply(View(), r) == RenewSwept(old(View()), k, env)
      ensures Valid()
    {
      hide NodeOk, Grows, Apply;
      RenewSweptOk(View(), k, env);
      if k !in state.leases { return Failed(LeaseNotFound); }
      var lease := state.leases[k];
      if !lease.status.Provisional? { return Failed(LeaseNotProvisional); }
      var deadline := now + provisionalTtl;
      lease := lease.(expiresAt := deadline);
      var next := state.(sequence := state.sequence + 1, leases := state.leases[k := lease]);
      RenewIsApplied(state, k, deadline);
      var done := SaveState(next, saved, Edit.Renew(k, deadline));
      if !done { return Failed(StoreFailure); }
      provisionalDeadlines := provisionalDeadlines[k := deadline];
      r := Leased(lease);
    }

    method Activate(k: Key, now: int, saves: Saves) returns (r: Outcome, ghost env: Env)
      requires Valid()
      modifies this, store
      ensures env == EnvOf(now, env.order, saves) && EnvOk(old(View()), env)
      ensures Reply(View(), r) == Commands.Activate(old(View()), k, env)
      ensures Valid()
    {
      hide NodeOk, EnvOk, SweepPhase, ActivateSwept, Noted, ValidKey, Due;
      if !ValidKey(k) {
        env := AnyEnv(View(), now, saves);
        return Failed(InvalidIdentity), env;
      }
      var ok, expired;
      ok, expired, env := SweepExpired(now, saves);
      if !ok {
        r := Failed(StoreFailure);
      } else if k in expired {
        r := Failed(LeaseExpired);
      } else {
        r := ActivateAfterSweep(k, saves.own, env);
      }
      KeyNamesProfile(k);
      RecordDecision(ActivateLease, k.profile, r, env, now, saves.note);
    }

    method ActivateAfterSweep(k: Key, saved: bool, ghost env: Env) returns (r: Outcome)
      requires Valid() && env.saved == saved
      modifies this, store
      ensures Reply(View(), r) == ActivateSwept(old(View()), k, env)
      ensures Valid()
    {
      hide NodeOk, Grows, Apply;
      ActivateSweptOk(View(), k, env);
      if k !in state.leases { return Failed(LeaseNotFound); }
      var lease := state.leases[k];
      if lease.status.Active? { return Leased(lease); }
      lease := PromotedLease(lease, state.sequence + 1);
      var next := state.(sequence := state.sequence + 1, leases := state.leases[k := lease]);
      PromoteIsApplied(state, k);
      var done := SaveState(next, saved, Promote(k, false));
      if !done { return Failed(StoreFailure); }
      provisionalDeadlines := provisionalDeadlines - {k};
      r := Leased(lease);
    }

    method Release(k: Key, now: int, saves: Saves) returns (r: Outcome, ghost env: Env)
      requires Valid()
      modifies this, store
      ensures env == EnvOf(now, env.order, saves) && EnvOk(old(View()), env)
      ensures Reply(View(), r) == Commands.Release(old(View()), k, env)
      ensures Valid()
    {
      hide NodeOk, EnvOk, SweepPhase, EntombSwept, Noted, ValidKey, Due;
      if !ValidKey(k) {
        env := AnyEnv(View(), now, saves);
        return Failed(InvalidIdentity), env;
      }
      var ok, expired;
      ok, expired, env := SweepExpired(now, saves);
      if !ok {
        r := Failed(StoreFailure);
      } else {
        r := Entomb(k, Released, "", saves.own, env);
      }
      KeyNamesProfile(k);
      RecordDecision(ReleaseLease, k.profile, r, env, now, saves.note);
    }

    method Reconcile(k: Key, evidence: Option<string>, now: int, saves: Saves) returns (r: Outcome, ghost env: Env)
      requires Valid()
      modifies this, store
      ensures env == EnvOf(now, env.order, saves) && EnvOk(old(View()), env)
      ensures Reply(View(), r) == Commands.Reconcile(old(View()), k, evidence, env)
      ensures Valid()
    {
      hide NodeOk, EnvOk, SweepPhase, EntombSwept, Noted, ValidKey, Due;
      if !ValidKey(k) || evidence.None? {
        env := AnyEnv(View(), now, saves);
        return Failed(if ValidKey(k) then EvidenceRejected else InvalidIdentity), env;
      }
      var ok, expired;
      ok, expired, env := SweepExpired(now, saves);
      if !ok {
        r := Failed(StoreFailure);
      } else {
        r := Entomb(k, ReconciledAbsent, evidence.value, saves.own, env);
      }
      KeyNamesProfile(k);
      RecordDecision(ReconcileLease, k.profile, r, env, now, saves.note);
    }

    /** Replaces a lease by its tombstone; a slot already entombed is a successful no-op. */
    method Entomb(k: Key, reason: TombstoneReason, evidence: string, saved: bool, ghost env: Env) returns (r: Outcome)
      requires Valid() && env.saved == saved && (reason.Released? || reason.ReconciledAbsent?)
      modifies this, store
      ensures Reply(View(), r) == EntombSwept(old(View()), k, reason, evidence, env)
      ensures Valid()
    {
      hide NodeOk, Grows, Compact, Accounted, Permitted;
      EntombSweptOk(CmdReconcile(k, Some(evidence)), View(), k, reason, evidence, env) by { EntombPermitted(k, reason, evidence); }
      FenceIsSorted(View(), k.profile);
      if k !in state.leases {
        return if k in state.tombstones then Done else Failed(LeaseNotFound);
      }
      var fences, changed := MarkAccounted(state.fences, k);
      var entry := Tombstone(k.profile, k.slot, state.leases[k].leaseId, reason, evidence, state.sequence + 1);
      EntombedIsDistinct(View(), k, entry);
      var trimmed := CompactTombstones(state.tombstones[k := entry]);
      var next := state.(sequence := state.sequence + 1, leases := state.leases - {k}, fences := fences, tombstones := trimmed);
      var done := SaveState(next, saved, Remove(k, reason, evidence));
      if !done { return Failed(StoreFailure); }
      provisionalDeadlines := provisionalDeadlines - {k};
      r := Done;
    }

    /** Units open to the profile before the admission decision has its say. */
    method OpenNow(p: ProfilePolicy, held: map<string, int>) returns (units: nat)
      ensures units == OpenUnits(View().mem, p, held)
    {
      hide Contenders, Protected, HeldBy, ProtectedMaximum, FairUnits;
      var total, protectedMaximum := PolicyTotals(state.policy.profiles, p.profileId, held);
      var protected := ProtectedNonBorrowable(state.policy.profiles, p.profileId, held);
      var free: nat := Max(state.policy.totalUnits - total, 0);
      var ceiling: nat := Max(Max(state.policy.totalUnits - protectedMaximum, 0) - At(held, p.profileId), 0);
      var unprotected: nat := Max(free - protected, 0);
      if state.fences != map[] { return 0; }
      units := Min(unprotected, ceiling);
      if HasPending(p.profileId) {
        var fair, _ := FairAllocatableUnits(state.policy, demand, held, rotation, p.profileId, unprotected);
        units := Min(Max(Min(OwnRemaining(p, held), free), fair), ceiling);
      }
    }

    predicate HasPending(p: string)
      reads this
    {
      p in demandKnown && p in demand && demand[p] > 0
    }

    /** Why the profile's pending demand is denied right now, if it is. */
    method WithheldNow(p: ProfilePolicy, held: map<string, int>) returns (withheld: Option<Error>)
      requires p.unitCost >= 1
      ensures withheld == WithheldReason(View().mem, p, held)
    {
      hide Decide, Contenders;
      if !HasPending(p.profileId) { return None; }
      if state.fences != map[] { return Some(AdoptionPending); }
      var verdict := Evaluate(state.policy, demand, rotation, p, held);
      withheld := if verdict.Refuse? then Some(verdict.error) else None;
    }

    /** Capacity of one profile as Status reports it. */
    method ProfileCapacity(p: ProfilePolicy, held: map<string, int>) returns (c: Capacity)
      requires p.unitCost >= 1
      ensures c == CapacityOf(View().mem, p, held)
    {
      hide OpenUnits, WithheldReason, HeldBy, ProtectedMaximum;
      var _, protectedMaximum := PolicyTotals(state.policy.profiles, p.profileId, held);
      var theoretical: nat := Max(state.policy.totalUnits - protectedMaximum, 0);
      var units := OpenNow(p, held);
      var withheld := WithheldNow(p, held);
      if withheld.Some? { units := 0; }
      c := Capacity(units, units / p.unitCost, theoretical, theoretical / p.unitCost, withheld);
    }

    static method PolicyTotals(profiles: seq<ProfilePolicy>, requester: string, held: map<string, int>)
      returns (total: int, protectedMaximum: int)
      ensures total == HeldBy(profiles, held) && protectedMaximum == ProtectedMaximum(profiles, requester)
    {
      total, protectedMaximum := 0, 0;
      for i := 0 to |profiles|
        invariant total == HeldBy(profiles[..i], held)
        invariant protectedMaximum == ProtectedMaximum(profiles[..i], requester)
      {
        assert profiles[..i + 1][..i] == profiles[..i];
        total := total + At(held, profiles[i].profileId);
        if profiles[i].profileId != requester && !profiles[i].borrowable {
          protectedMaximum := protectedMaximum + profiles[i].reservedUnits;
        }
      }
      assert profiles[..|profiles|] == profiles;
    }

    /** One accounting line of Status. */
    method ProfileLine(p: ProfilePolicy, held: map<string, int>) returns (line: ProfileAccounting)
      requires p.unitCost >= 1 && held == HeldMap(state.leases)
      ensures line == AccountingOf(View().mem, p)
    {
      hide CapacityOf, HeldMap;
      var units := At(held, p.profileId);
      var capacity := ProfileCapacity(p, held);
      var pending := if p.profileId in demandKnown then Some(At(demand, p.profileId) * p.unitCost) else None;
      line := ProfileAccounting(p.profileId, units, Max(units - p.reservedUnits, 0), pending, capacity);
    }

    /** Status: sweeps, forgets stale demand and reports one line per policy profile. */
    method Status(now: int, saves: Saves) returns (r: Outcome, ghost env: Env)
      requires Valid()
      modifies this, store
      ensures env == EnvOf(now, env.order, saves) && EnvOk(old(View()), env)
      ensures PolicyOk(old(View()).mem.ledger.policy)
      ensures Reply(View(), r) == Commands.Status(old(View()), env)
      ensures Valid()
    {
      hide NodeOk, EnvOk, SweepPhase, Due, PolicyOk, SnapshotOf, ForgetStale;
      ValidPolicyInForce(View());
      var ok, expired;
      ok, expired, env := SweepExpired(now, saves);
      if !ok { return Failed(StoreFailure), env; }
      ForgetStaleOk(CmdStatus, true, View(), now);
      ExpireStaleDemand(now);
      ValidPolicyInForce(View());
      var snapshot := TakeSnapshot();
      r := Report(snapshot);
    }

    method TakeSnapshot() returns (snapshot: Snapshot)
      requires PolicyOk(state.policy)
      ensures snapshot == SnapshotOf(View().mem)
    {
      hide AccountingOf, HeldMap, SnapshotOf, PolicyOk, HeldBy, ProfileIds;
      SnapshotParts(View().mem);
      var held := HeldUnitsByProfile(state.leases);
      var ids := SortStrings(ProfileIds(state.policy));
      var lines := ProfileLines(ids, held);
      var total, _ := PolicyTotals(state.policy.profiles, "", held);
      snapshot := Snapshot(state, Max(state.policy.totalUnits - total, 0), lines);
    }

    method ProfileLines(ids: seq<string>, held: map<string, int>) returns (lines: seq<ProfileAccounting>)
      requires PolicyOk(state.policy) && held == HeldMap(state.leases) && ids == SortedView(ProfileIds(state.policy))
      ensures lines == SnapshotOf(View().mem).accounting
    {
      hide AccountingOf, HeldMap, SnapshotOf, PolicyOk, ProfileIds, SortedView, StrictlySorted, Elements;
      lines := [];
      ghost var all := SnapshotOf(View().mem).accounting;
      SnapshotParts(View().mem);
      for i := 0 to |ids|
        invariant lines == all[..i]
      {
        var line := ListedLine(ids, i, held);
        assert all[..i + 1] == all[..i] + [all[i]];
        lines := lines + [line];
      }
    }

    method ListedLine(ids: seq<string>, i: nat, held: map<string, int>) returns (line: ProfileAccounting)
      requires PolicyOk(state.policy) && held == HeldMap(state.leases)
      requires ids == SortedView(ProfileIds(state.policy)) && i < |ids|
      ensures i < |SnapshotOf(View().mem).accounting| && line == SnapshotOf(View().mem).accounting[i]
    {
      hide AccountingOf, HeldMap, SnapshotOf, PolicyOk, ProfileIds, ProtectedMaximum;
      SnapshotLine(View().mem, i);
      var p := FindProfile(state.policy, ids[i]);
      line := ProfileLine(p.value, held);
    }
  }

  // ---------------------------------------------------------------------
  // Facts about values

  ghost function StaleAmong(m: Memory, profiles: set<string>, now: int): set<string> {
    set p | p in profiles && p in m.demandDeadlines && now >= m.demandDeadlines[p]
  }

  lemma ForgetOneMore(m: Memory, gone: set<string>, p: string)
    ensures ForgetDemand(ForgetDemand(m, gone), {p}) == ForgetDemand(m, gone + {p})
  {
    assert m.demand - gone - {p} == m.demand - (gone + {p});
    assert m.known - gone - {p} == m.known - (gone + {p});
    assert m.demandDeadlines - gone - {p} == m.demandDeadlines - (gone + {p});
  }

  /** Some environment in which the command runs; used when the command does not get as far as its sweep. */
  ghost function AnyEnv(n: Node, now: int, saves: Saves): (env: Env)
    ensures env == EnvOf(now, env.order, saves) && EnvOk(n, env)
  {
    SomeOrder(Due(n.mem, now));
    var order :| Enumerates(order, Due(n.mem, now));
    EnvOf(now, order, saves)
  }

  lemma SomeOrder(s: set<Key>)
    ensures exists order :: Enumerates(order, s)
  {
    var order := Enumeration(s);
  }

  lemma ValidPolicyInForce(n: Node)
    requires NodeOk(n)
    ensures PolicyOk(n.mem.ledger.policy)
  {
    hide PolicyOk, LeasesOk, TombstonesOk, FencesOk;
  }

  lemma SnapshotParts(m: Memory)
    requires PolicyOk(m.ledger.policy)
    ensures
      var s := SnapshotOf(m);
      && s.ledger == m.ledger && |s.accounting| == |SortedView(ProfileIds(m.ledger.policy))|
      && s.availableUnits == Max(m.ledger.policy.totalUnits - HeldBy(m.ledger.policy.profiles, HeldMap(m.ledger.leases)), 0)
  {
    hide AccountingOf, HeldMap, HeldBy, PolicyOk;
  }

  lemma SnapshotLine(m: Memory, i: nat)
    requires PolicyOk(m.ledger.policy) && i < |SortedView(ProfileIds(m.ledger.policy))|
    ensures
      var h := m.ledger.policy;
      var p := Lookup(h.profiles, SortedView(ProfileIds(h))[i]);
      p.Some? && p.value.unitCost >= 1 && i < |SnapshotOf(m).accounting| && SnapshotOf(m).accounting[i] == AccountingOf(m, p.value)
  {
    hide AccountingOf, HeldMap, HeldBy, PolicyOk;
    ListedProfile(m.ledger.policy, SortedView(ProfileIds(m.ledger.policy))[i]);
  }

  lemma KeyNamesProfile(k: Key)
    requires ValidKey(k)
    ensures ValidProfileId(k.profile)
  {}

  lemma KnownCost(n: Node, p: string)
    requires NodeOk(n) && Knows(n.mem.ledger.policy, p)
    ensures Lookup(n.mem.ledger.policy.profiles, p).value.unitCost >= 1
  {
    hide LeasesOk, TombstonesOk, FencesOk, DemandOk;
    KnownProfileIsValid(n.mem.ledger.policy, p);
  }

  lemma FenceIsSorted(n: Node, p: string)
    requires NodeOk(n)
    ensures p in n.mem.ledger.fences ==> StrictlySorted(n.mem.ledger.fences[p].pending)
  {
    hide LeasesOk, TombstonesOk, PolicyOk, DemandOk;
    if p in n.mem.ledger.fences { assert FenceOk(n.mem.ledger, p); }
  }

  lemma EntombedIsDistinct(n: Node, k: Key, entry: Tombstone)
    requires NodeOk(n) && entry.profileId == k.profile && entry.slotKey == k.slot && entry.sequence == n.mem.ledger.sequence + 1
    ensures DistinctSequences(n.mem.ledger.tombstones[k := entry])
  {
    hide LeasesOk, FencesOk, PolicyOk, DemandOk;
    EntombIsOk(n.mem.ledger, k, entry);
  }

  lemma EntombPermitted(k: Key, reason: TombstoneReason, evidence: string)
    ensures Permitted(CmdReconcile(k, Some(evidence)), true, Remove(k, reason, evidence))
  {}

  lemma GrantIsApplied(l: Ledger, k: Key, units: int, expiresAt: int)
    ensures
      Apply(l, Grant(k, units, Provisional, expiresAt)) ==
        l.(sequence := l.sequence + 1, tombstones := l.tombstones - {k},
           leases := l.leases[k := GrantedLease(k, units, Provisional, expiresAt, l.sequence + 1)])
  {}

  lemma BindIsApplied(l: Ledger, k: Key, name: string)
    requires k in l.leases
    ensures
      Apply(l, Bind(k, name)) ==
        l.(sequence := l.sequence + 1, leases := l.leases[k := l.leases[k].(registrationName := name)])
  {}

  lemma RenewIsApplied(l: Ledger, k: Key, expiresAt: int)
    requires k in l.leases
    ensures
      Apply(l, Renew(k, expiresAt)) ==
        l.(sequence := l.sequence + 1, leases := l.leases[k := l.leases[k].(expiresAt := expiresAt)])
  {}

  lemma PromoteIsApplied(l: Ledger, k: Key)
    requires k in l.leases
    ensures
      Apply(l, Promote(k, false)) ==
        l.(sequence := l.sequence + 1, leases := l.leases[k := PromotedLease(l.leases[k], l.sequence + 1)])
  {}
}
