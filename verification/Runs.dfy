/**
 Whole runs of one admission host: commands, crashes and restarts in any order,
 from a fresh store, with any clock readings, sweep orders and save failures.
 */
module Runs {
  import opened Identity
  import opened Ordering
  import opened Policy
  import opened Ledgers
  import opened Commands
  import opened Invariants

  /** The durable document and, while a coordinator runs, its memory. */
  datatype Host = Host(stored: Option<Ledger>, memory: Option<Memory>, history: seq<Edit>)

  const FRESH_HOST := Host(None, None, [])

  datatype Event =
    | Do(command: Command, env: Env)
    | Crash
    | Open(ttl: int, order: seq<Key>, saved: bool)

  function Document(h: Host): Ledger {
    if h.stored.Some? then h.stored.value else NEW_LEDGER
  }

  /** The ledger in force: the running process's, else the stored one. */
  function LedgerOf(h: Host): Ledger {
    if h.memory.Some? then h.memory.value.ledger else Document(h)
  }

  function NodeOf(h: Host): Node
    requires h.memory.Some?
  {
    Node(h.stored, h.memory.value, h.history)
  }

  function HostOf(n: Node): Host {
    Host(n.stored, Some(n.mem), n.history)
  }

  function StartMemory(l: Ledger, ttl: int): Memory {
    Memory(l, map[], {}, map[], l.sequence % ROTATION_SEED_MODULUS, map[], if ttl <= 0 then DEFAULT_LEASE_TTL else ttl)
  }

  /** Starting a process; None when the document is refused or the discard cannot be saved. */
  ghost function Opened(h: Host, ttl: int, order: seq<Key>, saved: bool): Option<Host> {
    if h.stored.None? then Some(h.(memory := Some(StartMemory(NEW_LEDGER, ttl))))
    else if !Accepts(h.stored.value) then None
    else if ProvisionalKeys(h.stored.value.leases) == {} then Some(h.(memory := Some(StartMemory(h.stored.value, ttl))))
    else if !saved then None
    else
      var e := Sweep(order, RestartDiscarded);
      var pruned := Apply(h.stored.value, e);
      Some(Host(Some(pruned), Some(StartMemory(pruned, ttl)), h.history + [e]))
  }

  ghost predicate Possible(h: Host, e: Event) {
    match e
    case Do(_, env) => h.memory.Some? && EnvOk(NodeOf(h), env) && PolicyOk(LedgerOf(h).policy)
    case Crash => true
    case Open(_, order, _) => h.memory.None? && Enumerates(order, ProvisionalKeys(Document(h).leases))
  }

  ghost function Next(h: Host, e: Event): Host
    requires Possible(h, e)
  {
    match e
    case Do(c, env) => HostOf(Run(NodeOf(h), c, env).node)
    case Crash => h.(memory := None)
    case Open(ttl, order, saved) =>
      var started := Opened(h, ttl, order, saved);
      if started.Some? then started.value else h
  }

  ghost predicate HostOk(h: Host) {
    && (h.memory.Some? ==> NodeOk(NodeOf(h)))
    && ValidLedger(Document(h))
  }

  datatype Trace = Trace(hosts: seq<Host>, events: seq<Event>)

  ghost predicate StepAt(t: Trace, i: nat)
    requires i < |t.events| && i + 1 < |t.hosts|
  {
    Possible(t.hosts[i], t.events[i]) && t.hosts[i + 1] == Next(t.hosts[i], t.events[i])
  }

  /** A run from a fresh store. */
  ghost predicate ValidTrace(t: Trace) {
    && |t.hosts| == |t.events| + 1
    && t.hosts[0] == FRESH_HOST
    && forall i {:trigger StepAt(t, i)} :: 0 <= i < |t.events| ==> StepAt(t, i)
  }

  ghost function ReplyAt(t: Trace, i: nat): Reply
    requires ValidTrace(t) && i < |t.events| && t.events[i].Do?
  {
    assert StepAt(t, i);
    Run(NodeOf(t.hosts[i]), t.events[i].command, t.events[i].env)
  }

  // ---------------------------------------------------------------------
  // The invariant over whole runs

  lemma EmptyLedgerValid()
    ensures ValidLedger(NEW_LEDGER)
  {
    assert NumberedUpTo(map[], 0);
  }

  lemma StartedOk(stored: Option<Ledger>, l: Ledger, ttl: int, history: seq<Edit>)
    requires ValidLedger(l) && ProvisionalKeys(l.leases) == {}
    requires stored == Some(l) || (stored.None? && l == NEW_LEDGER)
    ensures HostOk(Host(stored, Some(StartMemory(l, ttl)), history))
  {
    hide ValidLedger;
    var n := Node(stored, StartMemory(l, ttl), history);
    assert DurableOk(n) && DemandOk(n.mem);
  }

  lemma DiscardOk(l: Ledger, order: seq<Key>, history: seq<Edit>)
    requires ValidLedger(l) && Enumerates(order, ProvisionalKeys(l.leases)) && order != []
    ensures
      var e := Sweep(order, RestartDiscarded);
      && Enabled(l, e) && ValidLedger(Apply(l, e)) && ProvisionalKeys(Apply(l, e).leases) == {}
      && Extends(l, history, Apply(l, e), history + [e])
  {
    hide ValidLedger, Compact, Swept;
    var e := Sweep(order, RestartDiscarded);
    assert forall k :: k in order <==> k in Elements(order);
    assert Enabled(l, e);
    EditKeepsValid(l, e);
    assert Apply(l, e).leases == l.leases - ProvisionalKeys(l.leases);
    ExtendsByOne(l, e, history);
  }

  lemma OpenedOk(h: Host, ttl: int, order: seq<Key>, saved: bool)
    requires HostOk(h) && h.memory.None? && Enumerates(order, ProvisionalKeys(Document(h).leases))
    requires Opened(h, ttl, order, saved).Some?
    ensures
      var h' := Opened(h, ttl, order, saved).value;
      HostOk(h') && Extends(Document(h), h.history, LedgerOf(h'), h'.history)
  {
    hide ValidLedger, Accepts, Apply, NodeOk;
    var l := Document(h);
    if h.stored.None? || ProvisionalKeys(l.leases) == {} {
      StartedOk(h.stored, l, ttl, h.history);
      assert h.history[|h.history|..] == [];
    } else {
      assert Elements<Key>([]) == {};
      DiscardOk(l, order, h.history);
      var pruned := Apply(l, Sweep(order, RestartDiscarded));
      StartedOk(Some(pruned), pruned, ttl, h.history + [Sweep(order, RestartDiscarded)]);
    }
  }

  /** A reload of a valid document is never refused as corrupt. */
  lemma OpenNeverRefuses(h: Host, ttl: int, order: seq<Key>)
    requires HostOk(h) && h.memory.None?
    ensures Opened(h, ttl, order, true).Some?
  {
    hide ValidLedger, Accepts, Apply;
    if h.stored.Some? { ValidIsAccepted(h.stored.value); }
  }

  lemma DocumentInForce(h: Host)
    requires HostOk(h)
    ensures Document(h) == LedgerOf(h)
  {
    hide ValidLedger;
  }

  /** Commands, crashes and restarts keep the invariant and only add enabled edits. */
  lemma EventKeepsInvariant(h: Host, e: Event)
    requires HostOk(h) && Possible(h, e)
    ensures HostOk(Next(h, e))
    ensures Extends(LedgerOf(h), h.history, LedgerOf(Next(h, e)), Next(h, e).history)
  {
    hide ValidLedger, Opened, DemandOk, EnvOk, Run;
    DocumentInForce(h);
    assert h.history[|h.history|..] == [];
    match e
    case Do(c, env) =>
      CommandKeepsInvariant(NodeOf(h), c, env);
      EmptyLedgerValid();
      assert NodeOf(Next(h, e)) == Run(NodeOf(h), c, env).node;
    case Crash =>
    case Open(ttl, order, saved) =>
      if Opened(h, ttl, order, saved).Some? { OpenedOk(h, ttl, order, saved); }
  }

  /** The invariant holds at every moment of every run. */
  lemma {:induction false} EveryHostOk(t: Trace, i: nat)
    requires ValidTrace(t) && i <= |t.events|
    ensures HostOk(t.hosts[i])
  {
    hide NodeOk, Next, Possible, ValidLedger;
    if i == 0 {
      EmptyLedgerValid();
    } else {
      EveryHostOk(t, i - 1);
      assert StepAt(t, i - 1);
      EventKeepsInvariant(t.hosts[i - 1], t.events[i - 1]);
    }
  }

  /** The edits committed between two moments of a run. */
  ghost function Between(t: Trace, i: nat, j: nat): seq<Edit>
    requires i <= j < |t.hosts| && |t.hosts[i].history| <= |t.hosts[j].history|
  {
    t.hosts[j].history[|t.hosts[i].history|..]
  }

  /** Any two moments of a run are linked by a path of enabled edits. */
  lemma {:induction false} RunIsPath(t: Trace, i: nat, j: nat)
    requires ValidTrace(t) && i <= j <= |t.events|
    ensures Extends(LedgerOf(t.hosts[i]), t.hosts[i].history, LedgerOf(t.hosts[j]), t.hosts[j].history)
    decreases j - i
  {
    hide HostOk, Next, Possible;
    if i == j {
      assert t.hosts[i].history[|t.hosts[i].history|..] == [];
    } else {
      RunIsPath(t, i, j - 1);
      EveryHostOk(t, j - 1);
      assert StepAt(t, j - 1);
      EventKeepsInvariant(t.hosts[j - 1], t.events[j - 1]);
      ExtendsTransitive(LedgerOf(t.hosts[i]), t.hosts[i].history,
                        LedgerOf(t.hosts[j - 1]), t.hosts[j - 1].history,
                        LedgerOf(t.hosts[j]), t.hosts[j].history);
    }
  }

  // ---------------------------------------------------------------------
  // Reachable hosts

  /** Some run from a fresh store ends in this host. */
  ghost predicate Reachable(h: Host) {
    exists t :: ValidTrace(t) && t.hosts[|t.events|] == h
  }

  lemma FreshIsReachable()
    ensures Reachable(FRESH_HOST)
  {
    var t := Trace([FRESH_HOST], []);
    assert ValidTrace(t) && t.hosts[|t.events|] == FRESH_HOST;
  }

  lemma ReachStep(h: Host, e: Event)
    requires Reachable(h) && Possible(h, e)
    ensures Reachable(Next(h, e))
  {
    hide Next, Possible;
    var t :| ValidTrace(t) && t.hosts[|t.events|] == h;
    var t' := Trace(t.hosts + [Next(h, e)], t.events + [e]);
    forall i | 0 <= i < |t'.events| ensures StepAt(t', i) {
      if i < |t.events| { assert StepAt(t, i); }
    }
    assert ValidTrace(t') && t'.hosts[|t'.events|] == Next(h, e);
  }

  lemma ReachableIsOk(h: Host)
    requires Reachable(h)
    ensures HostOk(h)
  {
    hide Next, Possible, HostOk;
    var t :| ValidTrace(t) && t.hosts[|t.events|] == h;
    EveryHostOk(t, |t.events|);
  }
}
