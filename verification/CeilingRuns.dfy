/**
 Safety of the worker ceiling under interleaving. A reservation holds the
 controller's lock while it reads the members' worker counts one by one, but
 launches, failures, exits and the hand-over of recovered workers go on without
 that lock, so every count is read at a different instant.
 */
module CeilingRuns {
  import opened Ordering
  import opened FairShare
  import opened Sums
  import opened Policy
  import opened ProfileCeiling

  /** The member that counts recovered workers no target owns yet; its name sorts before every target. */
  const RECOVERED := "\0recovered"

  predicate TargetKey(k: string) {
    k != "" && k[0] > '\0'
  }

  /**
   One target. `live` workers are in its runner map. Its reservations are waiting,
   started (the worker is in the map) or failed until they are settled. `listed`
   recovered workers of the target are still counted by the RECOVERED member, and
   `taken` of those are in the runner map already or gone.
   */
  datatype Target = Target(
    joined: bool, live: nat, waiting: nat, started: nat, failed: nat, demand: nat, listed: nat, taken: nat)

  type Targets = map<string, Target>

  function InFlight(t: Target): nat {
    t.waiting + t.started + t.failed
  }

  /** Real workers of the target, recovered ones included, plus reservations it may still launch. */
  function Exposure(t: Target): int {
    t.live + t.waiting + t.listed - t.taken
  }

  function Exposures(ts: Targets): map<string, int> {
    map k | k in ts :: Exposure(ts[k])
  }

  function ListedCounts(ts: Targets): map<string, int> {
    map k | k in ts :: ts[k].listed
  }

  function MemberKeys(ts: Targets): set<string> {
    {RECOVERED} + set k | k in ts && ts[k].joined
  }

  /** A reservation in progress; `listedThen` remembers the recovered lists when RECOVERED was read. */
  datatype Turn = Turn(
    key: string, want: nat, keys: seq<string>, next: nat, held: map<string, int>, listedThen: map<string, int>)

  datatype World = World(ceiling: nat, targets: Targets, rotation: nat, turn: Option<Turn>)

  /** What a member reports at this instant. */
  ghost function Reading(ts: Targets, key: string): int {
    if key == RECOVERED then MapSum(ListedCounts(ts))
    else if key in ts then InFlight(ts[key]) + ts[key].live
    else 0
  }

  /** The controller's members: every joined target, and the one for recovered workers. */
  function MembersOf(ts: Targets): map<string, Member> {
    map k | k in MemberKeys(ts) ::
      if k in ts && k != RECOVERED then Member(ts[k].demand, InFlight(ts[k])) else Member(0, 0)
  }

  // ---------------------------------------------------------------------
  // Steps

  datatype Move =
    | Ask(demand: nat) | Launch | Fail | Exit | SettleStarted | SettleFailed | Abandon(count: nat)
    | HandOver | LoseRecovered | DropListed

  datatype Step = Join(key: string) | Leave(key: string) | Begin(key: string, want: nat) | Read | Finish
    | Local(key: string, move: Move)

  /** Moves that go through the controller and so wait for its lock. */
  predicate NeedsLock(move: Move) {
    move.Ask? || move.SettleStarted? || move.SettleFailed? || move.Abandon?
  }

  predicate CanMove(t: Target, move: Move) {
    match move
    case Ask(_) => t.joined
    case Launch => t.joined && t.waiting > 0
    case Fail => t.joined && t.waiting > 0
    case Exit => t.live > 0
    case SettleStarted => t.started > 0
    case SettleFailed => t.failed > 0
    case Abandon(count) => count <= t.waiting
    case HandOver => t.joined && t.taken < t.listed
    case LoseRecovered => t.taken < t.listed
    case DropListed => t.joined && t.taken == t.listed
  }

  function Moved(t: Target, move: Move): Target
    requires CanMove(t, move)
  {
    match move
    case Ask(demand) => t.(demand := demand)
    case Launch => t.(live := t.live + 1, waiting := t.waiting - 1, started := t.started + 1)
    case Fail => t.(waiting := t.waiting - 1, failed := t.failed + 1)
    case Exit => t.(live := t.live - 1)
    case SettleStarted => t.(started := t.started - 1)
    case SettleFailed => t.(failed := t.failed - 1)
    case Abandon(count) => t.(waiting := t.waiting - count)
    case HandOver => t.(live := t.live + 1, taken := t.taken + 1)
    case LoseRecovered => t.(taken := t.taken + 1)
    case DropListed => t.(listed := 0, taken := 0)
  }

  predicate Possible(w: World, s: Step) {
    match s
    case Join(k) => w.turn.None? && TargetKey(k)
    case Leave(k) => w.turn.None? && k in w.targets && w.targets[k].joined && w.targets[k].listed == 0
    case Begin(k, want) => w.turn.None? && k in w.targets && w.targets[k].joined && want > 0
    case Read => w.turn.Some? && w.turn.value.next < |w.turn.value.keys|
    case Finish => w.turn.Some? && w.turn.value.next == |w.turn.value.keys| && w.turn.value.key in w.targets
    case Local(k, move) => k in w.targets && CanMove(w.targets[k], move) && (NeedsLock(move) ==> w.turn.None?)
  }

  const NEW_TARGET := Target(true, 0, 0, 0, 0, 0, 0, 0)

  ghost function Next(w: World, s: Step): World
    requires Possible(w, s)
  {
    match s
    case Join(k) =>
      w.(targets := w.targets[k := if k in w.targets then w.targets[k].(joined := true) else NEW_TARGET])
    case Leave(k) =>
      var rest := w.targets - {k};
      w.(targets := rest, rotation := if w.rotation > |MemberKeys(rest)| then 0 else w.rotation)
    case Begin(k, want) =>
      w.(targets := w.targets[k := w.targets[k].(demand := want)],
         turn := Some(Turn(k, want, SortedView(MemberKeys(w.targets)), 0, map[], map[])))
    case Read =>
      var turn := w.turn.value;
      var key := turn.keys[turn.next];
      w.(turn := Some(turn.(
        next := turn.next + 1,
        held := turn.held[key := Reading(w.targets, key)],
        listedThen := if key == RECOVERED then ListedCounts(w.targets) else turn.listedThen)))
    case Finish =>
      var turn := w.turn.value;
      var t := w.targets[turn.key];
      var granted := GrantFor(w.ceiling, w.rotation, turn.keys, Demands(MembersOf(w.targets)), turn.held, turn.key, turn.want);
      w.(turn := None,
         rotation := Advanced(w.rotation, w.ceiling, granted, |turn.keys|),
         targets := w.targets[turn.key := t.(waiting := t.waiting + granted, demand := Max(turn.want - granted, 0))])
    case Local(k, move) => w.(targets := w.targets[k := Moved(w.targets[k], move)])
  }

  // ---------------------------------------------------------------------
  // The invariant

  predicate TargetOk(k: string, t: Target) {
    TargetKey(k) && t.taken <= t.listed && (!t.joined ==> t.live == 0 && t.waiting == 0)
  }

  ghost predicate TargetsOk(ts: Targets) {
    forall k {:trigger ts[k]} :: k in ts ==> TargetOk(k, ts[k])
  }

  /** Every count read so far covers what the target can still have, given the recovered lists read first. */
  ghost predicate CountsCover(ts: Targets, turn: Turn) {
    && turn.listedThen.Keys == ts.Keys
    && RECOVERED in turn.held && turn.held[RECOVERED] == MapSum(turn.listedThen)
    && (forall k {:trigger ts[k]} :: k in ts ==> ts[k].listed <= turn.listedThen[k])
    && (forall k {:trigger turn.held[k]} :: k in turn.held && k in ts ==> Exposure(ts[k]) <= turn.listedThen[k] + turn.held[k])
  }

  ghost predicate TurnOk(ts: Targets, turn: Turn) {
    && turn.key in ts && ts[turn.key].joined
    && turn.keys == SortedView(MemberKeys(ts))
    && turn.next <= |turn.keys|
    && turn.held.Keys == Elements(turn.keys[..turn.next])
    && (turn.next > 0 ==> CountsCover(ts, turn))
  }

  ghost predicate WorldOk(w: World) {
    && w.ceiling > 0
    && TargetsOk(w.targets)
    && w.rotation <= |MemberKeys(w.targets)|
    && (w.turn.Some? ==> TurnOk(w.targets, w.turn.value))
  }

  ghost function Committed(w: World): int {
    MapSum(Exposures(w.targets))
  }

  /** The recovered workers' member is read before any target. */
  lemma RecoveredIsFirst(ts: Targets)
    requires TargetsOk(ts)
    ensures SortedView(MemberKeys(ts)) != [] && SortedView(MemberKeys(ts))[0] == RECOVERED
  {
    var keys := SortedView(MemberKeys(ts));
    assert RECOVERED in Elements(keys);
    assert keys != [];
    assert RECOVERED[0] == '\0';
    var i :| 0 <= i < |keys| && keys[i] == RECOVERED;
    assert keys[0] in Elements(keys);
    LessTotal(keys[0], RECOVERED);
  }

  // ---------------------------------------------------------------------
  // Updates of one target

  lemma PutOk(ts: Targets, k: string, t: Target)
    requires TargetsOk(ts) && TargetOk(k, t)
    ensures TargetsOk(ts[k := t])
  {}

  lemma PutExposure(ts: Targets, k: string, t: Target)
    ensures MapSum(Exposures(ts[k := t])) == MapSum(Exposures(ts)) + Exposure(t) - if k in ts then Exposure(ts[k]) else 0
  {
    hide MapSum, Exposure;
    assert Exposures(ts[k := t]) == Exposures(ts)[k := Exposure(t)];
    MapSumPut(Exposures(ts), k, Exposure(t));
  }

  lemma PutMembers(ts: Targets, k: string, t: Target)
    requires k in ts && t.joined == ts[k].joined
    ensures MemberKeys(ts[k := t]) == MemberKeys(ts)
  {}

  // ---------------------------------------------------------------------
  // Local moves

  /** A move that raises neither exposure nor the recovered list keeps everything. */
  lemma QuietUpdate(w: World, k: string, t: Target)
    requires WorldOk(w) && k in w.targets && TargetOk(k, t)
    requires t.joined == w.targets[k].joined && t.listed <= w.targets[k].listed && Exposure(t) <= Exposure(w.targets[k])
    ensures
      var w' := w.(targets := w.targets[k := t]);
      WorldOk(w') && Committed(w') <= Committed(w)
  {
    hide MapSum, SortedView, Exposure, Exposures, MemberKeys, CountsCover, TargetsOk, TargetOk;
    PutOk(w.targets, k, t);
    PutMembers(w.targets, k, t);
    PutExposure(w.targets, k, t);
    if w.turn.Some? && w.turn.value.next > 0 {
      CoverKept(w.targets, k, t, w.turn.value);
    }
  }

  lemma CoverKept(ts: Targets, k: string, t: Target, turn: Turn)
    requires CountsCover(ts, turn) && k in ts
    requires t.listed <= ts[k].listed && Exposure(t) <= Exposure(ts[k])
    ensures CountsCover(ts[k := t], turn)
  {
    hide MapSum, Exposure;
  }

  lemma MoveIsQuiet(k: string, t: Target, move: Move)
    requires TargetOk(k, t) && CanMove(t, move)
    ensures
      var t' := Moved(t, move);
      TargetOk(k, t') && t'.joined == t.joined && t'.listed <= t.listed && Exposure(t') <= Exposure(t)
  {}

  // ---------------------------------------------------------------------
  // Reservations

  lemma JoinOk(w: World, k: string)
    requires WorldOk(w) && Possible(w, Join(k))
    ensures WorldOk(Next(w, Join(k))) && Committed(Next(w, Join(k))) == Committed(w)
  {
    hide MapSum, SortedView, Exposures, MemberKeys, TargetsOk;
    var t := if k in w.targets then w.targets[k].(joined := true) else NEW_TARGET;
    if k in w.targets { TargetIsOk(w, k); }
    PutOk(w.targets, k, t);
    PutExposure(w.targets, k, t);
    JoinedMembers(w.targets, k, t);
  }

  lemma JoinedMembers(ts: Targets, k: string, t: Target)
    requires t.joined
    ensures |MemberKeys(ts)| <= |MemberKeys(ts[k := t])|
  {
    SubsetSize(MemberKeys(ts), MemberKeys(ts[k := t]));
  }

  lemma LeaveOk(w: World, k: string)
    requires WorldOk(w) && Possible(w, Leave(k))
    ensures WorldOk(Next(w, Leave(k))) && Committed(Next(w, Leave(k))) <= Committed(w)
  {
    hide MapSum, SortedView, MemberKeys, Exposures, CountsCover;
    TargetIsOk(w, k);
    DropExposure(w.targets, k);
  }

  lemma DropExposure(ts: Targets, k: string)
    requires TargetsOk(ts) && k in ts
    ensures MapSum(Exposures(ts - {k})) == MapSum(Exposures(ts)) - Exposure(ts[k]) && TargetsOk(ts - {k})
  {
    hide MapSum, Exposure;
    MapSumSplit(Exposures(ts), k);
    assert Exposures(ts - {k}) == Exposures(ts) - {k};
  }

  lemma BeginOk(w: World, k: string, want: nat)
    requires WorldOk(w) && Possible(w, Begin(k, want))
    ensures WorldOk(Next(w, Begin(k, want))) && Committed(Next(w, Begin(k, want))) == Committed(w)
  {
    hide MapSum, SortedView, Exposures, MemberKeys, TargetsOk, CountsCover;
    var t := w.targets[k].(demand := want);
    TargetIsOk(w, k);
    PutOk(w.targets, k, t);
    PutMembers(w.targets, k, t);
    PutExposure(w.targets, k, t);
    assert Elements<string>([]) == {};
  }

  lemma ReadOk(w: World)
    requires WorldOk(w) && Possible(w, Read)
    ensures WorldOk(Next(w, Read)) && Committed(Next(w, Read)) == Committed(w)
  {
    hide MapSum, SortedView, MemberKeys, CountsCover, Reading, TargetsOk;
    var turn := w.turn.value;
    var key := turn.keys[turn.next];
    assert turn.keys[..turn.next + 1] == turn.keys[..turn.next] + [key];
    ReadCovers(w.targets, turn);
  }

  lemma ReadCovers(ts: Targets, turn: Turn)
    requires TargetsOk(ts) && TurnOk(ts, turn) && turn.next < |turn.keys|
    ensures
      var key := turn.keys[turn.next];
      CountsCover(ts, turn.(next := turn.next + 1, held := turn.held[key := Reading(ts, key)],
                            listedThen := if key == RECOVERED then ListedCounts(ts) else turn.listedThen))
  {
    hide MapSum, SortedView, StrictlySorted, MemberKeys;
    RecoveredIsFirst(ts);
    var key := turn.keys[turn.next];
    if turn.next > 0 {
      assert key != turn.keys[0] by { SortedIsDistinct(turn.keys); }
    } else {
      assert turn.held == map[] by { assert turn.keys[..0] == []; }
      assert RECOVERED[0] == '\0';
    }
  }

  lemma {:induction false} CoveredSum(e: map<string, int>, listed: map<string, int>, held: map<string, int>)
    requires e.Keys == listed.Keys && held.Keys <= e.Keys
    requires forall k :: k in e ==> e[k] <= listed[k] + At(held, k)
    ensures MapSum(e) <= MapSum(listed) + MapSum(held)
    decreases |e|
  {
    if e == map[] {
      assert held == map[];
    } else {
      var k :| k in e;
      MapSumSplit(e, k);
      MapSumSplit(listed, k);
      if k in held { MapSumSplit(held, k); } else { assert held - {k} == held; }
      CoveredSum(e - {k}, listed - {k}, held - {k});
    }
  }

  /** Once every member has been read, the counts together cover the real exposure. */
  lemma CountsCoverAll(ts: Targets, turn: Turn)
    requires TargetsOk(ts) && TurnOk(ts, turn) && turn.next == |turn.keys|
    ensures MapSum(Exposures(ts)) <= MapSum(turn.held)
  {
    hide MapSum, SortedView, StrictlySorted;
    RecoveredIsFirst(ts);
    assert turn.keys[..turn.next] == turn.keys;
    assert turn.held.Keys == MemberKeys(ts);
    assert RECOVERED[0] == '\0';
    assert RECOVERED !in ts;
    MapSumSplit(turn.held, RECOVERED);
    var held := turn.held - {RECOVERED};
    forall k | k in ts ensures Exposures(ts)[k] <= turn.listedThen[k] + At(held, k) {
      if ts[k].joined { assert k in turn.held; assert turn.held[k] == held[k]; }
    }
    CoveredSum(Exposures(ts), turn.listedThen, held);
  }

  lemma FinishOk(w: World)
    requires WorldOk(w) && Possible(w, Finish)
    ensures WorldOk(Next(w, Finish)) && Committed(Next(w, Finish)) <= Max(Committed(w), w.ceiling)
  {
    hide MapSum, SortedView, GrantFor, Advanced, Exposures, MemberKeys, TargetsOk, CountsCover, ShareOf, ProtectedNeed, Demands, MembersOf, Distinct, StrictlySorted, Needs;
    var turn := w.turn.value;
    var granted := GrantFor(w.ceiling, w.rotation, turn.keys, Demands(MembersOf(w.targets)), turn.held, turn.key, turn.want);
    CountsCoverAll(w.targets, turn);
    SortedIsDistinct(turn.keys);
    GrantIsFairAndFits(w.ceiling, w.rotation, turn.keys, Demands(MembersOf(w.targets)), turn.held, turn.key, turn.want);
    var t := w.targets[turn.key].(waiting := w.targets[turn.key].waiting + granted, demand := Max(turn.want - granted, 0));
    TargetIsOk(w, turn.key);
    PutOk(w.targets, turn.key, t);
    PutMembers(w.targets, turn.key, t);
    PutExposure(w.targets, turn.key, t);
  }

  // ---------------------------------------------------------------------
  // The steps are the controller's

  /** One member of the controller changes, and nothing else. */
  ghost predicate Changes(ts: Targets, ts': Targets, key: string, m: Member) {
    MembersOf(ts') == MembersOf(ts)[key := m]
  }

  /**
   The steps do to the controller what its methods do: a finished reservation books the
   defined grant and moves the cursor, a settlement takes reservations back, joining,
   leaving and asking change one member, and launches, failures, exits and hand-overs
   change nothing there.
   */
  lemma StepsFollowController(w: World, s: Step)
    requires WorldOk(w) && Possible(w, s)
    ensures
      var ts, ts' := w.targets, Next(w, s).targets;
      match s
      case Join(k) => (k in ts && ts[k].joined && MembersOf(ts') == MembersOf(ts)) || Changes(ts, ts', k, MembersOf(ts')[k])
      case Leave(k) => MembersOf(ts') == MembersOf(ts) - {k}
      case Begin(k, want) => Changes(ts, ts', k, MembersOf(ts)[k].(demand := want))
      case Read => MembersOf(ts') == MembersOf(ts)
      case Finish =>
        var turn := w.turn.value;
        var granted := GrantFor(w.ceiling, w.rotation, SortedView(MembersOf(ts).Keys), Demands(MembersOf(ts)), turn.held, turn.key, turn.want);
        && Changes(ts, ts', turn.key, Served(MembersOf(ts)[turn.key], w.ceiling, turn.want, granted))
        && Next(w, s).rotation == Advanced(w.rotation, w.ceiling, granted, |MembersOf(ts)|)
      case Local(k, move) =>
        match move
        case Ask(demand) => Changes(ts, ts', k, MembersOf(ts)[k].(demand := demand))
        case SettleStarted => ts[k].joined ==> Changes(ts, ts', k, Taken(MembersOf(ts)[k], 1))
        case SettleFailed => ts[k].joined ==> Changes(ts, ts', k, Taken(MembersOf(ts)[k], 1))
        case Abandon(count) => ts[k].joined ==> Changes(ts, ts', k, Taken(MembersOf(ts)[k], count))
        case _ => MembersOf(ts') == MembersOf(ts)
  {
    hide MapSum, SortedView, GrantFor, TurnOk, Demands, Advanced, Reading, MembersOf, MemberKeys;
    KeysAreTargets(w.targets);
    match s
    case Join(k) =>
      MemberPut(w.targets, k, Next(w, s).targets[k]);
      MemberOf(w.targets, k);
      MemberOf(Next(w, s).targets, k);
    case Leave(k) => MemberDrop(w.targets, k);
    case Begin(k, want) => MemberPut(w.targets, k, Next(w, s).targets[k]); MemberOf(w.targets, k);
    case Read =>
    case Finish => FinishFollows(w);
    case Local(k, move) => MemberPut(w.targets, k, Next(w, s).targets[k]); MemberOf(w.targets, k);
  }

  function Taken(m: Member, count: nat): Member {
    m.(inFlight := Max(m.inFlight - count, 0))
  }

  lemma KeysAreTargets(ts: Targets)
    requires TargetsOk(ts)
    ensures RECOVERED !in ts && MembersOf(ts).Keys == MemberKeys(ts)
  {
    assert RECOVERED[0] == '\0';
  }

  lemma MemberOf(ts: Targets, k: string)
    requires TargetsOk(ts)
    ensures k in ts && ts[k].joined ==> k in MembersOf(ts) && MembersOf(ts)[k] == Member(ts[k].demand, InFlight(ts[k]))
  {
    KeysAreTargets(ts);
  }

  lemma MemberPut(ts: Targets, k: string, t: Target)
    requires TargetsOk(ts) && TargetKey(k)
    ensures t.joined ==> MembersOf(ts[k := t]) == MembersOf(ts)[k := Member(t.demand, InFlight(t))]
    ensures k in ts && !ts[k].joined && !t.joined ==> MembersOf(ts[k := t]) == MembersOf(ts)
    ensures k in ts && ts[k].joined && t.joined && t.demand == ts[k].demand && InFlight(t) == InFlight(ts[k]) ==>
      MembersOf(ts[k := t]) == MembersOf(ts)
  {
    hide InFlight;
    KeysAreTargets(ts);
    assert RECOVERED[0] == '\0';
    assert k != RECOVERED;
  }

  lemma MemberDrop(ts: Targets, k: string)
    requires TargetsOk(ts) && k in ts
    ensures MembersOf(ts - {k}) == MembersOf(ts) - {k}
  {
    hide InFlight;
    KeysAreTargets(ts);
  }

  lemma FinishFollows(w: World)
    requires WorldOk(w) && Possible(w, Finish)
    ensures
      var turn, ts, ts' := w.turn.value, w.targets, Next(w, Finish).targets;
      var granted := GrantFor(w.ceiling, w.rotation, SortedView(MembersOf(ts).Keys), Demands(MembersOf(ts)), turn.held, turn.key, turn.want);
      && turn.key in MembersOf(ts)
      && Changes(ts, ts', turn.key, Served(MembersOf(ts)[turn.key], w.ceiling, turn.want, granted))
      && Next(w, Finish).rotation == Advanced(w.rotation, w.ceiling, granted, |MembersOf(ts)|)
  {
    hide MapSum, SortedView, GrantFor, CountsCover, Demands, Advanced, MembersOf, MemberKeys, StrictlySorted, Elements;
    var turn := w.turn.value;
    KeysAreTargets(w.targets);
    assert TargetKey(turn.key);
    MemberPut(w.targets, turn.key, Next(w, Finish).targets[turn.key]);
    MemberOf(w.targets, turn.key);
    TargetIsOk(w, turn.key);
    assert |MembersOf(w.targets).Keys| == |MembersOf(w.targets)|;
  }

  // ---------------------------------------------------------------------
  // Runs

  /** Every step keeps the invariant and never pushes the commitment over the ceiling. */
  lemma StepIsSafe(w: World, s: Step)
    requires WorldOk(w) && Possible(w, s)
    ensures WorldOk(Next(w, s)) && Committed(Next(w, s)) <= Max(Committed(w), w.ceiling)
    ensures Next(w, s).ceiling == w.ceiling
  {
    hide WorldOk, Committed, Moved;
    match s
    case Join(k) => JoinOk(w, k);
    case Leave(k) => LeaveOk(w, k);
    case Begin(k, want) => BeginOk(w, k, want);
    case Read => ReadOk(w);
    case Finish => FinishOk(w);
    case Local(k, move) =>
      TargetIsOk(w, k);
      MoveIsQuiet(k, w.targets[k], move);
      QuietUpdate(w, k, Moved(w.targets[k], move));
  }

  lemma TargetIsOk(w: World, k: string)
    requires WorldOk(w) && k in w.targets
    ensures TargetOk(k, w.targets[k])
  {
    hide TurnOk;
  }

  datatype Run = Run(worlds: seq<World>, steps: seq<Step>)

  ghost predicate StepsTo(r: Run, i: nat)
    requires i < |r.steps| && i + 1 < |r.worlds|
  {
    Possible(r.worlds[i], r.steps[i]) && r.worlds[i + 1] == Next(r.worlds[i], r.steps[i])
  }

  /** A run under a positive ceiling that starts with recovered workers only. */
  ghost predicate ValidRun(r: Run) {
    && |r.worlds| == |r.steps| + 1
    && r.worlds[0].ceiling > 0 && r.worlds[0].rotation == 0 && r.worlds[0].turn.None?
    && (forall k {:trigger r.worlds[0].targets[k]} :: k in r.worlds[0].targets ==>
          TargetKey(k) && r.worlds[0].targets[k] == Target(false, 0, 0, 0, 0, 0, r.worlds[0].targets[k].listed, 0))
    && (forall i {:trigger StepsTo(r, i)} :: 0 <= i < |r.steps| ==> StepsTo(r, i))
  }

  lemma {:induction false} EveryWorldOk(r: Run, i: nat)
    requires ValidRun(r) && i <= |r.steps|
    ensures WorldOk(r.worlds[i]) && r.worlds[i].ceiling == r.worlds[0].ceiling
  {
    hide Next, Possible, TurnOk;
    if i > 0 {
      EveryWorldOk(r, i - 1);
      assert StepsTo(r, i - 1);
      StepIsSafe(r.worlds[i - 1], r.steps[i - 1]);
    }
  }

  /**
   In every interleaving, real workers plus reservations that may still launch
   never exceed the larger of the ceiling and what there was at an earlier moment:
   once within the ceiling, always within it.
   */
  lemma {:induction false} CeilingIsNeverExceeded(r: Run, i: nat, j: nat)
    requires ValidRun(r) && i <= j <= |r.steps|
    ensures Committed(r.worlds[j]) <= Max(Committed(r.worlds[i]), r.worlds[0].ceiling)
    decreases j
  {
    hide Next, Possible, WorldOk, Committed;
    if i < j {
      CeilingIsNeverExceeded(r, i, j - 1);
      EveryWorldOk(r, j - 1);
      assert StepsTo(r, j - 1);
      StepIsSafe(r.worlds[j - 1], r.steps[j - 1]);
    }
  }

  /** In every reachable state the members' guaranteed shares partition the ceiling exactly. */
  lemma SharesPartitionAlways(r: Run, i: nat)
    requires ValidRun(r) && i <= |r.steps|
    ensures
      var w := r.worlds[i];
      ShareSum(|MemberKeys(w.targets)|, w.rotation, w.ceiling) == w.ceiling
  {
    hide StepsTo, TurnOk;
    EveryWorldOk(r, i);
    var w := r.worlds[i];
    assert RECOVERED in MemberKeys(w.targets);
    SharesPartitionExactlyInRange(|MemberKeys(w.targets)|, w.rotation, w.ceiling);
  }
}
