/**
 The profile-wide worker ceiling: the controller that reserves capacity for many
 targets, the size of its grants, and the interleaving of reservations with
 launches, exits and the hand-over of recovered workers.
 */
module ProfileCeiling {
  import opened Ordering
  import opened FairShare
  import opened Sums

  // ---------------------------------------------------------------------
  // The size of a grant

  /** The guaranteed portion of the ceiling for one member. */
  function ShareOf(ceiling: nat, rotation: nat, keys: seq<string>, key: string): nat {
    if |keys| == 0 then ceiling
    else if key in keys then Share(|keys|, rotation, IndexOf(keys, key), ceiling)
    else 0
  }

  /** What the first members still need, up to their guaranteed portions. */
  function ProtectedNeed(
    ceiling: nat, rotation: nat, keys: seq<string>, demand: map<string, int>, held: map<string, int>,
    key: string, upTo: nat): (units: nat)
    requires upTo <= |keys|
  {
    if upTo == 0 then 0 else
      var other := keys[upTo - 1];
      var before := ProtectedNeed(ceiling, rotation, keys, demand, held, key, upTo - 1);
      var need := At(demand, other) - At(held, other);
      if other == key || need <= 0 then before
      else before + Min(need, ShareOf(ceiling, rotation, keys, other))
  }

  /** The part of a grant that the member's own guarantee covers. */
  function Guaranteed(share: nat, own: int, want: nat, free: int): (units: nat)
    requires free > 0
  {
    if own < share then Min(Min(want, share - own), free) else 0
  }

  /** How many additional workers the member may start; no ceiling means all it wants. */
  ghost function GrantFor(
    ceiling: nat, rotation: nat, keys: seq<string>, demand: map<string, int>, held: map<string, int>,
    key: string, want: nat): (granted: nat)
  {
    var free := ceiling - MapSum(held);
    if ceiling == 0 then want
    else if free <= 0 then 0
    else
      var base := Guaranteed(ShareOf(ceiling, rotation, keys, key), At(held, key), want, free);
      var surplus := free - base - ProtectedNeed(ceiling, rotation, keys, demand, held, key, |keys|);
      if base < want && surplus > 0 then base + Min(want - base, surplus) else base
  }

  /** For every other member that wants more than it holds, its missing workers up to its guaranteed share. */
  function Needs(
    ceiling: nat, rotation: nat, keys: seq<string>, demand: map<string, int>, held: map<string, int>, key: string): map<string, int>
  {
    map other | other in keys && other != key && At(demand, other) > At(held, other) ::
      Min(At(demand, other) - At(held, other), ShareOf(ceiling, rotation, keys, other))
  }

  function NeedsUpTo(
    ceiling: nat, rotation: nat, keys: seq<string>, demand: map<string, int>, held: map<string, int>,
    key: string, upTo: nat): map<string, int>
    requires upTo <= |keys|
  {
    map other | other in keys[..upTo] && other != key && At(demand, other) > At(held, other) ::
      Min(At(demand, other) - At(held, other), ShareOf(ceiling, rotation, keys, other))
  }

  lemma NeedsStep(
    ceiling: nat, rotation: nat, keys: seq<string>, demand: map<string, int>, held: map<string, int>,
    key: string, upTo: nat)
    requires upTo < |keys| && Distinct(keys)
    ensures
      var other, before := keys[upTo], NeedsUpTo(ceiling, rotation, keys, demand, held, key, upTo);
      && other !in before
      && NeedsUpTo(ceiling, rotation, keys, demand, held, key, upTo + 1) ==
           if other == key || At(demand, other) <= At(held, other) then before
           else before[other := Min(At(demand, other) - At(held, other), ShareOf(ceiling, rotation, keys, other))]
  {
    hide ShareOf;
    assert keys[..upTo + 1] == keys[..upTo] + [keys[upTo]];
  }

  lemma {:induction false} ProtectedIsNeeds(
    ceiling: nat, rotation: nat, keys: seq<string>, demand: map<string, int>, held: map<string, int>,
    key: string, upTo: nat)
    requires upTo <= |keys| && Distinct(keys)
    ensures
      ProtectedNeed(ceiling, rotation, keys, demand, held, key, upTo) ==
        MapSum(NeedsUpTo(ceiling, rotation, keys, demand, held, key, upTo))
  {
    hide ShareOf, MapSum, NeedsUpTo;
    if upTo == 0 {
      NoNeeds(ceiling, rotation, keys, demand, held, key);
    } else {
      var i := upTo - 1;
      ProtectedIsNeeds(ceiling, rotation, keys, demand, held, key, i);
      NeedsStep(ceiling, rotation, keys, demand, held, key, i);
      MapSumPut(NeedsUpTo(ceiling, rotation, keys, demand, held, key, i), keys[i],
                Min(At(demand, keys[i]) - At(held, keys[i]), ShareOf(ceiling, rotation, keys, keys[i])));
    }
  }

  lemma NoNeeds(ceiling: nat, rotation: nat, keys: seq<string>, demand: map<string, int>, held: map<string, int>, key: string)
    ensures MapSum(NeedsUpTo(ceiling, rotation, keys, demand, held, key, 0)) == 0
    ensures NeedsUpTo(ceiling, rotation, keys, demand, held, key, |keys|) == Needs(ceiling, rotation, keys, demand, held, key)
  {
    hide ShareOf;
    assert NeedsUpTo(ceiling, rotation, keys, demand, held, key, 0) == map[];
    assert keys[..|keys|] == keys;
  }

  /**
   The grant exactly: nothing without free capacity, and otherwise the request, up to
   the larger of the unused guarantee and what all the others' needs leave free.
   */
  lemma GrantIsExact(
    ceiling: nat, rotation: nat, keys: seq<string>, demand: map<string, int>, held: map<string, int>,
    key: string, want: nat)
    requires ceiling > 0 && Distinct(keys)
    ensures
      var free := ceiling - MapSum(held);
      var unused := ShareOf(ceiling, rotation, keys, key) - At(held, key);
      GrantFor(ceiling, rotation, keys, demand, held, key, want) ==
        if free <= 0 then 0
        else Min(want, Max(Max(Min(unused, free), 0), free - MapSum(Needs(ceiling, rotation, keys, demand, held, key))))
  {
    hide ShareOf, ProtectedNeed, MapSum, Needs, NeedsUpTo;
    ProtectedIsNeeds(ceiling, rotation, keys, demand, held, key, |keys|);
    NoNeeds(ceiling, rotation, keys, demand, held, key);
  }

  /**
   A grant never exceeds the request or the free capacity, is never less than the
   unused part of the member's guarantee, and when it exceeds that part it leaves
   the needs of all other members free.
   */
  lemma GrantIsFairAndFits(
    ceiling: nat, rotation: nat, keys: seq<string>, demand: map<string, int>, held: map<string, int>,
    key: string, want: nat)
    requires ceiling > 0 && Distinct(keys)
    ensures
      var granted := GrantFor(ceiling, rotation, keys, demand, held, key, want);
      var free := ceiling - MapSum(held);
      var unused := ShareOf(ceiling, rotation, keys, key) - At(held, key);
      && granted <= want && granted <= Max(free, 0)
      && granted >= Min(want, Min(unused, free))
      && (granted > Max(unused, 0) ==> free - granted >= MapSum(Needs(ceiling, rotation, keys, demand, held, key)))
  {
    hide ShareOf, MapSum, Needs, GrantFor;
    GrantIsExact(ceiling, rotation, keys, demand, held, key, want);
    NeedsArePositive(ceiling, rotation, keys, demand, held, key);
  }

  lemma NeedsArePositive(ceiling: nat, rotation: nat, keys: seq<string>, demand: map<string, int>, held: map<string, int>, key: string)
    ensures MapSum(Needs(ceiling, rotation, keys, demand, held, key)) >= 0
  {
    hide ShareOf, MapSum;
    MapSumPositive(Needs(ceiling, rotation, keys, demand, held, key));
  }

  /** When no other member wants more than it holds, nothing is kept back: the member gets what is free. */
  lemma IdleMembersProtectNothing(
    ceiling: nat, rotation: nat, keys: seq<string>, demand: map<string, int>, held: map<string, int>,
    key: string, want: nat)
    requires ceiling > 0 && Distinct(keys)
    requires forall other :: other in keys && other != key ==> At(demand, other) <= At(held, other)
    ensures GrantFor(ceiling, rotation, keys, demand, held, key, want) == Min(want, Max(ceiling - MapSum(held), 0))
  {
    hide ShareOf, GrantFor;
    GrantIsExact(ceiling, rotation, keys, demand, held, key, want);
    assert Needs(ceiling, rotation, keys, demand, held, key) == map[];
  }

  // ---------------------------------------------------------------------
  // What a protected need is worth

  /** The controller's numbers after the requester's grant, with accurate counts. */
  datatype Round = Round(rotation: nat, demand: map<string, int>, held: map<string, int>)

  ghost function AfterGrant(
    ceiling: nat, rotation: nat, keys: seq<string>, demand: map<string, int>, held: map<string, int>,
    key: string, want: nat): Round
  {
    var granted := GrantFor(ceiling, rotation, keys, demand, held, key, want);
    Round(Advanced(rotation, ceiling, granted, |keys|), demand[key := want - granted], held[key := At(held, key) + granted])
  }

  /** The need of a member that the controller keeps free when another member asks for more than its guarantee. */
  function NeedOf(ceiling: nat, rotation: nat, keys: seq<string>, demand: map<string, int>, held: map<string, int>, key: string): int {
    Min(At(demand, key) - At(held, key), ShareOf(ceiling, rotation, keys, key))
  }

  /**
   After a grant beyond the requester's guarantee the protected need of another member
   is still free. Asking next, that member is granted it exactly when its guarantee
   under the moved cursor covers it or the needs then protected from it leave it free.
   */
  lemma ProtectedNeedIsServedExactly(
    ceiling: nat, rotation: nat, keys: seq<string>, demand: map<string, int>, held: map<string, int>,
    key: string, want: nat, other: string)
    requires ceiling > 0 && Distinct(keys) && key in keys && other in keys && other != key
    requires At(demand, other) > At(held, other) >= 0
    requires
      GrantFor(ceiling, rotation, keys, demand, held, key, want) > Max(ShareOf(ceiling, rotation, keys, key) - At(held, key), 0)
    ensures
      var need := NeedOf(ceiling, rotation, keys, demand, held, other);
      var next := AfterGrant(ceiling, rotation, keys, demand, held, key, want);
      var free := ceiling - MapSum(next.held);
      && free >= MapSum(Needs(ceiling, rotation, keys, demand, held, key)) >= need
      && (need > 0 ==>
            (GrantFor(ceiling, next.rotation, keys, next.demand, next.held, other, At(demand, other)) >= need <==>
               || ShareOf(ceiling, next.rotation, keys, other) - At(held, other) >= need
               || free - MapSum(Needs(ceiling, next.rotation, keys, next.demand, next.held, other)) >= need))
  {
    hide ShareOf, MapSum, GrantFor, Advanced;
    var granted := GrantFor(ceiling, rotation, keys, demand, held, key, want);
    var next := AfterGrant(ceiling, rotation, keys, demand, held, key, want);
    GrantIsFairAndFits(ceiling, rotation, keys, demand, held, key, want);
    MapSumPut(held, key, At(held, key) + granted);
    MapSumEntry(Needs(ceiling, rotation, keys, demand, held, key), other);
    GrantIsExact(ceiling, next.rotation, keys, next.demand, next.held, other, At(demand, other));
  }

  /** With an even split and a satisfied requester, the protected need is always served. */
  lemma EvenSplitServesProtectedNeed(
    ceiling: nat, rotation: nat, keys: seq<string>, demand: map<string, int>, held: map<string, int>,
    key: string, want: nat, other: string)
    requires ceiling > 0 && Distinct(keys) && key in keys && other in keys && other != key
    requires At(demand, other) > At(held, other) >= 0 && At(held, key) >= 0
    requires ceiling % |keys| == 0 && rotation <= |keys|
    requires
      GrantFor(ceiling, rotation, keys, demand, held, key, want) == want > Max(ShareOf(ceiling, rotation, keys, key) - At(held, key), 0)
    ensures
      var next := AfterGrant(ceiling, rotation, keys, demand, held, key, want);
      GrantFor(ceiling, next.rotation, keys, next.demand, next.held, other, At(demand, other)) >=
        NeedOf(ceiling, rotation, keys, demand, held, other)
  {
    hide ShareOf, MapSum, GrantFor, Advanced;
    var next := AfterGrant(ceiling, rotation, keys, demand, held, key, want);
    ProtectedNeedIsServedExactly(ceiling, rotation, keys, demand, held, key, want, other);
    var needs := Needs(ceiling, rotation, keys, demand, held, key);
    forall o | o in keys ensures ShareOf(ceiling, next.rotation, keys, o) == ShareOf(ceiling, rotation, keys, o) {
      EvenShare(ceiling, rotation, keys, o);
      EvenShare(ceiling, next.rotation, keys, o);
    }
    assert Needs(ceiling, next.rotation, keys, next.demand, next.held, other) == needs - {other};
    MapSumSplit(needs, other);
  }

  lemma EvenShare(ceiling: nat, rotation: nat, keys: seq<string>, key: string)
    requires key in keys && ceiling % |keys| == 0 && rotation <= |keys|
    ensures ShareOf(ceiling, rotation, keys, key) == ceiling / |keys|
  {
    var i := IndexOf(keys, key);
    assert GoMod(i - rotation + |keys|, |keys|) >= 0;
  }

  const TRIO := ["a", "b", "c"]

  /**
   Otherwise it can be lost: with ceiling 2, three members and cursor 1, b's need of 1
   is kept free while a gets 1 of 3; the cursor moves on, a's rest is now protected,
   and b, asking next, gets nothing.
   */
  lemma ProtectedNeedCanBeLost()
    ensures
      var none: map<string, int> := map[];
      var demand: map<string, int> := map["b" := 1];
      var next := AfterGrant(2, 1, TRIO, demand, none, "a", 3);
      && NeedOf(2, 1, TRIO, demand, none, "b") == 1
      && GrantFor(2, 1, TRIO, demand, none, "a", 3) == 1
      && GrantFor(2, next.rotation, TRIO, next.demand, next.held, "b", 1) == 0
  {
    var none: map<string, int> := map[];
    var demand: map<string, int> := map["b" := 1];
    TrioShares();
    assert "a"[0] == 'a' && "b"[0] == 'b' && "c"[0] == 'c';
    assert TRIO[0] == "a" && TRIO[1] == "b" && TRIO[2] == "c";
    assert ProtectedNeed(2, 1, TRIO, demand, none, "a", 1) == 0;
    assert ProtectedNeed(2, 1, TRIO, demand, none, "a", 2) == 1;
    assert ProtectedNeed(2, 1, TRIO, demand, none, "a", 3) == 1;
    var held, rest := none["a" := 1], demand["a" := 2];
    MapSumPut(none, "a", 1);
    assert ProtectedNeed(2, 2, TRIO, rest, held, "b", 1) == 1;
    assert ProtectedNeed(2, 2, TRIO, rest, held, "b", 2) == 1;
    assert ProtectedNeed(2, 2, TRIO, rest, held, "b", 3) == 1;
  }

  lemma TrioShares()
    ensures ShareOf(2, 1, TRIO, "a") == 0 && ShareOf(2, 1, TRIO, "b") == 1
    ensures ShareOf(2, 2, TRIO, "a") == 1 && ShareOf(2, 2, TRIO, "b") == 0
  {
    assert "a"[0] == 'a' && "b"[0] == 'b' && "c"[0] == 'c';
    assert TRIO[..2] == ["a", "b"] && ["a", "b"][..1] == ["a"];
    assert IndexOf(["a"], "a") == 0 && IndexOf(["a", "b"], "a") == 0 && IndexOf(["a", "b"], "b") == 1;
    assert IndexOf(TRIO, "a") == 0 && IndexOf(TRIO, "b") == 1;
    assert TRIO[0] == "a" && TRIO[1] == "b";
    assert Share(3, 1, 0, 2) == 0 && Share(3, 1, 1, 2) == 1 && Share(3, 2, 0, 2) == 1 && Share(3, 2, 1, 2) == 0;
  }

  // ---------------------------------------------------------------------
  // The controller

  datatype Member = Member(demand: nat, inFlight: nat)

  function Demands(members: map<string, Member>): map<string, int> {
    map k | k in members :: members[k].demand
  }

  /** What each member holds: its in-flight reservations and its live workers as read. */
  function Holdings(members: map<string, Member>, readings: map<string, int>): map<string, int> {
    map k | k in members :: members[k].inFlight + Max(At(readings, k), 0)
  }

  /** The member after a reservation: without a ceiling nothing is tracked in flight. */
  function Served(m: Member, ceiling: nat, want: nat, granted: nat): Member {
    if ceiling == 0 then m.(demand := want) else Member(Max(want - granted, 0), m.inFlight + granted)
  }

  /** The cursor after a reservation: it moves on only when something was granted under a ceiling. */
  function Advanced(rotation: nat, ceiling: nat, granted: nat, count: nat): (r: nat)
    ensures rotation <= count ==> r <= count
  {
    if ceiling > 0 && granted > 0 && count > 0 then (rotation + 1) % count else rotation
  }

  lemma SameKeysSameSize(a: map<string, Member>, b: map<string, Member>)
    requires a.Keys == b.Keys
    ensures |a| == |b|
  {
    assert |a.Keys| == |a| && |b.Keys| == |b|;
  }

  lemma HoldingAt(members: map<string, Member>, readings: map<string, int>, k: string)
    ensures Holdings(members, readings).Keys == members.Keys
    ensures k in members ==> Holdings(members, readings)[k] == members[k].inFlight + Max(At(readings, k), 0)
  {}

  class AdmissionController {
    const ceiling: nat
    var members: map<string, Member>
    var rotation: nat

    /** The cursor never passes the member count, which keeps the shares an exact partition. */
    ghost predicate Valid()
      reads this
    {
      rotation <= |members|
    }

    constructor (limit: int)
      ensures Valid() && ceiling == Max(limit, 0) && members == map[] && rotation == 0
    {
      ceiling := Max(limit, 0);
      members := map[];
      rotation := 0;
    }

    method Join(key: string)
      requires Valid()
      modifies this
      ensures Valid() && rotation == old(rotation)
      ensures members == if key == "" || key in old(members) then old(members) else old(members)[key := Member(0, 0)]
    {
      if key == "" || key in members { return; }
      members := members[key := Member(0, 0)];
    }

    method Leave(key: string)
      requires Valid()
      modifies this
      ensures Valid() && members == old(members) - {key}
      ensures rotation == if old(rotation) > |members| then 0 else old(rotation)
    {
      members := members - {key};
      if rotation > |members| { rotation := 0; }
    }

    method SetDemand(key: string, demand: int)
      requires Valid()
      modifies this
      ensures Valid() && rotation == old(rotation)
      ensures
        members ==
          if key in old(members) then old(members)[key := old(members)[key].(demand := Max(demand, 0))] else old(members)
    {
      if key !in members { return; }
      members := members[key := members[key].(demand := Max(demand, 0))];
    }

    /** Admits up to `want` workers; `readings` are the live counts as the members report them. */
    method Reserve(key: string, want: int, readings: map<string, int>) returns (granted: nat)
      requires Valid()
      modifies this
      ensures Valid()
      ensures
        granted ==
          if want <= 0 then 0
          else if key !in old(members) then want
          else GrantFor(ceiling, old(rotation), SortedView(old(members).Keys), Demands(old(members)),
                        Holdings(old(members), readings), key, want)
      ensures
        members ==
          if want > 0 && key in old(members)
          then old(members)[key := Served(old(members)[key], ceiling, want, granted)]
          else old(members)
      ensures
        rotation ==
          if want > 0 && key in old(members) then Advanced(old(rotation), ceiling, granted, |old(members)|) else old(rotation)
    {
      hide GrantFor, MapSum, Demands, Holdings, Advanced;
      if want <= 0 { return 0; }
      if key !in members { return want; }
      var keys := SortStrings(members.Keys);
      granted := Size(keys, key, want, readings);
      rotation := Advanced(rotation, ceiling, granted, |members|);
      members := members[key := Served(members[key], ceiling, want, granted)];
      SameKeysSameSize(members, old(members));
    }

    /** The computation of one grant. */
    method Size(keys: seq<string>, key: string, want: nat, readings: map<string, int>) returns (granted: nat)
      requires keys == SortedView(members.Keys) && key in members
      ensures
        granted ==
          GrantFor(ceiling, rotation, keys, Demands(members), Holdings(members, readings), key, want)
    {
      hide ShareOf, ProtectedNeed, MapSum, Demands, Holdings;
      if ceiling == 0 { return want; }
      var held, total := ReadMembers(keys, readings);
      var free := ceiling - total;
      if free <= 0 { return 0; }
      var share := ShareFor(keys, key);
      granted := 0;
      if At(held, key) < share { granted := Min(Min(want, share - At(held, key)), free); }
      if granted < want {
        var protected := Protected(keys, key, held);
        var surplus := free - granted - protected;
        if surplus > 0 { granted := granted + Min(want - granted, surplus); }
      }
    }

    /** Reads the members one by one. */
    method ReadMembers(keys: seq<string>, readings: map<string, int>) returns (held: map<string, int>, total: int)
      requires keys == SortedView(members.Keys)
      ensures held == Holdings(members, readings) && total == MapSum(held)
    {
      hide Holdings, Listed, MapSum, SortedView, StrictlySorted, Distinct;
      held, total := map[], 0;
      ghost var all := Holdings(members, readings);
      HoldingAt(members, readings, "");
      SortedIsDistinct(keys);
      NothingListed(all);
      for i := 0 to |keys|
        invariant held == Listed(all, keys[..i])
        invariant total == MapSum(held)
      {
        assert keys[i] in Elements(keys);
        HoldingAt(members, readings, keys[i]);
        var count := members[keys[i]].inFlight + Max(At(readings, keys[i]), 0);
        ListedNext(all, keys, i);
        MapSumPut(held, keys[i], count);
        held := held[keys[i] := count];
        total := total + count;
      }
      ListedAll(all, keys);
    }

    method ShareFor(keys: seq<string>, key: string) returns (share: nat)
      requires StrictlySorted(keys)
      ensures share == ShareOf(ceiling, rotation, keys, key)
    {
      if |keys| == 0 { return ceiling; }
      var index := SearchStrings(keys, key);
      if index >= |keys| || keys[index] != key { return 0; }
      SortedIsDistinct(keys);
      share := Share(|keys|, rotation, index, ceiling);
    }

    method Protected(keys: seq<string>, key: string, held: map<string, int>) returns (protected: nat)
      requires StrictlySorted(keys) && Elements(keys) == members.Keys
      ensures protected == ProtectedNeed(ceiling, rotation, keys, Demands(members), held, key, |keys|)
    {
      hide ShareOf;
      protected := 0;
      for i := 0 to |keys|
        invariant protected == ProtectedNeed(ceiling, rotation, keys, Demands(members), held, key, i)
      {
        assert keys[i] in Elements(keys);
        if keys[i] != key {
          var need := members[keys[i]].demand - At(held, keys[i]);
          if need > 0 {
            var share := ShareFor(keys, keys[i]);
            protected := protected + Min(need, share);
          }
        }
      }
    }

    /** Releases reservations whose launch has produced a worker or failed. */
    method Settle(key: string, count: int)
      requires Valid()
      modifies this
      ensures Valid() && rotation == old(rotation)
      ensures
        members ==
          if count > 0 && key in old(members)
          then old(members)[key := old(members)[key].(inFlight := Max(old(members)[key].inFlight - count, 0))]
          else old(members)
    {
      if count <= 0 || key !in members { return; }
      members := members[key := members[key].(inFlight := Max(members[key].inFlight - count, 0))];
    }
  }

  /** In every state the controller can reach, the members' shares add up to the ceiling exactly. */
  lemma SharesPartitionCeiling(ceiling: nat, rotation: nat, members: map<string, Member>)
    requires rotation <= |members| && members != map[]
    ensures ShareSum(|members|, rotation, ceiling) == ceiling
  {
    SharesPartitionExactlyInRange(|members|, rotation, ceiling);
  }

  ghost function Listed(m: map<string, int>, keys: seq<string>): map<string, int> {
    map k | k in keys && k in m :: m[k]
  }

  lemma NothingListed(m: map<string, int>)
    ensures Listed(m, []) == map[] && MapSum(map[]) == 0
  {}

  lemma ListedNext(m: map<string, int>, keys: seq<string>, i: nat)
    requires i < |keys| && Distinct(keys) && keys[i] in m
    ensures Listed(m, keys[..i + 1]) == Listed(m, keys[..i])[keys[i] := m[keys[i]]]
    ensures keys[i] !in Listed(m, keys[..i])
  {
    assert keys[..i + 1] == keys[..i] + [keys[i]];
  }

  lemma ListedAll(m: map<string, int>, keys: seq<string>)
    requires Elements(keys) == m.Keys
    ensures Listed(m, keys[..|keys|]) == m
  {
    assert keys[..|keys|] == keys;
    assert forall k :: k in keys <==> k in Elements(keys);
  }
}
