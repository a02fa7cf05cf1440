/**
 The rotating equal split that both admission layers use: n contenders share
 `available` units, each gets the quotient, and the remainder goes to the
 contenders that follow the rotation cursor.

 The remainder test is written with Go's truncating `%`, which is negative for
 a negative dividend. The cursor is never negative, but it can exceed n.
 */
module FairShare {
  import opened Division

  /** Go's `%` for a positive divisor: the result takes the sign of the dividend. */
  function GoMod(a: int, n: int): (r: int)
    requires n > 0
    ensures -n < r < n
    ensures a >= 0 ==> r == a % n
    ensures a < 0 ==> r <= a % n && r <= 0
  {
    if a >= 0 then a % n else
      NegatedRemainder(a, n);
      -((-a) % n)
  }

  lemma NegatedRemainder(a: int, n: int)
    requires n > 0 && a < 0
    ensures -((-a) % n) <= a % n
  {
    assert 0 <= (-a) % n && 0 <= a % n;
  }

  predicate TakesExtra(n: nat, cursor: nat, index: nat, available: nat)
    requires n > 0
  {
    GoMod(index - cursor + n, n) < available % n
  }

  /** The units guaranteed to the contender at `index`. */
  function Share(n: nat, cursor: nat, index: nat, available: nat): (units: nat)
    requires n > 0
    ensures available / n <= units <= available / n + 1
  {
    if TakesExtra(n, cursor, index, available) then available / n + 1 else available / n
  }

  function Extras(n: nat, cursor: nat, available: nat, upTo: nat): (k: nat)
    requires n > 0
    ensures k <= upTo
  {
    if upTo == 0 then 0
    else Extras(n, cursor, available, upTo - 1) + if TakesExtra(n, cursor, upTo - 1, available) then 1 else 0
  }

  function SharesUpTo(n: nat, cursor: nat, available: nat, upTo: nat): nat
    requires n > 0
  {
    if upTo == 0 then 0
    else SharesUpTo(n, cursor, available, upTo - 1) + Share(n, cursor, upTo - 1, available)
  }

  /** Everything the n contenders are guaranteed together. */
  function ShareSum(n: nat, cursor: nat, available: nat): nat
    requires n > 0
  {
    SharesUpTo(n, cursor, available, n)
  }

  function Min(a: int, b: int): int { if a <= b then a else b }

  function Max(a: int, b: int): int { if a >= b then a else b }

  lemma {:induction false} SharesAreBaseAndExtras(n: nat, cursor: nat, available: nat, upTo: nat)
    requires n > 0
    ensures SharesUpTo(n, cursor, available, upTo) == upTo * (available / n) + Extras(n, cursor, available, upTo)
  {
    if upTo > 0 {
      SharesAreBaseAndExtras(n, cursor, available, upTo - 1);
      MulStep(upTo - 1, available / n);
    }
  }

  /** With the cursor in range, the extras form one cyclic block that starts at the cursor. */
  lemma {:induction false} ExtrasInRange(n: nat, cursor: nat, available: nat, upTo: nat)
    requires 0 < n && cursor <= n && upTo <= n
    ensures
      var rem, wrapped := available % n, Max(available % n + cursor - n, 0);
      Extras(n, cursor, available, upTo) ==
        if upTo <= cursor then Min(upTo, wrapped) else wrapped + Min(upTo - cursor, rem)
  {
    if upTo > 0 {
      ExtrasInRange(n, cursor, available, upTo - 1);
      var i := upTo - 1;
      var rem := available % n;
      if i < cursor {
        SmallModulus(i - cursor + n, n);
        assert TakesExtra(n, cursor, i, available) <==> i - cursor + n < rem;
      } else {
        WrappedModulus(i - cursor, n);
        assert TakesExtra(n, cursor, i, available) <==> i - cursor < rem;
      }
    }
  }

  /** With the cursor past the end, every index that goes negative takes an extra. */
  lemma {:induction false} ExtrasOverrun(n: nat, cursor: nat, available: nat, upTo: nat)
    requires 0 < n < cursor < 2 * n && upTo <= n
    ensures
      Extras(n, cursor, available, upTo) ==
        if upTo <= cursor - n then upTo else cursor - n + Min(upTo - (cursor - n), available % n)
  {
    if upTo > 0 {
      ExtrasOverrun(n, cursor, available, upTo - 1);
      var i := upTo - 1;
      if i < cursor - n {
        SmallModulus(cursor - n - i, n);
        assert TakesExtra(n, cursor, i, available);
      } else {
        SmallModulus(i - cursor + n, n);
      }
    }
  }

  /** Far past the end every remainder is at most zero, so at most the multiples of n miss out. */
  lemma {:induction false} ExtrasFarOverrun(n: nat, cursor: nat, available: nat, upTo: nat)
    requires 0 < n && 2 * n <= cursor && upTo <= n
    ensures available % n > 0 ==> Extras(n, cursor, available, upTo) == upTo
    ensures available % n == 0 ==>
      Extras(n, cursor, available, upTo) == upTo - (if cursor % n < upTo then 1 else 0)
  {
    if upTo > 0 {
      ExtrasFarOverrun(n, cursor, available, upTo - 1);
      var i := upTo - 1;
      var d := cursor - n - i;
      assert GoMod(i - cursor + n, n) == -(d % n);
      CongruentToCursor(cursor, n, i);
    }
  }

  /**
   The shares partition the available units exactly when the cursor is in range
   or there is a single contender. Past the end the split hands out too much.
   */
  lemma SharesPartitionExactlyInRange(n: nat, cursor: nat, available: nat)
    requires n > 0
    ensures ShareSum(n, cursor, available) == available <==> cursor <= n || n == 1
  {
    ExtrasTotal(n, cursor, available);
    SharesAreBaseAndExtras(n, cursor, available, n);
    assert available == n * (available / n) + available % n;
  }

  /** Whatever the cursor, the shares cover the available units and overshoot by less than one round. */
  lemma SharesNeverFallShort(n: nat, cursor: nat, available: nat)
    requires n > 0
    ensures available <= ShareSum(n, cursor, available) < available + n
    ensures ShareSum(n, cursor, available) <= available - available % n + n
  {
    ExtrasTotal(n, cursor, available);
    SharesAreBaseAndExtras(n, cursor, available, n);
    assert available == n * (available / n) + available % n;
  }

  lemma ExtrasTotal(n: nat, cursor: nat, available: nat)
    requires n > 0
    ensures available % n <= Extras(n, cursor, available, n) <= n
    ensures Extras(n, cursor, available, n) < available % n + n
    ensures Extras(n, cursor, available, n) == available % n <==> cursor <= n || n == 1
  {
    if cursor <= n {
      ExtrasInRange(n, cursor, available, n);
    } else if cursor < 2 * n {
      ExtrasOverrun(n, cursor, available, n);
    } else {
      ExtrasFarOverrun(n, cursor, available, n);
    }
  }

  // ---------------------------------------------------------------------
  // Allocation: what one contender may take after the others' guarantees

  /** Guaranteed units of the other contenders that their shared holdings do not use yet. */
  function Withheld(shared: seq<nat>, own: int, cursor: nat, available: nat, upTo: nat): (units: nat)
    requires upTo <= |shared|
  {
    if upTo == 0 then 0 else
      var i := upTo - 1;
      var before := Withheld(shared, own, cursor, available, i);
      if i == own then before
      else before + Max(Share(|shared|, cursor, i, available) - shared[i], 0)
  }

  /** Units the contender at index `own` may take from the shared pool. */
  function Allocatable(shared: seq<nat>, own: int, cursor: nat, available: nat): (units: nat)
    ensures units <= available
  {
    if |shared| == 0 then available
    else Max(available - Withheld(shared, own, cursor, available, |shared|), 0)
  }

  lemma {:induction false} WithheldAtMostShares(shared: seq<nat>, own: nat, cursor: nat, available: nat, upTo: nat)
    requires own < |shared| && upTo <= |shared|
    ensures
      Withheld(shared, own, cursor, available, upTo)
      + (if own < upTo then Share(|shared|, cursor, own, available) else 0)
      <= SharesUpTo(|shared|, cursor, available, upTo)
  {
    if upTo > 0 {
      WithheldAtMostShares(shared, own, cursor, available, upTo - 1);
    }
  }

  /** A contender can always allocate its own guaranteed share, provided the cursor is in range. */
  lemma OwnShareIsAllocatable(shared: seq<nat>, own: nat, cursor: nat, available: nat)
    requires own < |shared| && cursor <= |shared|
    ensures Allocatable(shared, own, cursor, available) >= Share(|shared|, cursor, own, available)
  {
    WithheldAtMostShares(shared, own, cursor, available, |shared|);
    SharesPartitionExactlyInRange(|shared|, cursor, available);
  }

  /** The contender under the cursor can take a unit whenever one is available. */
  lemma CursorHolderTakesTurn(shared: seq<nat>, own: nat, available: nat)
    requires own < |shared| && available >= 1
    ensures Allocatable(shared, own, own, available) >= 1
  {
    var n := |shared|;
    OwnShareIsAllocatable(shared, own, own, available);
    WrappedModulus(0, n);
    if available / n == 0 {
      SmallModulus(available, n);
      assert TakesExtra(n, own, own, available);
    }
  }

  lemma ShareMonotone(n: nat, cursor: nat, index: nat, less: nat, more: nat)
    requires 0 < n && cursor <= n && index < n && less <= more
    ensures Share(n, cursor, index, less) <= Share(n, cursor, index, more)
  {
    var q, q' := less / n, more / n;
    assert less == q * n + less % n && more == q' * n + more % n;
    if q' < q { MulGap(q', q, n); }
  }

  lemma {:induction false} WithheldGrowsSlowly(shared: seq<nat>, own: nat, cursor: nat, less: nat, more: nat, upTo: nat)
    requires own < |shared| && cursor <= |shared| && upTo <= |shared| && less <= more
    ensures
      Withheld(shared, own, cursor, more, upTo) - Withheld(shared, own, cursor, less, upTo)
      <= SharesUpTo(|shared|, cursor, more, upTo) - SharesUpTo(|shared|, cursor, less, upTo)
  {
    if upTo > 0 {
      WithheldGrowsSlowly(shared, own, cursor, less, more, upTo - 1);
      ShareMonotone(|shared|, cursor, upTo - 1, less, more);
    }
  }

  /** In range, more available units never shrink what a contender can allocate. */
  lemma AllocatableMonotone(shared: seq<nat>, own: nat, cursor: nat, less: nat, more: nat)
    requires own < |shared| && cursor <= |shared| && less <= more
    ensures Allocatable(shared, own, cursor, less) <= Allocatable(shared, own, cursor, more)
  {
    WithheldGrowsSlowly(shared, own, cursor, less, more, |shared|);
    SharesPartitionExactlyInRange(|shared|, cursor, less);
    SharesPartitionExactlyInRange(|shared|, cursor, more);
  }

  /** Out of range it can: with three contenders and cursor 5, six units allow less than five. */
  lemma AllocatableNotMonotoneOutOfRange()
    ensures Allocatable([0, 0, 0], 2, 5, 5) == 1
    ensures Allocatable([0, 0, 0], 2, 5, 6) == 0
  {
    var s: seq<nat> := [0, 0, 0];
    assert Share(3, 5, 0, 5) == 2 && Share(3, 5, 1, 5) == 2;
    assert Share(3, 5, 0, 6) == 3 && Share(3, 5, 1, 6) == 3;
    assert Withheld(s, 2, 5, 5, 1) == 2 && Withheld(s, 2, 5, 5, 2) == 4 && Withheld(s, 2, 5, 5, 3) == 4;
    assert Withheld(s, 2, 5, 6, 1) == 3 && Withheld(s, 2, 5, 6, 2) == 6 && Withheld(s, 2, 5, 6, 3) == 6;
  }
}
