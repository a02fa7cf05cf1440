/** Facts about multiplication, quotients and remainders that the split of units rests on. */
module Division {

  lemma MulStep(k: int, base: int)
    ensures (k + 1) * base == k * base + base
  {}

  lemma MulGap(small: int, large: int, n: int)
    requires n > 0 && small < large
    ensures small * n + n <= large * n
  {
    assert (large - small - 1) * n >= 0;
    assert (large - small - 1) * n == large * n - small * n - n;
  }

  lemma SmallModulus(a: int, n: int)
    requires 0 <= a < n
    ensures a % n == a
  {}

  lemma WrappedModulus(a: int, n: int)
    requires 0 <= a < n
    ensures (a + n) % n == a
  {}

  lemma DivisionUnique(a: int, n: int, q: int, r: int)
    requires n > 0 && 0 <= r < n && a == q * n + r
    ensures a % n == r
  {
    var q', r' := a / n, a % n;
    assert a == q' * n + r';
    if q > q' { MulGap(q', q, n); }
    if q < q' { MulGap(q, q', n); }
  }

  lemma CongruentToCursor(cursor: nat, n: nat, i: nat)
    requires 0 < n && i < n && 2 * n <= cursor
    ensures (cursor - n - i) % n == 0 <==> cursor % n == i
  {
    var q, r := cursor / n, cursor % n;
    assert cursor == q * n + r;
    if r >= i {
      assert cursor - n - i == (q - 1) * n + (r - i);
      DivisionUnique(cursor - n - i, n, q - 1, r - i);
    } else {
      assert cursor - n - i == (q - 2) * n + (n + r - i);
      DivisionUnique(cursor - n - i, n, q - 2, n + r - i);
    }
  }
}
