/**
 Identity syntax, and the proof that the textual lease key and lease identity
 are collision-free: distinct (profile, slot, sequence) triples never share a
 text, because "/" and "#" are excluded from both halves.
 */
module Identity {

  predicate Lower(c: char) { 'a' <= c <= 'z' }

  predicate Upper(c: char) { 'A' <= c <= 'Z' }

  predicate Digit(c: char) { '0' <= c <= '9' }

  predicate Alphanumeric(c: char) { Lower(c) || Upper(c) || Digit(c) }

  predicate ValidProfileId(s: string) {
    && 1 <= |s| <= 32
    && Lower(s[0])
    && forall i :: 1 <= i < |s| ==> Lower(s[i]) || Digit(s[i]) || s[i] == '-'
  }

  predicate ValidSlotKey(s: string) {
    && 1 <= |s| <= 128
    && Alphanumeric(s[0])
    && forall i :: 1 <= i < |s| ==> Alphanumeric(s[i]) || s[i] in {'.', '_', ':', '-'}
  }

  predicate ValidRegistrationName(s: string) {
    && 1 <= |s| <= 256
    && Alphanumeric(s[0])
    && forall i :: 1 <= i < |s| ==> Alphanumeric(s[i]) || s[i] in {'_', '.', '-'}
  }

  /** Empty means the publisher predates fingerprints. */
  predicate ValidFingerprint(s: string) {
    |s| <= 128 && forall i :: 0 <= i < |s| ==> Alphanumeric(s[i]) || s[i] in {'_', '-'}
  }

  /** Empty means the publisher predates namespaces. */
  predicate ValidNamespace(s: string) {
    s == "" || ValidProfileId(s)
  }

  /** One profile and one slot; the two halves of a durable map key. */
  datatype Key = Key(profile: string, slot: string)

  predicate ValidKey(k: Key) {
    ValidProfileId(k.profile) && ValidSlotKey(k.slot)
  }

  function KeyText(k: Key): string {
    k.profile + "/" + k.slot
  }

  function LeaseIdText(k: Key, sequence: nat): string {
    KeyText(k) + "#" + Decimal(sequence)
  }

  function DigitChar(d: nat): (c: char)
    requires d < 10
    ensures Digit(c)
  {
    '0' + d as char
  }

  function Decimal(n: nat): (s: string)
    ensures |s| >= 1
  {
    if n < 10 then [DigitChar(n)] else Decimal(n / 10) + [DigitChar(n % 10)]
  }

  lemma {:induction false} DecimalInjective(a: nat, b: nat)
    requires Decimal(a) == Decimal(b)
    ensures a == b
  {
    var s, t := Decimal(a), Decimal(b);
    assert s[|s| - 1] == DigitChar(a % 10) && t[|t| - 1] == DigitChar(b % 10);
    assert a % 10 == b % 10;
    if a >= 10 && b >= 10 {
      assert s[..|s| - 1] == Decimal(a / 10) && t[..|t| - 1] == Decimal(b / 10);
      DecimalInjective(a / 10, b / 10);
    }
  }

  /** A separator absent from both left parts splits two equal texts at the same place. */
  lemma SplitAtSeparator(a: string, b: string, c: string, d: string, sep: char)
    requires sep !in a && sep !in c
    requires a + [sep] + b == c + [sep] + d
    ensures a == c && b == d
  {
    var left, right := a + [sep] + b, c + [sep] + d;
    assert left[|a|] == sep && right[|c|] == sep;
    assert forall i :: 0 <= i < |c| ==> right[i] == c[i];
    assert forall i :: 0 <= i < |a| ==> left[i] == a[i];
    assert left[..|a|] == a && right[..|c|] == c;
    assert left[|a| + 1..] == b && right[|c| + 1..] == d;
  }

  lemma NoSeparators(k: Key)
    requires ValidKey(k)
    ensures '/' !in k.profile && '#' !in k.profile && '#' !in k.slot
  {
  }

  lemma KeyTextInjective(a: Key, b: Key)
    requires ValidKey(a) && ValidKey(b) && KeyText(a) == KeyText(b)
    ensures a == b
  {
    NoSeparators(a);
    NoSeparators(b);
    SplitAtSeparator(a.profile, a.slot, b.profile, b.slot, '/');
  }

  lemma LeaseIdTextInjective(a: Key, m: nat, b: Key, n: nat)
    requires ValidKey(a) && ValidKey(b) && LeaseIdText(a, m) == LeaseIdText(b, n)
    ensures a == b && m == n
  {
    NoSeparators(a);
    NoSeparators(b);
    SplitAtSeparator(KeyText(a), Decimal(m), KeyText(b), Decimal(n), '#');
    KeyTextInjective(a, b);
    DecimalInjective(m, n);
  }
}
