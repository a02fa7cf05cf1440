/** Sums over maps from identities to units. */
module Sums {

  function At(held: map<string, int>, p: string): int {
    if p in held then held[p] else 0
  }

  ghost function MapSum(m: map<string, int>): int
    decreases |m|
  {
    if m == map[] then 0 else
      var p :| p in m;
      MapSum(m - {p}) + m[p]
  }

  lemma {:induction false} MapSumSplit(m: map<string, int>, p: string)
    requires p in m
    ensures MapSum(m) == MapSum(m - {p}) + m[p]
    decreases |m|
  {
    var q :| q in m && MapSum(m) == MapSum(m - {q}) + m[q];
    if q != p {
      MapSumSplit(m - {q}, p);
      MapSumSplit(m - {p}, q);
      assert m - {q} - {p} == m - {p} - {q};
    }
  }

  lemma MapSumPut(m: map<string, int>, p: string, v: int)
    ensures MapSum(m[p := v]) == MapSum(m) - At(m, p) + v
  {
    MapSumSplit(m[p := v], p);
    if p in m {
      MapSumSplit(m, p);
      assert m[p := v] - {p} == m - {p};
    } else {
      assert m[p := v] - {p} == m;
    }
  }

  lemma {:induction false} MapSumMonotone(a: map<string, int>, b: map<string, int>)
    requires a.Keys == b.Keys && forall p :: p in a ==> a[p] <= b[p]
    ensures MapSum(a) <= MapSum(b)
    decreases |a|
  {
    if a != map[] {
      var p :| p in a;
      MapSumSplit(a, p);
      MapSumSplit(b, p);
      MapSumMonotone(a - {p}, b - {p});
    }
  }

  lemma {:induction false} MapSumPositive(s: map<string, int>)
    requires forall q :: q in s ==> s[q] >= 0
    ensures MapSum(s) >= 0
    decreases |s|
  {
    if s != map[] {
      var q :| q in s;
      MapSumSplit(s, q);
      MapSumPositive(s - {q});
    }
  }

  lemma MapSumEntry(s: map<string, int>, id: string)
    requires id in s && forall q :: q in s ==> s[q] >= 0
    ensures MapSum(s) >= s[id]
  {
    MapSumSplit(s, id);
    MapSumPositive(s - {id});
  }
}
