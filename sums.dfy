/** Sums and counts over the collections the source reduces: per-user
    `Record<UserId, number>` maps, lists of amounts, and id lists. */
module Sums {

  /** `m[k] ?? 0` (equivalently `m[k] || 0` for the non-negative totals
      the source keeps). */
  function Get(m: map<string, real>, k: string): real {
    if k in m then m[k] else 0.0
  }

  /** The sum of all values of a map: `Object.values(m).reduce((a, b) => a + b, 0)`.
      With exact arithmetic the order of the keys does not matter, which is
      why a choice of key suffices. */
  ghost function MapSum(m: map<string, real>): real
    decreases m.Keys
  {
    if m == map[] then 0.0
    else
      var k :| k in m;
      m[k] + MapSum(m - {k})
  }

  /** Any key can be taken out first. */
  lemma {:induction false} MapSumRemove(m: map<string, real>, k: string)
    requires k in m
    ensures MapSum(m) == m[k] + MapSum(m - {k})
    decreases m.Keys
  {
    var j :| j in m && MapSum(m) == m[j] + MapSum(m - {j});
    if j != k {
      MapSumRemove(m - {j}, k);
      MapSumRemove(m - {k}, j);
      assert m - {j} - {k} == m - {k} - {j};
    }
  }

  /** Adding `x` to one entry (creating it at 0 if missing) adds `x` to the sum. */
  lemma MapSumAdd(m: map<string, real>, k: string, x: real)
    ensures MapSum(m[k := Get(m, k) + x]) == MapSum(m) + x
  {
    var m' := m[k := Get(m, k) + x];
    MapSumRemove(m', k);
    if k in m {
      MapSumRemove(m, k);
      assert m' - {k} == m - {k};
    } else {
      assert m' - {k} == m;
    }
  }

  /** A map whose entries are all zero sums to zero. */
  lemma {:induction false} MapSumZero(m: map<string, real>)
    requires forall k | k in m :: m[k] == 0.0
    ensures MapSum(m) == 0.0
    decreases m.Keys
  {
    if m != map[] {
      var k :| k in m;
      MapSumRemove(m, k);
      MapSumZero(m - {k});
    }
  }

  /** Sum of `Get(m, id)` over a list of ids, in list order. */
  function SumAt(m: map<string, real>, ids: seq<string>): real {
    if ids == [] then 0.0 else Get(m, ids[0]) + SumAt(m, ids[1..])
  }

  /** Two maps that agree on every listed id have the same `SumAt`. */
  lemma {:induction false} SumAtAgree(m1: map<string, real>, m2: map<string, real>, ids: seq<string>)
    requires forall i | 0 <= i < |ids| :: Get(m1, ids[i]) == Get(m2, ids[i])
    ensures SumAt(m1, ids) == SumAt(m2, ids)
  {
    if ids != [] {
      SumAtAgree(m1, m2, ids[1..]);
    }
  }

  predicate Distinct<T(==)>(s: seq<T>) {
    forall i, j | 0 <= i < j < |s| :: s[i] != s[j]
  }

  /** Summing a map over a list of distinct ids that covers all its keys
      gives the sum of the whole map. */
  lemma {:induction false} SumAtCoversMapSum(m: map<string, real>, ids: seq<string>)
    requires Distinct(ids)
    requires forall k | k in m :: k in ids
    ensures SumAt(m, ids) == MapSum(m)
  {
    if ids == [] {
      assert m == map[];
    } else {
      var k := ids[0];
      var rest := ids[1..];
      assert Distinct(rest);
      assert k !in rest by {
        forall i | 0 <= i < |rest| ensures rest[i] != k {
          assert rest[i] == ids[i + 1];
        }
      }
      if k in m {
        var m' := m - {k};
        forall i | 0 <= i < |rest| ensures Get(m, rest[i]) == Get(m', rest[i]) {
          assert rest[i] == ids[i + 1];
        }
        SumAtAgree(m, m', rest);
        forall j | j in m' ensures j in rest {
          assert j in ids && j != k;
        }
        SumAtCoversMapSum(m', rest);
        MapSumRemove(m, k);
      } else {
        forall j | j in m ensures j in rest {
          assert j in ids && j != k;
        }
        SumAtCoversMapSum(m, rest);
      }
    }
  }

  /** Number of occurrences of `x` in `s`. */
  function Count<T(==)>(s: seq<T>, x: T): nat {
    if s == [] then 0
    else Count(s[..|s| - 1], x) + (if s[|s| - 1] == x then 1 else 0)
  }

  lemma {:induction false} CountZero<T>(s: seq<T>, x: T)
    ensures Count(s, x) == 0 <==> x !in s
  {
    if s != [] {
      CountZero(s[..|s| - 1], x);
      assert s == s[..|s| - 1] + [s[|s| - 1]];
    }
  }

  /** `n` copies of `x` added up; keeps the provers away from nonlinear
      arithmetic until `TimesIsProduct` is needed. */
  function Times(n: nat, x: real): (r: real)
    ensures x >= 0.0 ==> r >= 0.0
  {
    if n == 0 then 0.0 else Times(n - 1, x) + x
  }

  lemma {:induction false} TimesIsProduct(n: nat, x: real)
    ensures Times(n, x) == (n as real) * x
  {
    if n > 0 {
      TimesIsProduct(n - 1, x);
      assert (n as real) * x == ((n - 1) as real) * x + x;
    }
  }
}
