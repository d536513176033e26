/** Shared vocabulary: optional values, dictionary-shaped records, the price
    tiers, and sums over sequences and maps. */
module Common {

  datatype Option<T> = None | Some(value: T)

  /** A JSON payload or one row of a data frame: numeric columns and string
      columns, each by name. A key that is absent is a missing field. */
  datatype Record = Record(nums: map<string, real>, strs: map<string, string>)

  /** An HTTP answer: a JSON body, or an error status (400, 404, ...). */
  datatype Reply<T> = Ok(body: T) | Fail(status: nat)

  /** `not data` on a request body: no JSON at all, or an empty object. */
  predicate NoData(data: Option<Record>)
  {
    data.None? || (data.value.nums == map[] && data.value.strs == map[])
  }

  /** `record.get(key, default)` on a numeric field. */
  function NumOr(r: Record, key: string, default: real): real
  {
    if key in r.nums then r.nums[key] else default
  }

  /** `record.get(key, default)` on a string field. */
  function StrOr(r: Record, key: string, default: string): string
  {
    if key in r.strs then r.strs[key] else default
  }

  /** The three price-tier multipliers (discount, standard, premium), in the
      order every component declares them. */
  const Arms: seq<real> := [0.9, 1.0, 1.1]

  /** Python's `sub in s` on strings. */
  predicate Contains(s: string, sub: string)
    decreases |s|
  {
    |sub| <= |s| && (s[..|sub|] == sub || Contains(s[1..], sub))
  }

  function LowerChar(c: char): char
  {
    if 'A' <= c <= 'Z' then (c as int + 32) as char else c
  }

  /** `s.lower()` on ASCII letters. */
  function Lower(s: string): (r: string)
    ensures |r| == |s|
    ensures forall i :: 0 <= i < |s| ==> r[i] == LowerChar(s[i])
  {
    seq(|s|, i requires 0 <= i < |s| => LowerChar(s[i]))
  }

  /** Left-to-right sum, the order in which a running total accumulates. */
  function Sum(s: seq<real>): real
  {
    if s == [] then 0.0 else Sum(s[..|s| - 1]) + s[|s| - 1]
  }

  /** The running totals of `s`: entry i is the sum of the first i+1 values. */
  function PrefixSums(s: seq<real>): (r: seq<real>)
    ensures |r| == |s|
  {
    seq(|s|, i requires 0 <= i < |s| => Sum(s[..i + 1]))
  }

  lemma SumStep(s: seq<real>, i: nat)
    requires i < |s|
    ensures Sum(s[..i + 1]) == Sum(s[..i]) + s[i]
  {
    assert s[..i + 1][..i] == s[..i];
  }

  /** Extending a running total by one value extends the running totals by
      the new total. */
  lemma PrefixSumsStep(s: seq<real>, i: nat)
    requires i < |s|
    ensures Sum(s[..i + 1]) == Sum(s[..i]) + s[i]
    ensures PrefixSums(s)[..i + 1] == PrefixSums(s)[..i] + [Sum(s[..i]) + s[i]]
  {
    SumStep(s, i);
  }

  /** Extend a list of running totals by one value: the first total is the
      value itself, each later one adds it to the previous total. */
  function AppendTotal(totals: seq<real>, x: real): (r: seq<real>)
    ensures |r| == |totals| + 1 && r[..|totals|] == totals
  {
    if totals != [] then totals + [totals[|totals| - 1] + x] else [x]
  }

  /** Appending the next value's total to the first i running totals gives
      the first i + 1 running totals. */
  lemma AppendTotalStep(s: seq<real>, i: nat)
    requires i < |s|
    ensures AppendTotal(PrefixSums(s)[..i], s[i]) == PrefixSums(s)[..i + 1]
  {
    PrefixSumsStep(s, i);
    if i > 0 {
      assert PrefixSums(s)[..i][i - 1] == Sum(s[..i]);
    } else {
      assert s[..0] == [];
    }
  }

  /** The first running total is the first value, each later one adds the
      current value to the previous total, and the last is the whole sum. */
  lemma PrefixSumsShape(s: seq<real>)
    ensures |s| > 0 ==> PrefixSums(s)[0] == s[0]
    ensures forall i :: 0 < i < |s| ==> PrefixSums(s)[i] == PrefixSums(s)[i - 1] + s[i]
    ensures |s| > 0 ==> PrefixSums(s)[|s| - 1] == Sum(s)
  {
    if |s| > 0 {
      PrefixSumsEnds(s);
    }
    forall i | 0 < i < |s|
      ensures PrefixSums(s)[i] == PrefixSums(s)[i - 1] + s[i]
    {
      PrefixSumsNext(s, i);
    }
  }

  lemma PrefixSumsEnds(s: seq<real>)
    requires |s| > 0
    ensures PrefixSums(s)[0] == s[0] && PrefixSums(s)[|s| - 1] == Sum(s)
  {
    PrefixSumsFirst(s);
    assert PrefixSums(s)[|s| - 1] == Sum(s[..|s|]);
    assert s[..|s|] == s;
  }

  lemma PrefixSumsFirst(s: seq<real>)
    requires |s| > 0
    ensures PrefixSums(s)[0] == s[0]
  {
    assert PrefixSums(s)[0] == Sum(s[..1]);
    assert s[..1][..0] == [];
  }

  lemma PrefixSumsNext(s: seq<real>, i: nat)
    requires 0 < i < |s|
    ensures PrefixSums(s)[i] == PrefixSums(s)[i - 1] + s[i]
  {
    SumStep(s, i);
  }

  /** Running totals of non-negative values never decrease and never go below zero. */
  lemma {:induction false} PrefixSumsMonotone(s: seq<real>)
    requires forall i :: 0 <= i < |s| ==> s[i] >= 0.0
    ensures forall i :: 0 <= i < |s| ==> PrefixSums(s)[i] >= 0.0
    ensures forall i, j :: 0 <= i <= j < |s| ==> PrefixSums(s)[i] <= PrefixSums(s)[j]
    ensures Sum(s) >= 0.0
  {
    PrefixSumsShape(s);
    SumNonNegative(s);
    forall i | 0 <= i < |s| ensures PrefixSums(s)[i] >= 0.0 {
      assert s[..i + 1][..] == s[..i + 1];
      SumNonNegative(s[..i + 1]);
    }
    forall i, j | 0 <= i <= j < |s| ensures PrefixSums(s)[i] <= PrefixSums(s)[j] {
      var k := i;
      while k < j
        invariant i <= k <= j
        invariant PrefixSums(s)[i] <= PrefixSums(s)[k]
      {
        k := k + 1;
      }
    }
  }

  lemma {:induction false} SumNonNegative(s: seq<real>)
    requires forall i :: 0 <= i < |s| ==> s[i] >= 0.0
    ensures Sum(s) >= 0.0
  {
    if s != [] {
      SumNonNegative(s[..|s| - 1]);
    }
  }

  /** Comparing a quotient by a positive divisor is comparing the dividend
      with the scaled bound. */
  lemma DivCompare(x: real, n: real, c: real)
    requires n > 0.0
    ensures x / n > c <==> x > c * n
    ensures x / n < c <==> x < c * n
    ensures x / n >= c <==> x >= c * n
  {
    var q := x / n;
    assert x == q * n;
    assert x - c * n == (q - c) * n;
  }

  /** Python's `max(list)`: the largest value, which is one of the values. */
  function Max(s: seq<real>): (m: real)
    requires |s| > 0
    ensures m in s
    ensures forall i :: 0 <= i < |s| ==> s[i] <= m
  {
    if |s| == 1 then s[0]
    else
      var rest := Max(s[1..]);
      if s[0] >= rest then s[0] else rest
  }

  /** Number of occurrences of `x` in `s`. */
  function Count(s: seq<real>, x: real): nat
  {
    if s == [] then 0 else Count(s[..|s| - 1], x) + (if s[|s| - 1] == x then 1 else 0)
  }

  /** Sum of the values of a map, in no particular key order. */
  ghost function MapSum<K>(m: map<K, nat>): nat
    decreases |m|
  {
    if m == map[] then 0
    else
      var k :| k in m;
      m[k] + MapSum(m - {k})
  }

  /** The sum does not depend on which key is taken first. */
  lemma {:induction false} MapSumRemove<K>(m: map<K, nat>, k: K)
    requires k in m
    ensures MapSum(m) == m[k] + MapSum(m - {k})
    decreases |m|
  {
    var j :| j in m && MapSum(m) == m[j] + MapSum(m - {j});
    if j != k {
      var mj, mk := m - {j}, m - {k};
      assert k in mj && j in mk;
      assert |mj| < |m| && |mk| < |m|;
      MapSumRemove(mj, k);
      MapSumRemove(mk, j);
      assert mj - {k} == mk - {j};
    }
  }

  /** Setting one key changes the sum by the difference at that key. */
  lemma MapSumUpdate<K>(m: map<K, nat>, k: K, v: nat)
    ensures MapSum(m[k := v]) == MapSum(m) - (if k in m then m[k] else 0) + v
  {
    var m' := m[k := v];
    MapSumRemove(m', k);
    if k in m {
      MapSumRemove(m, k);
      assert m' - {k} == m - {k};
    } else {
      assert m' - {k} == m;
    }
  }
}
