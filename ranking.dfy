/** `sorted(items, key=..., reverse=True)`: a stable sort into descending key
    order, given as the order of the original indices. */
module Ranking {

  predicate InBounds(keys: seq<real>, order: seq<nat>)
  {
    forall a :: 0 <= a < |order| ==> order[a] < |keys|
  }

  /** Index i goes behind every index whose key is at least `keys[i]`. */
  function Insert(keys: seq<real>, order: seq<nat>, i: nat): (r: seq<nat>)
    requires i < |keys| && InBounds(keys, order)
    ensures |r| == |order| + 1
    ensures forall x :: x in r <==> x in order || x == i
    ensures InBounds(keys, r)
  {
    if order == [] then [i]
    else if keys[order[0]] >= keys[i] then [order[0]] + Insert(keys, order[1..], i)
    else [i] + order
  }

  /** The first n indices, ranked by descending key. */
  function RankDescending(keys: seq<real>, n: nat): (r: seq<nat>)
    requires n <= |keys|
    ensures |r| == n
    ensures forall x: nat :: x in r <==> x < n
    ensures InBounds(keys, r)
  {
    if n == 0 then [] else Insert(keys, RankDescending(keys, n - 1), n - 1)
  }

  predicate Distinct(order: seq<nat>)
  {
    forall a, b :: 0 <= a < b < |order| ==> order[a] != order[b]
  }

  ghost predicate Descending(keys: seq<real>, order: seq<nat>)
    requires InBounds(keys, order)
  {
    forall a, b :: 0 <= a < b < |order| ==> keys[order[a]] >= keys[order[b]]
  }

  /** Equal keys keep their original relative order. */
  ghost predicate Stable(keys: seq<real>, order: seq<nat>)
    requires InBounds(keys, order)
  {
    forall a, b :: 0 <= a < b < |order| && keys[order[a]] == keys[order[b]] ==> order[a] < order[b]
  }

  /** Putting x in front of a sorted ranking keeps it sorted when x differs
      from every entry, has a key at least as large, and precedes every entry
      with an equal key. */
  lemma ConsSorted(keys: seq<real>, x: nat, rest: seq<nat>)
    requires x < |keys| && InBounds(keys, rest)
    requires Distinct(rest) && Descending(keys, rest) && Stable(keys, rest)
    requires forall b :: 0 <= b < |rest| ==>
               x != rest[b] && keys[x] >= keys[rest[b]] && (keys[x] == keys[rest[b]] ==> x < rest[b])
    ensures InBounds(keys, [x] + rest)
    ensures Distinct([x] + rest) && Descending(keys, [x] + rest) && Stable(keys, [x] + rest)
  {
    var r := [x] + rest;
    forall a, b | 0 <= a < b < |r| ensures r[a] != r[b] && keys[r[a]] >= keys[r[b]]
      && (keys[r[a]] == keys[r[b]] ==> r[a] < r[b])
    {
      assert r[b] == rest[b - 1];
      if a > 0 {
        assert r[a] == rest[a - 1];
      }
    }
  }

  lemma {:induction false} InsertSorted(keys: seq<real>, order: seq<nat>, i: nat)
    requires i < |keys| && InBounds(keys, order)
    requires forall a :: 0 <= a < |order| ==> order[a] < i
    requires Distinct(order) && Descending(keys, order) && Stable(keys, order)
    ensures Distinct(Insert(keys, order, i))
    ensures Descending(keys, Insert(keys, order, i)) && Stable(keys, Insert(keys, order, i))
  {
    if order == [] {
    } else if keys[order[0]] >= keys[i] {
      var rest := Insert(keys, order[1..], i);
      InsertSorted(keys, order[1..], i);
      forall b | 0 <= b < |rest|
        ensures order[0] != rest[b] && keys[order[0]] >= keys[rest[b]]
        ensures keys[order[0]] == keys[rest[b]] ==> order[0] < rest[b]
      {
        assert rest[b] in rest;
        if rest[b] != i {
          var c :| 0 <= c < |order[1..]| && order[1..][c] == rest[b];
          assert order[c + 1] == rest[b];
        }
      }
      ConsSorted(keys, order[0], rest);
    } else {
      ConsSorted(keys, i, order);
    }
  }

  /** The ranking lists each of the first n indices exactly once, in
      descending key order, with ties kept in original order. */
  lemma {:induction false} RankIsStableSort(keys: seq<real>, n: nat)
    requires n <= |keys|
    ensures Distinct(RankDescending(keys, n))
    ensures Descending(keys, RankDescending(keys, n)) && Stable(keys, RankDescending(keys, n))
  {
    if n > 0 {
      RankIsStableSort(keys, n - 1);
      var prev := RankDescending(keys, n - 1);
      forall a | 0 <= a < |prev| ensures prev[a] < n - 1 {
        assert prev[a] in prev;
      }
      InsertSorted(keys, prev, n - 1);
    }
  }

  /** Index k holds the largest key, and no earlier index holds it. */
  predicate FirstMax(keys: seq<real>, k: nat)
    requires k < |keys|
  {
    (forall j :: 0 <= j < |keys| ==> keys[j] <= keys[k]) &&
    (forall j :: 0 <= j < k ==> keys[j] < keys[k])
  }

  /** Python's `max` with a key: scanning left to right and replacing the
      current best only on a strictly larger key, so the first index holding
      the largest key wins. */
  function FirstArgMax(keys: seq<real>): (k: nat)
    requires |keys| > 0
    ensures k < |keys| && FirstMax(keys, k)
    decreases |keys|
  {
    if |keys| == 1 then 0
    else
      var k := FirstArgMax(keys[..|keys| - 1]);
      if keys[|keys| - 1] > keys[k] then |keys| - 1 else k
  }

  /** The head of the ranking has the largest key and is the earliest index
      with that key. */
  lemma RankHead(keys: seq<real>)
    requires |keys| > 0
    ensures RankDescending(keys, |keys|)[0] < |keys|
    ensures FirstMax(keys, RankDescending(keys, |keys|)[0])
  {
    var n := |keys|;
    var r := RankDescending(keys, n);
    RankIsStableSort(keys, n);
    forall j | 0 <= j < n
      ensures keys[j] <= keys[r[0]]
      ensures j < r[0] ==> keys[j] < keys[r[0]]
    {
      assert j in r;
      var b :| 0 <= b < n && r[b] == j;
    }
  }
}
