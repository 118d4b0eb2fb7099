/**
 The median of the evaluation report (crates/ao-next-eval/src/comparison.rs, `median`), against
 the definition that counts the values on either side.
 */
module Medians {
  import opened Ordering
  import opened Words

  const BY_SIZE: (U64, U64) -> bool := (a, b) => a < b

  function SaturatingAdd(a: U64, b: U64): U64 {
    if a + b <= U64_MAX then a + b else U64_MAX
  }

  /** How many values lie below, and above, `v`. */
  function Below(values: seq<U64>, v: U64): nat {
    if values == [] then 0 else (if values[0] < v then 1 else 0) + Below(values[1..], v)
  }

  function Above(values: seq<U64>, v: U64): nat {
    if values == [] then 0 else (if values[0] > v then 1 else 0) + Above(values[1..], v)
  }

  /** `m` is one of the values, and no more than half of the others lie on either side of it. */
  ghost predicate IsMiddle(values: seq<U64>, m: U64) {
    m in values && 2 * Below(values, m) <= |values| - 1 && 2 * Above(values, m) <= |values| - 1
  }

  /** The values next to the middle of an even number of values. */
  ghost predicate AreMiddles(values: seq<U64>, a: U64, b: U64) {
    && a <= b && a in values && b in values
    && 2 * Below(values, a) <= |values| - 2 && 2 * Above(values, b) <= |values| - 2
    && (a != b ==> 2 * Above(values, a) == |values| && 2 * Below(values, b) == |values|)
  }

  /** The halved, saturating sum of the two values in the middle. */
  ghost predicate IsEvenMedian(values: seq<U64>, m: U64) {
    exists a, b :: AreMiddles(values, a, b) && m == SaturatingAdd(a, b) / 2
  }

  method Median(values: seq<U64>) returns (m: U64)
    requires values != []
    ensures |values| % 2 == 1 ==> IsMiddle(values, m)
    ensures |values| % 2 == 0 ==> IsEvenMedian(values, m)
  {
    var sorted := Sort(values, BY_SIZE);
    SortOrders(values, BY_SIZE);
    var middle := |sorted| / 2;
    SidesOfSorted(values, middle);
    if |sorted| % 2 == 0 {
      SidesOfSorted(values, middle - 1);
      m := SaturatingAdd(sorted[middle - 1], sorted[middle]) / 2;
      MiddlesOfSorted(values, middle);
      assert AreMiddles(values, sorted[middle - 1], sorted[middle]);
    } else {
      m := sorted[middle];
    }
  }

  // ----- counting does not depend on the order -----

  lemma {:induction false} InsertCounts(sorted: seq<U64>, x: U64, v: U64)
    ensures Below(Insert(sorted, x, BY_SIZE), v) == Below(sorted, v) + if x < v then 1 else 0
    ensures Above(Insert(sorted, x, BY_SIZE), v) == Above(sorted, v) + if x > v then 1 else 0
  {
    if sorted != [] && !(x < sorted[0]) { InsertCounts(sorted[1..], x, v); }
  }

  lemma {:induction false} SortCounts(values: seq<U64>, v: U64)
    ensures Below(Sort(values, BY_SIZE), v) == Below(values, v)
    ensures Above(Sort(values, BY_SIZE), v) == Above(values, v)
  {
    if values != [] {
      SortCounts(values[1..], v);
      InsertCounts(Sort(values[1..], BY_SIZE), values[0], v);
    }
  }

  lemma {:induction false} BelowBound(values: seq<U64>, v: U64, k: nat)
    requires k <= |values| && forall j | k <= j < |values| :: values[j] >= v
    ensures Below(values, v) <= k
  {
    if values != [] { BelowBound(values[1..], v, if k == 0 then 0 else k - 1); }
  }

  lemma {:induction false} AboveBound(values: seq<U64>, v: U64, k: nat)
    requires k <= |values| && forall j | 0 <= j < k :: values[j] <= v
    ensures Above(values, v) <= |values| - k
  {
    if values != [] { AboveBound(values[1..], v, if k == 0 then 0 else k - 1); }
  }

  lemma {:induction false} BelowReaches(values: seq<U64>, v: U64, k: nat)
    requires k <= |values| && forall j | 0 <= j < k :: values[j] < v
    ensures Below(values, v) >= k
  {
    if k > 0 { BelowReaches(values[1..], v, k - 1); }
  }

  lemma {:induction false} AboveReaches(values: seq<U64>, v: U64, k: nat)
    requires k <= |values| && forall j | k <= j < |values| :: values[j] > v
    ensures Above(values, v) >= |values| - k
  {
    if values != [] { AboveReaches(values[1..], v, if k == 0 then 0 else k - 1); }
  }

  lemma SidesOfSorted(values: seq<U64>, k: nat)
    requires k < |Sort(values, BY_SIZE)|
    ensures var sorted := Sort(values, BY_SIZE);
      && |sorted| == |values| && sorted[k] in values
      && Below(values, sorted[k]) <= k && Above(values, sorted[k]) <= |values| - 1 - k
  {
    var sorted := Sort(values, BY_SIZE);
    SortOrders(values, BY_SIZE);
    var m := sorted[k];
    forall j | 0 <= j < k ensures sorted[j] <= m { assert !BY_SIZE(m, sorted[j]); }
    forall j | k <= j < |sorted| ensures sorted[j] >= m { assert j > k ==> !BY_SIZE(sorted[j], m); }
    SortCounts(values, m);
    BelowBound(sorted, sorted[k], k);
    AboveBound(sorted, sorted[k], k + 1);
  }

  /** In an even number of values the two at the middle differ only if they split the values in half. */
  lemma MiddlesOfSorted(values: seq<U64>, h: nat)
    requires h > 0 && |values| == 2 * h && |Sort(values, BY_SIZE)| == |values|
    ensures var sorted := Sort(values, BY_SIZE);
      && sorted[h - 1] <= sorted[h]
      && (sorted[h - 1] != sorted[h] ==> Above(values, sorted[h - 1]) == h && Below(values, sorted[h]) == h)
  {
    var sorted := Sort(values, BY_SIZE);
    SortOrders(values, BY_SIZE);
    var a, b := sorted[h - 1], sorted[h];
    assert !BY_SIZE(b, a);
    forall j | 0 <= j < h ensures sorted[j] <= a { assert j < h - 1 ==> !BY_SIZE(sorted[h - 1], sorted[j]); }
    forall j | h <= j < |sorted| ensures sorted[j] >= b { assert j > h ==> !BY_SIZE(sorted[j], sorted[h]); }
    if a != b {
      SidesOfSorted(values, h - 1);
      SidesOfSorted(values, h);
      SortCounts(values, a);
      SortCounts(values, b);
      AboveReaches(sorted, a, h);
      BelowReaches(sorted, b, h);
    }
  }

  // ----- what the middle is -----

  lemma {:induction false} SidesMonotone(values: seq<U64>, m: U64, n: U64)
    requires m < n
    ensures Below(values, n) + Above(values, m) >= |values|
  {
    if values != [] { SidesMonotone(values[1..], m, n); }
  }

  /** At most one value is the middle of an odd number of values. */
  lemma MiddleUnique(values: seq<U64>, m: U64, n: U64)
    requires IsMiddle(values, m) && IsMiddle(values, n)
    ensures m == n
  {
    if m < n { SidesMonotone(values, m, n); }
    if n < m { SidesMonotone(values, n, m); }
  }

  /** At most one pair of values is in the middle of an even number of values. */
  lemma MiddlesUnique(values: seq<U64>, a: U64, b: U64, c: U64, d: U64)
    requires AreMiddles(values, a, b) && AreMiddles(values, c, d)
    ensures a == c && b == d
  {
    if a < c { SidesMonotone(values, a, c); }
    if c < a { SidesMonotone(values, c, a); }
    if b < d { SidesMonotone(values, b, d); }
    if d < b { SidesMonotone(values, d, b); }
  }

  /**
   The sum of the two middle values saturates: the reported median lies between them exactly if the
   lower one is at most half of the largest 64-bit value.
   */
  lemma EvenMedianBetween(values: seq<U64>, m: U64, a: U64, b: U64)
    requires IsEvenMedian(values, m) && AreMiddles(values, a, b)
    ensures a <= m <= b <==> a <= U64_MAX / 2
  {
    var c, d :| AreMiddles(values, c, d) && m == SaturatingAdd(c, d) / 2;
    MiddlesUnique(values, a, b, c, d);
  }

  /** Two equal, large values: the reported median is below both. */
  lemma EvenMedianTooLow()
    ensures IsEvenMedian([U64_MAX, U64_MAX], U64_MAX / 2)
  {
    var values: seq<U64> := [U64_MAX, U64_MAX];
    BelowBound(values, U64_MAX, 0);
    AboveBound(values, U64_MAX, 2);
    assert U64_MAX in values;
    assert AreMiddles(values, U64_MAX, U64_MAX);
    assert SaturatingAdd(U64_MAX, U64_MAX) == U64_MAX;
  }
}
