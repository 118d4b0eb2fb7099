/**
 Decimal texts, the order of strings, and sorting, shared by the parts of the model that stand
 for Go code. A string is a sequence of Unicode scalar values; ordering those agrees with Go's
 ordering of the UTF-8 bytes.
 */
module Ordering {

  // ----- decimal texts -----

  function Decimal(n: nat): string {
    if n < 10 then [(n + 48) as char] else Decimal(n / 10) + [(n % 10 + 48) as char]
  }

  predicate IsDigit(c: char) {
    '0' <= c <= '9'
  }

  predicate AllDigits(s: string) {
    forall i | 0 <= i < |s| :: IsDigit(s[i])
  }

  function DigitsValue(s: string): nat
    requires AllDigits(s)
  {
    if s == "" then 0
    else
      assert IsDigit(s[|s| - 1]);
      10 * DigitsValue(s[..|s| - 1]) + (s[|s| - 1] as int - 48)
  }

  /** Digits without a superfluous leading zero. */
  predicate Canonical(s: string) {
    s != "" && AllDigits(s) && (s == "0" || s[0] != '0')
  }

  lemma {:induction false} DecimalCanonical(n: nat)
    ensures Canonical(Decimal(n)) && DigitsValue(Decimal(n)) == n
    ensures n > 0 ==> Decimal(n)[0] != '0'
  {
    var s := Decimal(n);
    if n < 10 {
      assert DigitsValue(s[..0]) == 0;
    } else {
      DecimalCanonical(n / 10);
      assert s[..|s| - 1] == Decimal(n / 10);
    }
  }

  lemma {:induction false} LeadingDigitCounts(s: string)
    requires s != "" && AllDigits(s) && s[0] != '0'
    ensures DigitsValue(s) > 0
  {
    if |s| > 1 { LeadingDigitCounts(s[..|s| - 1]); }
  }

  lemma DigitAppended(n: nat, digit: char)
    requires n > 0 && IsDigit(digit)
    ensures Decimal(10 * n + (digit as int - 48)) == Decimal(n) + [digit]
  {
  }

  lemma {:induction false} CanonicalDecimal(s: string)
    requires Canonical(s)
    ensures Decimal(DigitsValue(s)) == s
  {
    var n := |s| - 1;
    var front, last := s[..n], s[n];
    if n == 0 {
      assert DigitsValue(front) == 0;
      assert s == [last];
    } else {
      assert front[0] == s[0];
      LeadingDigitCounts(front);
      CanonicalDecimal(front);
      DigitAppended(DigitsValue(front), last);
      assert front + [last] == s;
    }
  }

  // ----- strings in order -----

  predicate Before(a: string, b: string) {
    if b == "" then false
    else if a == "" then true
    else a[0] < b[0] || (a[0] == b[0] && Before(a[1..], b[1..]))
  }

  lemma {:induction false} BeforeTotal(a: string, b: string)
    ensures Before(a, b) || a == b || Before(b, a)
    ensures !(Before(a, b) && Before(b, a)) && !Before(a, a)
  {
    if a != "" && b != "" {
      BeforeTotal(a[1..], b[1..]);
      assert a == [a[0]] + a[1..] && b == [b[0]] + b[1..];
    } else if a != "" {
      BeforeTotal(a[1..], a[1..]);
    }
  }

  lemma {:induction false} BeforeTransitive(a: string, b: string, c: string)
    requires Before(a, b) && Before(b, c)
    ensures Before(a, c)
  {
    if a != "" && a[0] == b[0] == c[0] { BeforeTransitive(a[1..], b[1..], c[1..]); }
  }

  // ----- sorting -----

  ghost predicate StrictOrder<T(!new)>(less: (T, T) -> bool) {
    && (forall a, b :: less(a, b) || a == b || less(b, a))
    && (forall a, b :: !(less(a, b) && less(b, a)))
    && (forall a, b, c :: less(a, b) && less(b, c) ==> less(a, c))
  }

  ghost predicate Ascending<T>(items: seq<T>, less: (T, T) -> bool) {
    forall i, j | 0 <= i < j < |items| :: less(items[i], items[j])
  }

  /** Strings by content, as Go's `sort.Strings` orders them. */
  const BY_TEXT: (string, string) -> bool := (a, b) => Before(a, b)

  lemma ByTextOrders()
    ensures StrictOrder(BY_TEXT)
  {
    forall a: string, b: string { BeforeTotal(a, b); }
    forall a: string, b: string, c: string | Before(a, b) && Before(b, c)
      ensures Before(a, c)
    {
      BeforeTransitive(a, b, c);
    }
  }

  function Insert<T>(sorted: seq<T>, x: T, less: (T, T) -> bool): (r: seq<T>)
    ensures multiset(r) == multiset(sorted) + multiset{x}
  {
    if sorted == [] || less(x, sorted[0]) then [x] + sorted
    else
      assert sorted == [sorted[0]] + sorted[1..];
      [sorted[0]] + Insert(sorted[1..], x, less)
  }

  function Sort<T>(items: seq<T>, less: (T, T) -> bool): (r: seq<T>)
    ensures multiset(r) == multiset(items)
  {
    if items == [] then []
    else
      assert items == [items[0]] + items[1..];
      Insert(Sort(items[1..], less), items[0], less)
  }

  /** Nothing stands before something smaller. */
  ghost predicate Ordered<T>(items: seq<T>, less: (T, T) -> bool) {
    forall i, j | 0 <= i < j < |items| :: !less(items[j], items[i])
  }

  lemma {:induction false} InsertOrders<T(!new)>(sorted: seq<T>, x: T, less: (T, T) -> bool)
    requires StrictOrder(less) && Ordered(sorted, less)
    ensures Ordered(Insert(sorted, x, less), less)
  {
    if sorted != [] && !less(x, sorted[0]) {
      var rest := Insert(sorted[1..], x, less);
      InsertOrders(sorted[1..], x, less);
      forall y | y in rest
        ensures !less(y, sorted[0])
      {
        assert y in multiset(rest);
        if y != x { assert y in sorted[1..]; }
      }
    }
  }

  lemma {:induction false} SortOrders<T(!new)>(items: seq<T>, less: (T, T) -> bool)
    requires StrictOrder(less)
    ensures Ordered(Sort(items, less), less) && |Sort(items, less)| == |items|
    ensures forall x :: x in Sort(items, less) <==> x in items
  {
    assert |multiset(Sort(items, less))| == |multiset(items)|;
    assert forall x :: x in Sort(items, less) <==> x in multiset(Sort(items, less));
    assert forall x :: x in items <==> x in multiset(items);
    if items != [] {
      SortOrders(items[1..], less);
      InsertOrders(Sort(items[1..], less), items[0], less);
    }
  }

  ghost predicate NoRepeat<T>(items: seq<T>) {
    forall i, j | 0 <= i < j < |items| :: items[i] != items[j]
  }

  lemma {:induction false} SortKeepsDistinct<T>(items: seq<T>, less: (T, T) -> bool)
    requires NoRepeat(items)
    ensures NoRepeat(Sort(items, less))
  {
    var sorted := Sort(items, less);
    OnceEach(items);
    forall i, j | 0 <= i < j < |sorted|
      ensures sorted[i] != sorted[j]
    {
      assert sorted[i] in multiset(sorted);
      if sorted[i] == sorted[j] { TwiceCounts(sorted, i, j); }
    }
  }

  lemma {:induction false} OnceEach<T>(items: seq<T>)
    requires NoRepeat(items)
    ensures forall x | x in items :: multiset(items)[x] == 1
  {
    if items != [] {
      OnceEach(items[1..]);
      assert items == [items[0]] + items[1..];
      assert items[0] !in items[1..];
    }
  }

  lemma TwiceCounts<T>(items: seq<T>, i: nat, j: nat)
    requires i < j < |items| && items[i] == items[j]
    ensures multiset(items)[items[i]] >= 2
  {
    assert items == items[..j] + [items[j]] + items[j + 1..];
    assert items[i] in items[..j];
  }

  lemma SortAscends<T(!new)>(items: seq<T>, less: (T, T) -> bool)
    requires StrictOrder(less) && NoRepeat(items)
    ensures Ascending(Sort(items, less), less)
    ensures forall x :: x in Sort(items, less) <==> x in items
  {
    SortOrders(items, less);
    SortKeepsDistinct(items, less);
  }

  /** The elements of a set in order, in whatever order the set is visited. */
  method SortedElements<T(==,!new)>(elements: set<T>, less: (T, T) -> bool) returns (sorted: seq<T>)
    requires StrictOrder(less)
    ensures Ascending(sorted, less)
    ensures forall x :: x in sorted <==> x in elements
    ensures sorted == [] <==> elements == {}
  {
    var listed: seq<T> := [];
    var todo := elements;
    while todo != {}
      invariant todo <= elements
      invariant forall x :: x in listed <==> x in elements - todo
      invariant NoRepeat(listed)
      decreases todo
    {
      var x :| x in todo;
      assert x !in listed;
      todo := todo - {x};
      listed := listed + [x];
    }
    sorted := Sort(listed, less);
    SortAscends(listed, less);
    if sorted != [] { assert sorted[0] in sorted; }
  }

  lemma BothEmpty<T(!new)>(a: seq<T>, b: seq<T>)
    requires forall x :: x in a <==> x in b
    ensures a == [] <==> b == []
  {
    if a != [] { assert a[0] in a; }
    if b != [] { assert b[0] in b; }
  }

  /** Strictly ascending sequences with the same elements are equal. */
  lemma {:induction false} AscendingUnique<T(!new)>(a: seq<T>, b: seq<T>, less: (T, T) -> bool)
    requires StrictOrder(less) && Ascending(a, less) && Ascending(b, less)
    requires forall x :: x in a <==> x in b
    ensures a == b
  {
    BothEmpty(a, b);
    if a != [] {
      SameFirst(a, b, less);
      assert a == [a[0]] + a[1..] && b == [b[0]] + b[1..];
      forall x
        ensures x in a[1..] <==> x in b[1..]
      {
        assert !less(a[0], a[0]);
        assert x in a <==> x == a[0] || x in a[1..];
        assert x in b <==> x == b[0] || x in b[1..];
      }
      AscendingUnique(a[1..], b[1..], less);
    }
  }

  lemma SameFirst<T(!new)>(a: seq<T>, b: seq<T>, less: (T, T) -> bool)
    requires StrictOrder(less) && Ascending(a, less) && Ascending(b, less)
    requires forall x :: x in a <==> x in b
    requires a != [] && b != []
    ensures a[0] == b[0]
  {
    assert a[0] in b && b[0] in a;
    var i :| 0 <= i < |b| && b[i] == a[0];
    var j :| 0 <= j < |a| && a[j] == b[0];
  }
}
