/** Sequences without repetition under a key, as the code checks them with a set of keys seen so far. */
module Distinct {

  ghost predicate DistinctBy<S, T>(items: seq<S>, key: S -> T) {
    forall i, j | 0 <= i < j < |items| :: key(items[i]) != key(items[j])
  }

  function KeysBy<S(==), T(==)>(items: seq<S>, key: S -> T): set<T> {
    set x | x in items :: key(x)
  }

  lemma AppendBy<S, T>(items: seq<S>, x: S, key: S -> T)
    ensures KeysBy(items + [x], key) == KeysBy(items, key) + {key(x)}
    ensures DistinctBy(items + [x], key) <==> DistinctBy(items, key) && key(x) !in KeysBy(items, key)
  {
    var longer := items + [x];
    assert forall y :: y in longer <==> y in items || y == x;
    if DistinctBy(longer, key) {
      forall i, j | 0 <= i < j < |items| ensures key(items[i]) != key(items[j]) {
        assert longer[i] == items[i] && longer[j] == items[j];
      }
      forall y | y in items ensures key(y) != key(x) {
        var i :| 0 <= i < |items| && items[i] == y;
        assert longer[i] == y && longer[|items|] == x;
      }
    }
  }

  /** A key met again among earlier items shows that the whole sequence repeats it. */
  lemma RepeatedBy<S, T>(items: seq<S>, i: nat, key: S -> T)
    requires i < |items| && key(items[i]) in KeysBy(items[..i], key)
    ensures !DistinctBy(items, key)
  {
    var y :| y in items[..i] && key(y) == key(items[i]);
    var k :| 0 <= k < i && items[k] == y;
  }

  lemma {:induction false} CountBy<S, T>(items: seq<S>, key: S -> T)
    requires DistinctBy(items, key)
    ensures |KeysBy(items, key)| == |items|
  {
    if items != [] {
      var n := |items| - 1;
      var front := items[..n];
      assert items == front + [items[n]];
      AppendBy(front, items[n], key);
      CountBy(front, key);
    }
  }
}
