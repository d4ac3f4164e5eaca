/**
 * Duplicate detection over lists. The validators walk a list while filling
 * a "seen" map and report one error for every entry already seen;
 * Repeats counts those entries, and Elems is the seen set at the end.
 */
module Collections {
  /** The set of entries of a list. */
  function Elems<T>(xs: seq<T>): set<T>
  {
    set x | x in xs
  }

  /** No entry occurs twice. */
  predicate Distinct<T(==)>(xs: seq<T>)
  {
    forall i, j :: 0 <= i < j < |xs| ==> xs[i] != xs[j]
  }

  /** The number of entries equal to some earlier entry. */
  function Repeats<T(==)>(xs: seq<T>): nat
  {
    if |xs| == 0 then 0
    else Repeats(xs[..|xs| - 1]) + (if xs[|xs| - 1] in xs[..|xs| - 1] then 1 else 0)
  }

  /** Extending a prefix by one entry: it is new to the seen set, or it is one more repeat. */
  lemma RepeatsStep<T>(xs: seq<T>, i: int)
    requires 0 <= i < |xs|
    ensures Elems(xs[..i + 1]) == Elems(xs[..i]) + {xs[i]}
    ensures Repeats(xs[..i + 1]) == Repeats(xs[..i]) + (if xs[i] in Elems(xs[..i]) then 1 else 0)
  {
    assert xs[..i + 1] == xs[..i] + [xs[i]];
    assert xs[..i + 1][..i] == xs[..i];
  }

  /** Every entry is either counted in the set of entries or as a repeat. */
  lemma {:induction false} RepeatsElems<T>(xs: seq<T>)
    ensures |Elems(xs)| + Repeats(xs) == |xs|
    decreases |xs|
  {
    if |xs| > 0 {
      var n := |xs| - 1;
      RepeatsElems(xs[..n]);
      RepeatsStep(xs, n);
      assert xs[..n + 1] == xs;
    }
  }

  /** There are no repeats exactly when the list is duplicate-free. */
  lemma {:induction false} RepeatsDistinct<T>(xs: seq<T>)
    ensures Repeats(xs) == 0 <==> Distinct(xs)
    decreases |xs|
  {
    if |xs| > 0 {
      var n := |xs| - 1;
      var p := xs[..n];
      RepeatsDistinct(p);
      if Distinct(xs) {
        assert Distinct(p);
        assert xs[n] !in p;
      }
      if Repeats(xs) == 0 {
        assert Repeats(p) == 0 && xs[n] !in p;
        forall i, j | 0 <= i < j < |xs| ensures xs[i] != xs[j] {
          if j < n {
            assert xs[i] == p[i] && xs[j] == p[j];
          } else {
            assert xs[i] == p[i];
          }
        }
      }
    }
  }

  /** The order-free reading of the duplicate count: entries minus distinct entries. */
  lemma RepeatsCount<T>(xs: seq<T>)
    ensures Repeats(xs) == |xs| - |Elems(xs)|
    ensures Repeats(xs) == 0 <==> |Elems(xs)| == |xs|
  {
    RepeatsElems(xs);
  }
}
