/** A rule table: a fixed list of items, each guarded by its own condition.
    A run of independent `if cond: out.append(item)` statements builds exactly
    `Select(items, conditions)`: the items whose condition holds, in table order.
    Both engines of the dashboard (advice, risk and protective factors) are of
    this shape, so the facts about it are proved once here. */
module Rules {

  /** The items whose flag is set, in their original order. Defined on the last
      element so that one step of the recursion is one conditional append. */
  function Select<T>(items: seq<T>, keep: seq<bool>): (r: seq<T>)
    requires |items| == |keep|
    ensures |r| <= |items|
    ensures forall x :: x in r ==> x in items
    decreases |items|
  {
    if items == [] then []
    else Select(items[..|items| - 1], keep[..|keep| - 1])
         + (if keep[|keep| - 1] then [items[|items| - 1]] else [])
  }

  /** Number of set flags. */
  function Count(keep: seq<bool>): (n: nat)
    ensures n <= |keep|
  {
    if keep == [] then 0
    else Count(keep[..|keep| - 1]) + (if keep[|keep| - 1] then 1 else 0)
  }

  predicate Distinct<T(==)>(s: seq<T>)
  {
    forall i, j :: 0 <= i < j < |s| ==> s[i] != s[j]
  }

  /** One selected item per set flag. */
  lemma {:induction false} SelectLength<T>(items: seq<T>, keep: seq<bool>)
    requires |items| == |keep|
    ensures |Select(items, keep)| == Count(keep)
    decreases |items|
  {
    if items != [] {
      SelectLength(items[..|items| - 1], keep[..|keep| - 1]);
    }
  }

  /** An item is selected exactly when one of its occurrences has its flag set. */
  lemma {:induction false} SelectMember<T>(items: seq<T>, keep: seq<bool>, x: T)
    requires |items| == |keep|
    ensures x in Select(items, keep) <==> exists i :: 0 <= i < |items| && keep[i] && items[i] == x
    decreases |items|
  {
    if items != [] {
      var n := |items| - 1;
      SelectMember(items[..n], keep[..n], x);
      if x in Select(items[..n], keep[..n]) {
        var i :| 0 <= i < n && keep[..n][i] && items[..n][i] == x;
        assert keep[i] && items[i] == x;
      }
      if exists i :: 0 <= i < |items| && keep[i] && items[i] == x {
        var i :| 0 <= i < |items| && keep[i] && items[i] == x;
        if i < n {
          assert keep[..n][i] && items[..n][i] == x;
        }
      }
    }
  }

  /** The selection of a repetition-free table is repetition-free. */
  lemma {:induction false} SelectDistinct<T>(items: seq<T>, keep: seq<bool>)
    requires |items| == |keep|
    requires Distinct(items)
    ensures Distinct(Select(items, keep))
    decreases |items|
  {
    if items != [] {
      var n := |items| - 1;
      var prefix := items[..n];
      assert Distinct(prefix) by {
        forall i, j | 0 <= i < j < |prefix| ensures prefix[i] != prefix[j] {
          assert prefix[i] == items[i] && prefix[j] == items[j];
        }
      }
      SelectDistinct(prefix, keep[..n]);
      if keep[n] {
        var s := Select(prefix, keep[..n]);
        SelectMember(prefix, keep[..n], items[n]);
        assert forall i :: 0 <= i < n ==> prefix[i] == items[i] != items[n];
        assert items[n] !in s;
        var t := s + [items[n]];
        forall i, j | 0 <= i < j < |t| ensures t[i] != t[j] {
          if j == |s| {
            assert t[j] == items[n] && t[i] in s;
          } else {
            assert t[i] == s[i] && t[j] == s[j];
          }
        }
      }
    }
  }

  lemma {:induction false} CountAppend(a: seq<bool>, b: seq<bool>)
    ensures Count(a + b) == Count(a) + Count(b)
    decreases |b|
  {
    if b == [] {
      assert a + b == a;
    } else {
      var m := |b| - 1;
      assert (a + b)[..|a + b| - 1] == a + b[..m];
      CountAppend(a, b[..m]);
    }
  }

  /** The contribution of entry k alone. */
  function Pick<T>(items: seq<T>, keep: seq<bool>, k: nat): seq<T>
    requires |items| == |keep| && k < |items|
  {
    if keep[k] then [items[k]] else []
  }

  /** Running the table one entry further appends that entry's contribution. */
  lemma SelectPrefixStep<T>(items: seq<T>, keep: seq<bool>, k: nat)
    requires |items| == |keep| && k < |items|
    ensures Select(items[..k + 1], keep[..k + 1]) == Select(items[..k], keep[..k]) + Pick(items, keep, k)
  {
    assert items[..k + 1][..k] == items[..k];
    assert keep[..k + 1][..k] == keep[..k];
  }

  /** In a repetition-free table an entry is selected exactly when its flag is set. */
  lemma SelectMemberAt<T>(items: seq<T>, keep: seq<bool>, k: nat)
    requires |items| == |keep| && k < |items|
    requires Distinct(items)
    ensures items[k] in Select(items, keep) <==> keep[k]
  {
    SelectMember(items, keep, items[k]);
  }

  /** A six-entry table, written out entry by entry. */
  lemma SelectSix<T>(items: seq<T>, keep: seq<bool>)
    requires |items| == |keep| == 6
    ensures Select(items, keep) ==
              Pick(items, keep, 0) + Pick(items, keep, 1) + Pick(items, keep, 2) +
              Pick(items, keep, 3) + Pick(items, keep, 4) + Pick(items, keep, 5)
  {
    assert items[..0] == [] && keep[..0] == [];
    SelectPrefixStep(items, keep, 0);
    assert Select(items[..1], keep[..1]) == Pick(items, keep, 0);
    SelectPrefixStep(items, keep, 1);
    assert Select(items[..2], keep[..2]) == Pick(items, keep, 0) + Pick(items, keep, 1);
    SelectPrefixStep(items, keep, 2);
    assert Select(items[..3], keep[..3]) == Pick(items, keep, 0) + Pick(items, keep, 1) + Pick(items, keep, 2);
    SelectPrefixStep(items, keep, 3);
    assert Select(items[..4], keep[..4]) == Pick(items, keep, 0) + Pick(items, keep, 1) + Pick(items, keep, 2) + Pick(items, keep, 3);
    SelectPrefixStep(items, keep, 4);
    assert Select(items[..5], keep[..5]) == Pick(items, keep, 0) + Pick(items, keep, 1) + Pick(items, keep, 2) + Pick(items, keep, 3) + Pick(items, keep, 4);
    SelectPrefixStep(items, keep, 5);
    assert Select(items[..6], keep[..6]) == Pick(items, keep, 0) + Pick(items, keep, 1) + Pick(items, keep, 2) + Pick(items, keep, 3) + Pick(items, keep, 4) + Pick(items, keep, 5);
    assert items[..6] == items && keep[..6] == keep;
  }

  /** A seven-entry table, written out entry by entry. */
  lemma SelectSeven<T>(items: seq<T>, keep: seq<bool>)
    requires |items| == |keep| == 7
    ensures Select(items, keep) ==
              Pick(items, keep, 0) + Pick(items, keep, 1) + Pick(items, keep, 2) +
              Pick(items, keep, 3) + Pick(items, keep, 4) + Pick(items, keep, 5) +
              Pick(items, keep, 6)
  {
    assert items[..0] == [] && keep[..0] == [];
    SelectPrefixStep(items, keep, 0);
    assert Select(items[..1], keep[..1]) == Pick(items, keep, 0);
    SelectPrefixStep(items, keep, 1);
    assert Select(items[..2], keep[..2]) == Pick(items, keep, 0) + Pick(items, keep, 1);
    SelectPrefixStep(items, keep, 2);
    assert Select(items[..3], keep[..3]) == Pick(items, keep, 0) + Pick(items, keep, 1) + Pick(items, keep, 2);
    SelectPrefixStep(items, keep, 3);
    assert Select(items[..4], keep[..4]) == Pick(items, keep, 0) + Pick(items, keep, 1) + Pick(items, keep, 2) + Pick(items, keep, 3);
    SelectPrefixStep(items, keep, 4);
    assert Select(items[..5], keep[..5]) == Pick(items, keep, 0) + Pick(items, keep, 1) + Pick(items, keep, 2) + Pick(items, keep, 3) + Pick(items, keep, 4);
    SelectPrefixStep(items, keep, 5);
    assert Select(items[..6], keep[..6]) == Pick(items, keep, 0) + Pick(items, keep, 1) + Pick(items, keep, 2) + Pick(items, keep, 3) + Pick(items, keep, 4) + Pick(items, keep, 5);
    SelectPrefixStep(items, keep, 6);
    assert Select(items[..7], keep[..7]) == Pick(items, keep, 0) + Pick(items, keep, 1) + Pick(items, keep, 2) + Pick(items, keep, 3) + Pick(items, keep, 4) + Pick(items, keep, 5) + Pick(items, keep, 6);
    assert items[..7] == items && keep[..7] == keep;
  }
}
