/**
 * The key order of a pandas `groupby` (which sorts its keys by default):
 * the distinct keys of a column, each once, in ascending order.
 */
module Grouping {

  ghost predicate IsStrictTotalOrder<T(!new)>(less: (T, T) -> bool) {
    && (forall a :: !less(a, a))
    && (forall a, b, c :: less(a, b) && less(b, c) ==> less(a, c))
    && (forall a, b :: a != b ==> less(a, b) || less(b, a))
  }

  ghost predicate StrictlyAscending<T>(s: seq<T>, less: (T, T) -> bool) {
    forall i, j :: 0 <= i < j < |s| ==> less(s[i], s[j])
  }

  /** Adds `x` before the first key not below it, unless it is already there. */
  function InsertKey<T(!new,==)>(x: T, s: seq<T>, less: (T, T) -> bool): (r: seq<T>)
    ensures forall y :: y in r <==> y == x || y in s
  {
    if s == [] then [x]
    else if less(x, s[0]) then [x] + s
    else if x == s[0] then s
    else
      var rest := InsertKey(x, s[1..], less);
      assert forall y :: y in s <==> y == s[0] || y in s[1..];
      [s[0]] + rest
  }

  /** Under a strict total order, inserting into an ascending sequence keeps it ascending. */
  lemma {:induction false} InsertKeyAscending<T(!new)>(x: T, s: seq<T>, less: (T, T) -> bool)
    requires IsStrictTotalOrder(less)
    requires StrictlyAscending(s, less)
    ensures StrictlyAscending(InsertKey(x, s, less), less)
  {
    if s != [] && !less(x, s[0]) && x != s[0] {
      var rest := InsertKey(x, s[1..], less);
      InsertKeyAscending(x, s[1..], less);
      assert less(s[0], x);
      assert forall y :: y in s[1..] ==> less(s[0], y);
      assert forall i :: 0 <= i < |rest| ==> rest[i] in rest;
      assert InsertKey(x, s, less) == [s[0]] + rest;
    }
  }

  /** The distinct elements of `s`, each once, ascending under `less` (built by insertion): the group keys pandas iterates over. */
  function GroupKeys<T(!new,==)>(s: seq<T>, less: (T, T) -> bool): (r: seq<T>)
    ensures forall y :: y in r <==> y in s
  {
    if s == [] then []
    else
      var init := GroupKeys(s[..|s| - 1], less);
      assert s == s[..|s| - 1] + [s[|s| - 1]];
      InsertKey(s[|s| - 1], init, less)
  }

  /** Under a strict total order the group keys are ascending. */
  lemma {:induction false} GroupKeysAscending<T(!new)>(s: seq<T>, less: (T, T) -> bool)
    requires IsStrictTotalOrder(less)
    ensures StrictlyAscending(GroupKeys(s, less), less)
  {
    if s != [] {
      GroupKeysAscending(s[..|s| - 1], less);
      InsertKeyAscending(s[|s| - 1], GroupKeys(s[..|s| - 1], less), less);
    }
  }

  /** An ascending sequence holds every key once. */
  lemma AscendingIsDistinct<T(!new)>(s: seq<T>, less: (T, T) -> bool)
    requires IsStrictTotalOrder(less)
    requires StrictlyAscending(s, less)
    ensures forall i, j :: 0 <= i < |s| && 0 <= j < |s| && i != j ==> s[i] != s[j]
  {
    forall i, j | 0 <= i < |s| && 0 <= j < |s| && i != j ensures s[i] != s[j] {
      if i < j { assert less(s[i], s[j]); } else { assert less(s[j], s[i]); }
    }
  }

  /** No element occurs twice. */
  ghost predicate Distinct<T>(s: seq<T>) {
    forall i, j :: 0 <= i < |s| && 0 <= j < |s| && i != j ==> s[i] != s[j]
  }

  /** A sequence without repeats has as many elements as the set of its elements. */
  lemma {:induction false} DistinctCardinality<T>(s: seq<T>)
    requires Distinct(s)
    ensures |set x | x in s| == |s|
  {
    if s != [] {
      var init, last := s[..|s| - 1], s[|s| - 1];
      assert Distinct(init) by {
        forall i, j | 0 <= i < |init| && 0 <= j < |init| && i != j ensures init[i] != init[j] {
          assert init[i] == s[i] && init[j] == s[j];
        }
      }
      DistinctCardinality(init);
      assert s == init + [last];
      assert (set x | x in s) == (set x | x in init) + {last};
      assert last !in (set x | x in init) by {
        forall i | 0 <= i < |init| ensures init[i] != last {
          assert init[i] == s[i];
        }
      }
    }
  }
}
