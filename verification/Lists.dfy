/** Duplicate-free lists in order of first appearance, and stable sorting. */
module Lists {

  /** `target` extended by the values it does not hold yet */
  function AppendUnique<T(==)>(target: seq<T>, values: seq<T>): seq<T>
    decreases |values|
  {
    if values == [] then target
    else if values[0] in target then AppendUnique(target, values[1..])
    else AppendUnique(target + [values[0]], values[1..])
  }

  predicate NoDuplicates<T(==)>(s: seq<T>) {
    forall i, j | 0 <= i < j < |s| :: s[i] != s[j]
  }

  lemma {:induction false} AppendUniqueExtends<T>(target: seq<T>, values: seq<T>)
    ensures target <= AppendUnique(target, values)
    ensures NoDuplicates(target) ==> NoDuplicates(AppendUnique(target, values))
    ensures forall x :: x in AppendUnique(target, values) <==> x in target || x in values
    decreases |values|
  {
    if values != [] {
      if values[0] in target {
        AppendUniqueExtends(target, values[1..]);
      } else {
        AppendUniqueExtends(target + [values[0]], values[1..]);
      }
      assert values == [values[0]] + values[1..];
    }
  }

  lemma {:induction false} AppendUniqueConcat<T>(target: seq<T>, a: seq<T>, b: seq<T>)
    ensures AppendUnique(target, a + b) == AppendUnique(AppendUnique(target, a), b)
    decreases |a|
  {
    if a == [] {
      assert a + b == b;
    } else {
      assert (a + b)[1..] == a[1..] + b;
      AppendUniqueConcat(if a[0] in target then target else target + [a[0]], a[1..], b);
    }
  }

  lemma {:induction false} AppendUniqueKnown<T>(target: seq<T>, values: seq<T>)
    requires forall x | x in values :: x in target
    ensures AppendUnique(target, values) == target
    decreases |values|
  {
    if values != [] {
      AppendUniqueKnown(target, values[1..]);
    }
  }

  lemma {:induction false} AppendUniqueNew<T>(target: seq<T>, values: seq<T>)
    requires NoDuplicates(target + values)
    ensures AppendUnique(target, values) == target + values
    decreases |values|
  {
    if values == [] {
      assert target + values == target;
    } else {
      var all := target + values;
      assert all == target + [values[0]] + values[1..];
      assert all[|target|] == values[0] && forall i | 0 <= i < |target| :: all[i] == target[i];
      AppendUniqueNew(target + [values[0]], values[1..]);
    }
  }

  lemma AppendUniqueTwice<T>(values: seq<T>)
    requires NoDuplicates(values)
    ensures AppendUnique([], values + values) == values
  {
    assert [] + values == values;
    AppendUniqueNew([], values);
    AppendUniqueConcat([], values, values);
    AppendUniqueKnown(values, values);
  }

  /** The element at `j` appears there for the first time. */
  predicate FirstAt<T(==)>(values: seq<T>, j: nat) {
    j < |values| && forall i | 0 <= i < j :: values[i] != values[j]
  }

  /** `list` are the values in order of first appearance; `at` are their first places. */
  ghost predicate Firsts<T>(values: seq<T>, list: seq<T>, at: seq<nat>) {
    && |at| == |list| && Increasing(at)
    && (forall k | 0 <= k < |at| :: FirstAt(values, at[k]) && list[k] == values[at[k]])
    && forall j: nat | FirstAt(values, j) :: j in at
  }

  lemma FirstAtFront<T>(values: seq<T>, x: T, j: nat)
    ensures j < |values| ==> (FirstAt(values + [x], j) <==> FirstAt(values, j))
    ensures FirstAt(values + [x], |values|) <==> x !in values
  {
    var all := values + [x];
    assert forall i | 0 <= i < |values| :: all[i] == values[i];
    if x in values {
      var i :| 0 <= i < |values| && values[i] == x;
      assert all[i] == all[|values|];
    }
  }

  lemma OneMoreFirst<T>(values: seq<T>, list: seq<T>, at: seq<nat>, x: T) returns (more: seq<nat>)
    requires Firsts(values, list, at) && (x in list <==> x in values)
    ensures Firsts(values + [x], if x in list then list else list + [x], more)
  {
    more := if x in list then at else at + [|values|];
    forall j: nat
      ensures FirstAt(values + [x], j) <==> FirstAt(values, j) || (j == |values| && x !in values)
    {
      FirstAtFront(values, x, j);
    }
    forall j: nat | FirstAt(values + [x], j)
      ensures j in more
    {
      if j == |values| {
        assert more[|at|] == j;
      } else {
        assert j in at;
      }
    }
  }

  lemma AppendOne<T>(target: seq<T>, x: T)
    ensures AppendUnique(target, [x]) == if x in target then target else target + [x]
  {
    assert [x][1..] == [];
  }

  lemma AppendLast<T>(front: seq<T>, x: T, list: seq<T>)
    requires list == AppendUnique([], front)
    ensures AppendUnique([], front + [x]) == if x in list then list else list + [x]
    ensures x in list <==> x in front
  {
    AppendUniqueConcat([], front, [x]);
    AppendOne(list, x);
    AppendUniqueExtends([], front);
  }

  /** Extending an empty list gives the values in order of first appearance, each once. */
  lemma {:induction false} AppendUniqueFirsts<T>(values: seq<T>) returns (at: seq<nat>)
    ensures Firsts(values, AppendUnique([], values), at)
  {
    at := [];
    if values != [] {
      var front, x := values[..|values| - 1], values[|values| - 1];
      assert front + [x] == values;
      at := AppendUniqueFirsts(front);
      AppendLast(front, x, AppendUnique([], front));
      at := OneMoreFirst(front, AppendUnique([], front), at, x);
    }
  }

  // ----- Picking elements -----

  /** `some` are the elements of `all` to keep: all of them, in their order, each once; `at` are their places. */
  ghost predicate Picks<T>(all: seq<T>, keep: T -> bool, some: seq<T>, at: seq<nat>) {
    && |at| == |some|
    && (forall k | 0 <= k < |at| :: at[k] < |all| && some[k] == all[at[k]])
    && (forall k, l | 0 <= k < l < |at| :: at[k] < at[l])
    && (forall k | 0 <= k < |at| :: keep(all[at[k]]))
    && forall j: nat | j < |all| && keep(all[j]) :: j in at
  }

  lemma PickMore<T>(all: seq<T>, keep: T -> bool, some: seq<T>, at: seq<nat>, x: T) returns (more: seq<nat>)
    requires Picks(all, keep, some, at)
    ensures Picks(all + [x], keep, some + if keep(x) then [x] else [], more)
  {
    more := at + if keep(x) then [|all|] else [];
    forall j: nat | j < |all + [x]| && keep((all + [x])[j])
      ensures j in more
    {
      if j == |all| {
        assert more[|at|] == j;
      } else {
        assert (all + [x])[j] == all[j] && j in at;
      }
    }
  }

  predicate Increasing(at: seq<nat>) {
    forall k, l | 0 <= k < l < |at| :: at[k] < at[l]
  }

  lemma FrontElements(a: seq<nat>, x: nat)
    requires Increasing(a) && a != []
    ensures x in a[..|a| - 1] <==> x in a && x < a[|a| - 1]
    ensures x in a ==> x <= a[|a| - 1]
  {
    assert a == a[..|a| - 1] + [a[|a| - 1]];
  }

  /** Increasing lists with the same elements are the same. */
  lemma {:induction false} IncreasingUnique(a: seq<nat>, b: seq<nat>)
    requires Increasing(a) && Increasing(b) && forall x: nat :: x in a <==> x in b
    ensures a == b
  {
    if a != [] || b != [] {
      var some := if a != [] then a[0] else b[0];
      assert some in a && some in b;
      var x, y := a[|a| - 1], b[|b| - 1];
      var c, d := a[..|a| - 1], b[..|b| - 1];
      assert x in a && y in b;
      FrontElements(a, y);
      FrontElements(b, x);
      forall z: nat
        ensures z in c <==> z in d
      {
        FrontElements(a, z);
        FrontElements(b, z);
      }
      IncreasingUnique(c, d);
      assert a == c + [x] && b == d + [y];
    }
  }

  // ----- Stable insertion sort -----

  /** `o` after every element that is at most `o` */
  function Insert<T>(list: seq<T>, o: T, atMost: (T, T) -> bool): seq<T> {
    if list == [] then [o]
    else
      var n := |list| - 1;
      if atMost(list[n], o) then list + [o] else Insert(list[..n], o, atMost) + [list[n]]
  }

  function StableSort<T>(list: seq<T>, atMost: (T, T) -> bool): seq<T> {
    if list == [] then []
    else Insert(StableSort(list[..|list| - 1], atMost), list[|list| - 1], atMost)
  }

  /** Every element comes strictly before all later ones. */
  ghost predicate StrictlySorted<T>(list: seq<T>, atMost: (T, T) -> bool) {
    forall i, j | 0 <= i < j < |list| :: atMost(list[i], list[j]) && !atMost(list[j], list[i])
  }

  /** `o` compares strictly with all elements, and those below it come first. */
  ghost predicate Separates<T>(list: seq<T>, k: nat, o: T, atMost: (T, T) -> bool) {
    && k <= |list|
    && (forall i | 0 <= i < k :: atMost(list[i], o))
    && (forall i | k <= i < |list| :: !atMost(list[i], o))
  }

  lemma {:induction false} InsertAt<T>(list: seq<T>, k: nat, o: T, atMost: (T, T) -> bool)
    requires Separates(list, k, o, atMost)
    ensures Insert(list, o, atMost) == list[..k] + [o] + list[k..]
  {
    var n := |list| - 1;
    if k == |list| {
      assert list[..k] + [o] + list[k..] == list + [o];
    } else {
      InsertAt(list[..n], k, o, atMost);
      assert list[..n][..k] == list[..k];
      assert list[k..] == list[..n][k..] + [list[n]];
    }
  }

  lemma {:induction false} SortedIsFixed<T>(list: seq<T>, atMost: (T, T) -> bool)
    requires forall i, j | 0 <= i < j < |list| :: atMost(list[i], list[j])
    ensures StableSort(list, atMost) == list
  {
    if list != [] {
      var n := |list| - 1;
      SortedIsFixed(list[..n], atMost);
      InsertAt(list[..n], n, list[n], atMost);
      assert list[..n][..n] + [list[n]] + list[..n][n..] == list;
    }
  }

  // ----- What sorting keeps -----

  ghost predicate Total<T(!new)>(atMost: (T, T) -> bool) {
    forall a, b :: atMost(a, b) || atMost(b, a)
  }

  ghost predicate Transitive<T(!new)>(atMost: (T, T) -> bool) {
    forall a, b, c :: atMost(a, b) && atMost(b, c) ==> atMost(a, c)
  }

  ghost predicate Sorted<T>(list: seq<T>, atMost: (T, T) -> bool) {
    forall i, j | 0 <= i < j < |list| :: atMost(list[i], list[j])
  }

  /** The elements that rank like `o`, in their order */
  function Alike<T>(list: seq<T>, o: T, atMost: (T, T) -> bool): seq<T> {
    if list == [] then []
    else
      var x := list[|list| - 1];
      Alike(list[..|list| - 1], o, atMost) + if atMost(x, o) && atMost(o, x) then [x] else []
  }

  lemma {:induction false} InsertKeepsElements<T>(list: seq<T>, o: T, atMost: (T, T) -> bool)
    ensures multiset(Insert(list, o, atMost)) == multiset(list) + multiset{o}
  {
    if list != [] {
      var n := |list| - 1;
      assert list == list[..n] + [list[n]];
      InsertKeepsElements(list[..n], o, atMost);
    }
  }

  /** Sorting drops nothing and repeats nothing. */
  lemma {:induction false} SortKeepsElements<T>(list: seq<T>, atMost: (T, T) -> bool)
    ensures multiset(StableSort(list, atMost)) == multiset(list)
  {
    if list != [] {
      var n := |list| - 1;
      assert list == list[..n] + [list[n]];
      SortKeepsElements(list[..n], atMost);
      InsertKeepsElements(StableSort(list[..n], atMost), list[n], atMost);
    }
  }

  lemma {:induction false} InsertKeepsSorted<T(!new)>(list: seq<T>, o: T, atMost: (T, T) -> bool)
    requires Total(atMost) && Transitive(atMost) && Sorted(list, atMost)
    ensures Sorted(Insert(list, o, atMost), atMost)
  {
    if list != [] {
      var n := |list| - 1;
      InsertKeepsSorted(list[..n], o, atMost);
      if !atMost(list[n], o) {
        var before := Insert(list[..n], o, atMost);
        InsertKeepsElements(list[..n], o, atMost);
        forall x | x in before
          ensures atMost(x, list[n])
        {
          assert x in multiset(before);
        }
      } else {
        forall i | 0 <= i < |list|
          ensures atMost(list[i], o)
        {
          assert i < n ==> atMost(list[i], list[n]);
        }
      }
    }
  }

  lemma {:induction false} SortIsSorted<T(!new)>(list: seq<T>, atMost: (T, T) -> bool)
    requires Total(atMost) && Transitive(atMost)
    ensures Sorted(StableSort(list, atMost), atMost)
  {
    if list != [] {
      SortIsSorted(list[..|list| - 1], atMost);
      InsertKeepsSorted(StableSort(list[..|list| - 1], atMost), list[|list| - 1], atMost);
    }
  }

  lemma {:induction false} InsertKeepsAlike<T(!new)>(list: seq<T>, x: T, o: T, atMost: (T, T) -> bool)
    requires Transitive(atMost)
    ensures Alike(Insert(list, x, atMost), o, atMost) == Alike(list + [x], o, atMost)
  {
    assert (list + [x])[..|list|] == list;
    if list != [] {
      var n := |list| - 1;
      if !atMost(list[n], x) {
        InsertKeepsAlike(list[..n], x, o, atMost);
        assert (list[..n] + [x])[..n] == list[..n];
        var before := Insert(list[..n], x, atMost);
        assert (before + [list[n]])[..|before|] == before;
        assert !(atMost(list[n], o) && atMost(o, x));
      }
    }
  }

  /** Sorting is stable: elements that rank alike keep their order. */
  lemma {:induction false} SortIsStable<T(!new)>(list: seq<T>, o: T, atMost: (T, T) -> bool)
    requires Transitive(atMost)
    ensures Alike(StableSort(list, atMost), o, atMost) == Alike(list, o, atMost)
  {
    if list != [] {
      var n := |list| - 1;
      var before := StableSort(list[..n], atMost);
      SortIsStable(list[..n], o, atMost);
      InsertKeepsAlike(before, list[n], o, atMost);
      assert (before + [list[n]])[..|before|] == before;
    }
  }

  /** Sorting a sorted list with one new element at its end moves that element to its place. */
  lemma SortAppended<T>(list: seq<T>, k: nat, o: T, atMost: (T, T) -> bool)
    requires StrictlySorted(list, atMost) && Separates(list, k, o, atMost)
    ensures StableSort(list + [o], atMost) == list[..k] + [o] + list[k..]
  {
    SortedIsFixed(list, atMost);
    assert (list + [o])[..|list|] == list;
    InsertAt(list, k, o, atMost);
  }
}
