/** The stable sort behind the ranking, as the order in which it arranges the indices. */
module Ranking {

  // Items are compared by the first number, ties by the second, remaining ties by position.
  datatype Key = Key(major: int, minor: int)

  predicate Less(a: Key, b: Key) {
    a.major < b.major || (a.major == b.major && a.minor < b.minor)
  }

  predicate Before(keys: seq<Key>, i: nat, j: nat)
    requires i < |keys| && j < |keys|
  {
    Less(keys[i], keys[j]) || (keys[i] == keys[j] && i < j)
  }

  predicate Indices(order: seq<nat>, n: nat) {
    forall k :: 0 <= k < |order| ==> order[k] < n
  }

  /** Every index below `n` exactly once. */
  ghost predicate Permutation(order: seq<nat>, n: nat) {
    && |order| == n
    && Indices(order, n)
    && (forall i: nat :: i < n ==> i in order)
    && Apart(order)
  }

  ghost predicate InOrder(keys: seq<Key>, order: seq<nat>)
    requires Indices(order, |keys|)
  {
    forall i, j :: 0 <= i < j < |order| ==> Before(keys, order[i], order[j])
  }

  // Moves `x` in front of the items at the end that are greater.
  function Inserted(keys: seq<Key>, order: seq<nat>, x: nat): (r: seq<nat>)
    requires Indices(order, x) && x < |keys|
    ensures |r| == |order| + 1
    ensures Indices(r, x + 1)
    decreases |order|
  {
    if order == [] then [x]
    else
      var last := order[|order| - 1];
      if Less(keys[x], keys[last]) then
        Inserted(keys, order[..|order| - 1], x) + [last]
      else
        order + [x]
  }

  /** The stable order of the first `n` items. */
  function StableOrder(keys: seq<Key>, n: nat): (order: seq<nat>)
    requires n <= |keys|
    ensures |order| == n
    ensures Indices(order, n)
  {
    if n == 0 then [] else Inserted(keys, StableOrder(keys, n - 1), n - 1)
  }

  lemma {:induction false} InsertedHas(keys: seq<Key>, order: seq<nat>, x: nat, i: nat)
    requires Indices(order, x) && x < |keys|
    ensures i in Inserted(keys, order, x) <==> i in order || i == x
    decreases |order|
  {
    if order != [] {
      var front, last := order[..|order| - 1], order[|order| - 1];
      InsertedHas(keys, front, x, i);
      assert order == front + [last];
    }
  }

  lemma {:induction false} InsertedInOrder(keys: seq<Key>, order: seq<nat>, x: nat)
    requires Indices(order, x) && x < |keys|
    requires InOrder(keys, order)
    ensures InOrder(keys, Inserted(keys, order, x))
    decreases |order|
  {
    if order != [] {
      var front, last := order[..|order| - 1], order[|order| - 1];
      assert last in order;
      if Less(keys[x], keys[last]) {
        var r := Inserted(keys, front, x);
        InsertedInOrder(keys, front, x);
        forall i | 0 <= i < |r| ensures Before(keys, r[i], last) {
          InsertedHas(keys, front, x, r[i]);
        }
      } else {
        forall i | 0 <= i < |order| ensures Before(keys, order[i], x) {
          assert order[i] in order;
          assert i < |order| - 1 ==> Before(keys, order[i], last);
        }
      }
    }
  }

  lemma {:induction false} StableOrderHas(keys: seq<Key>, n: nat, i: nat)
    requires i < n <= |keys|
    ensures i in StableOrder(keys, n)
  {
    InsertedHas(keys, StableOrder(keys, n - 1), n - 1, i);
    if i < n - 1 {
      StableOrderHas(keys, n - 1, i);
    }
  }

  lemma {:induction false} StableOrderInOrder(keys: seq<Key>, n: nat)
    requires n <= |keys|
    ensures InOrder(keys, StableOrder(keys, n))
  {
    if n > 0 {
      StableOrderInOrder(keys, n - 1);
      InsertedInOrder(keys, StableOrder(keys, n - 1), n - 1);
    }
  }

  predicate Apart(order: seq<nat>) {
    forall i, j :: 0 <= i < j < |order| ==> order[i] != order[j]
  }

  lemma Distinct(keys: seq<Key>, order: seq<nat>)
    requires Indices(order, |keys|) && InOrder(keys, order)
    ensures Apart(order)
  {
    forall i, j | 0 <= i < j < |order| ensures order[i] != order[j] {
      assert Before(keys, order[i], order[j]);
    }
  }

  /** The ranking arranges all items, and they stand in order: equal keys keep their positions. */
  lemma StableOrderSorts(keys: seq<Key>, n: nat)
    requires n <= |keys|
    ensures Permutation(StableOrder(keys, n), n)
    ensures InOrder(keys, StableOrder(keys, n))
  {
    StableOrderInOrder(keys, n);
    Distinct(keys, StableOrder(keys, n));
    forall i: nat | i < n ensures i in StableOrder(keys, n) {
      StableOrderHas(keys, n, i);
    }
  }

  /** Nothing is smaller than the first item. */
  lemma StableOrderLeads(keys: seq<Key>, i: nat)
    requires i < |keys|
    ensures var first := StableOrder(keys, |keys|)[0];
            first < |keys| && keys[first].major <= keys[i].major
  {
    var order := StableOrder(keys, |keys|);
    StableOrderSorts(keys, |keys|);
    assert i in order;
    var k :| 0 <= k < |order| && order[k] == i;
    assert k == 0 || Before(keys, order[0], order[k]);
  }

  ghost predicate SameMembers(a: seq<nat>, b: seq<nat>) {
    forall i: nat :: i in a <==> i in b
  }

  lemma LastIsGreatest(keys: seq<Key>, order: seq<nat>, i: nat)
    requires Indices(order, |keys|) && InOrder(keys, order) && i in order
    ensures i == order[|order| - 1] || (i < |keys| && Before(keys, i, order[|order| - 1]))
  {
    var k :| 0 <= k < |order| && order[k] == i;
    assert k < |order| - 1 ==> Before(keys, order[k], order[|order| - 1]);
  }

  lemma LastsAgree(keys: seq<Key>, a: seq<nat>, b: seq<nat>)
    requires Indices(a, |keys|) && InOrder(keys, a) && Indices(b, |keys|) && InOrder(keys, b)
    requires a != [] && b != [] && SameMembers(a, b)
    ensures a[|a| - 1] == b[|b| - 1]
  {
    var x, y := a[|a| - 1], b[|b| - 1];
    assert x in a && y in b;
    LastIsGreatest(keys, a, y);
    LastIsGreatest(keys, b, x);
  }

  lemma FrontHas(s: seq<nat>, i: nat)
    requires s != [] && Apart(s)
    ensures i in s[..|s| - 1] <==> i in s && i != s[|s| - 1]
  {
    if i in s && i != s[|s| - 1] {
      var j :| 0 <= j < |s| && s[j] == i;
      assert s[..|s| - 1][j] == i;
    }
  }

  lemma FrontsAgree(a: seq<nat>, b: seq<nat>)
    requires a != [] && b != [] && Apart(a) && Apart(b)
    requires SameMembers(a, b) && a[|a| - 1] == b[|b| - 1]
    ensures SameMembers(a[..|a| - 1], b[..|b| - 1])
  {
    var front, front' := a[..|a| - 1], b[..|b| - 1];
    forall i: nat ensures i in front <==> i in front' {
      FrontHas(a, i);
      FrontHas(b, i);
    }
  }

  /** Any correct stable sort arrives at this one arrangement. */
  lemma {:induction false} StableOrderIsUnique(keys: seq<Key>, a: seq<nat>, b: seq<nat>)
    requires Indices(a, |keys|) && InOrder(keys, a)
    requires Indices(b, |keys|) && InOrder(keys, b)
    requires |a| == |b| && SameMembers(a, b)
    ensures a == b
    decreases |a|
  {
    if a == [] {
    } else {
      var front, front' := a[..|a| - 1], b[..|b| - 1];
      LastsAgree(keys, a, b);
      Distinct(keys, a);
      Distinct(keys, b);
      FrontsAgree(a, b);
      StableOrderIsUnique(keys, front, front');
      assert a == front + [a[|a| - 1]] && b == front' + [b[|b| - 1]];
    }
  }

  function Arranged<T>(items: seq<T>, order: seq<nat>): (r: seq<T>)
    requires Indices(order, |items|)
    ensures |r| == |order|
    ensures forall k :: 0 <= k < |r| ==> r[k] == items[order[k]]
  {
    seq(|order|, k requires 0 <= k < |order| => items[order[k]])
  }
}
