/** Ordering of rows named by their ids: the least row under an integer key, ties
    broken by id, and the listing of a set of rows in that order. */
module Ordering {
  predicate Before(key: map<nat, int>, a: nat, b: nat)
    requires a in key && b in key
  {
    key[a] < key[b] || (key[a] == key[b] && a <= b)
  }

  predicate IsLeast(ids: set<nat>, key: map<nat, int>, m: nat)
    requires ids <= key.Keys
  {
    m in ids && forall x | x in ids :: Before(key, m, x)
  }

  lemma {:induction false} HasLeast(ids: set<nat>, key: map<nat, int>)
    requires ids != {} && ids <= key.Keys
    ensures exists m :: IsLeast(ids, key, m)
  {
    var x :| x in ids;
    if ids == {x} {
      assert IsLeast(ids, key, x);
    } else {
      HasLeast(ids - {x}, key);
      var m :| IsLeast(ids - {x}, key, m);
      var low := if Before(key, x, m) then x else m;
      assert forall y | y in ids :: y == x || y in ids - {x};
      assert IsLeast(ids, key, low);
    }
  }

  function Least(ids: set<nat>, key: map<nat, int>): (m: nat)
    requires ids != {} && ids <= key.Keys
    ensures IsLeast(ids, key, m)
  {
    HasLeast(ids, key);
    var m :| m in ids && IsLeast(ids, key, m);
    m
  }

  /** The ids in ascending order of their keys. */
  function SortedBy(ids: set<nat>, key: map<nat, int>): (s: seq<nat>)
    requires ids <= key.Keys
    ensures |s| == |ids|
    ensures forall x :: x in s <==> x in ids
    ensures forall i, j | 0 <= i < j < |s| :: s[i] != s[j] && Before(key, s[i], s[j])
  {
    if ids == {} then [] else
      var m := Least(ids, key);
      [m] + SortedBy(ids - {m}, key)
  }

  predicate StrictlyBy(s: seq<nat>, key: map<nat, int>) {
    && (forall i | 0 <= i < |s| :: s[i] in key)
    && (forall i, j | 0 <= i < j < |s| :: key[s[i]] < key[s[j]])
  }

  /** In order, with equal keys in the order of the ids. */
  predicate InOrder(s: seq<nat>, key: map<nat, int>) {
    && (forall i | 0 <= i < |s| :: s[i] in key)
    && (forall i, j | 0 <= i < j < |s| :: s[i] != s[j] && Before(key, s[i], s[j]))
  }

  lemma HeadIsLeast(s: seq<nat>, ids: set<nat>, key: map<nat, int>)
    requires ids <= key.Keys && (forall x :: x in s <==> x in ids) && InOrder(s, key) && s != []
    ensures s[0] in ids && Least(ids, key) == s[0]
  {
    assert s[0] in s;
    var m := Least(ids, key);
    var k :| 0 <= k < |s| && s[k] == m;
    assert Before(key, m, s[0]);
  }

  lemma TailIsTheRest(s: seq<nat>, ids: set<nat>, key: map<nat, int>, x: nat)
    requires (forall x :: x in s <==> x in ids) && InOrder(s, key) && s != []
    ensures x in s[1..] <==> x in ids - {s[0]}
  {
    if x in s[1..] {
      var i :| 0 <= i < |s[1..]| && s[1..][i] == x;
      assert s[i + 1] == x && s[0] != s[i + 1];
    }
    if x in ids && x != s[0] {
      var i :| 0 <= i < |s| && s[i] == x;
      assert s[1..][i - 1] == x;
    }
  }

  /** With distinct keys there is only one way to list a set in order. */
  lemma SortedOnlyOneWay(s: seq<nat>, ids: set<nat>, key: map<nat, int>)
    requires ids <= key.Keys && (forall x :: x in s <==> x in ids) && StrictlyBy(s, key)
    ensures SortedBy(ids, key) == s
  {
    OrderedOnlyOneWay(s, ids, key);
  }

  /** And with equal keys as well, since the ids decide. */
  lemma {:induction false} OrderedOnlyOneWay(s: seq<nat>, ids: set<nat>, key: map<nat, int>)
    requires ids <= key.Keys && (forall x :: x in s <==> x in ids) && InOrder(s, key)
    ensures SortedBy(ids, key) == s
  {
    if s == [] {
      assert ids == {};
    } else {
      HeadIsLeast(s, ids, key);
      forall x
        ensures x in s[1..] <==> x in ids - {s[0]}
      {
        TailIsTheRest(s, ids, key, x);
      }
      OrderedOnlyOneWay(s[1..], ids - {s[0]}, key);
    }
  }

  // ----- picking from a list ---------------------------------------------------------------

  /** `picked` is what stands in `all` at the positions `at`, in order. */
  predicate PickedAt<T(==)>(all: seq<T>, picked: seq<T>, at: seq<nat>) {
    && |picked| == |at|
    && (forall k | 0 <= k < |at| :: at[k] < |all| && picked[k] == all[at[k]])
    && (forall i, k | 0 <= i < k < |at| :: at[i] < at[k])
  }

  /** One more element, that is passed over or picked. */
  lemma PickOne<T>(all: seq<T>, picked: seq<T>, at: seq<nat>, x: T)
    requires PickedAt(all, picked, at)
    ensures PickedAt(all + [x], picked, at) && PickedAt(all + [x], picked + [x], at + [|all|])
  {
  }
}
