/** Grouping a wave of records (groupKafkaJSRecords, groupConfluentBatchMessagesWithAssignments). */
module RecordGrouping {

  /** The items with key k, in their original order. */
  function Matching<T, K(==)>(items: seq<T>, key: T -> K, k: K): seq<T> {
    if items == [] then []
    else
      var last := items[|items| - 1];
      Matching(items[..|items| - 1], key, k) + (if key(last) == k then [last] else [])
  }

  predicate KeyAt<T, K(==)>(groups: seq<seq<T>>, key: T -> K, g: nat, k: K) {
    g < |groups| && groups[g] != [] && key(groups[g][0]) == k
  }

  ghost predicate HasGroup<T, K>(groups: seq<seq<T>>, key: T -> K, k: K) {
    exists g: nat :: KeyAt(groups, key, g, k)
  }

  /** Each group is everything that shares its first item's key, keys differ between groups, and
      every item has its group. */
  ghost predicate Grouped<T, K(!new)>(items: seq<T>, key: T -> K, groups: seq<seq<T>>) {
    && (forall g :: 0 <= g < |groups| ==> groups[g] != [])
    && (forall g: nat, k :: KeyAt(groups, key, g, k) ==> groups[g] == Matching(items, key, k))
    && (forall g: nat, h: nat, k :: KeyAt(groups, key, g, k) && KeyAt(groups, key, h, k) ==> g == h)
    && (forall x :: x in items ==> HasGroup(groups, key, key(x)))
  }

  lemma {:induction false} MatchingKeys<T, K>(items: seq<T>, key: T -> K, k: K)
    ensures forall x :: x in Matching(items, key, k) ==> key(x) == k && x in items
    ensures Matching(items, key, k) == [] <==> forall i :: 0 <= i < |items| ==> key(items[i]) != k
  {
    if items != [] {
      MatchingKeys(items[..|items| - 1], key, k);
      assert items == items[..|items| - 1] + [items[|items| - 1]];
    }
  }

  lemma {:induction false} MatchingHas<T, K>(items: seq<T>, key: T -> K, k: K, x: T)
    requires x in items && key(x) == k
    ensures x in Matching(items, key, k)
  {
    var front, last := items[..|items| - 1], items[|items| - 1];
    assert items == front + [last];
    if x in front {
      MatchingHas(front, key, k, x);
    }
  }

  lemma MatchingNext<T, K>(items: seq<T>, key: T -> K, i: nat, k: K)
    requires i < |items|
    ensures Matching(items[..i + 1], key, k) == Matching(items[..i], key, k) +
      (if key(items[i]) == k then [items[i]] else [])
  {
    assert items[..i + 1][..i] == items[..i];
  }

  /** The loop's index map: which group holds which key so far. */
  ghost predicate Indexed<T(!new), K(!new)>(items: seq<T>, key: T -> K, groups: seq<seq<T>>, index: map<K, nat>) {
    && (forall k :: k in index ==> KeyAt(groups, key, index[k], k))
    && (forall g: nat, k :: KeyAt(groups, key, g, k) ==> k in index && index[k] == g)
    && (forall k :: k in index ==> groups[index[k]] == Matching(items, key, k))
    && (forall g :: 0 <= g < |groups| ==> groups[g] != [])
    && (forall i :: 0 <= i < |items| ==> key(items[i]) in index)
  }

  method GroupBy<T(!new), K(!new, ==)>(items: seq<T>, key: T -> K) returns (groups: seq<seq<T>>)
    ensures Grouped(items, key, groups)
  {
    var index: map<K, nat> := map[];
    groups := [];
    var i := 0;
    while i < |items|
      invariant 0 <= i <= |items|
      invariant Indexed(items[..i], key, groups, index)
    {
      var k := key(items[i]);
      if k in index {
        NextInGroup(items, key, i, groups, index);
        groups := groups[index[k] := groups[index[k]] + [items[i]]];
      } else {
        NextOpensGroup(items, key, i, groups, index);
        index := index[k := |groups|];
        groups := groups + [[items[i]]];
      }
      i := i + 1;
    }
    assert items[..i] == items;
    forall x | x in items
      ensures HasGroup(groups, key, key(x))
    {
      assert KeyAt(groups, key, index[key(x)], key(x));
    }
  }

  lemma NextInGroup<T(!new), K(!new)>(items: seq<T>, key: T -> K, i: nat, groups: seq<seq<T>>, index: map<K, nat>)
    requires i < |items| && Indexed(items[..i], key, groups, index) && key(items[i]) in index
    ensures var g := index[key(items[i])]; Indexed(items[..i + 1], key, groups[g := groups[g] + [items[i]]], index)
  {
    var k := key(items[i]);
    var groups' := groups[index[k] := groups[index[k]] + [items[i]]];
    assert KeyAt(groups, key, index[k], k);
    forall g: nat, j
      ensures KeyAt(groups', key, g, j) == KeyAt(groups, key, g, j)
    {
      assert g < |groups| ==> groups'[g] != [] && groups[g] != [] && groups'[g][0] == groups[g][0];
    }
    forall j | j in index
      ensures groups'[index[j]] == Matching(items[..i + 1], key, j)
    {
      MatchingNext(items, key, i, j);
      assert KeyAt(groups, key, index[j], j);
    }
    assert items[..i + 1] == items[..i] + [items[i]];
  }

  lemma NextOpensGroup<T(!new), K(!new)>(items: seq<T>, key: T -> K, i: nat, groups: seq<seq<T>>, index: map<K, nat>)
    requires i < |items| && Indexed(items[..i], key, groups, index) && key(items[i]) !in index
    ensures Indexed(items[..i + 1], key, groups + [[items[i]]], index[key(items[i]) := |groups|])
  {
    var k := key(items[i]);
    var index', groups' := index[k := |groups|], groups + [[items[i]]];
    forall g: nat, j
      ensures KeyAt(groups', key, g, j) <==> if g == |groups| then j == k else KeyAt(groups, key, g, j)
    {
      assert g < |groups| ==> groups'[g] == groups[g];
    }
    forall j | j in index'
      ensures groups'[index'[j]] == Matching(items[..i + 1], key, j)
    {
      MatchingNext(items, key, i, j);
      MatchingKeys(items[..i], key, j);
      if j == k {
        assert forall n :: 0 <= n < i ==> key(items[..i][n]) != k;
      } else {
        assert KeyAt(groups, key, index[j], j);
      }
    }
    assert items[..i + 1] == items[..i] + [items[i]];
  }

  /** Grouping keeps the order of records that share a key: a rank that rises between items of
      the key rises within their group. */
  lemma {:induction false} MatchingKeepsOrder<T(!new), K(!new)>(items: seq<T>, key: T -> K, k: K, rank: T -> int)
    requires forall i, j ::
      0 <= i < j < |items| && key(items[i]) == k && key(items[j]) == k ==> rank(items[i]) < rank(items[j])
    ensures var m := Matching(items, key, k); forall i, j :: 0 <= i < j < |m| ==> rank(m[i]) < rank(m[j])
  {
    if items != [] {
      var front, last := items[..|items| - 1], items[|items| - 1];
      MatchingKeepsOrder(front, key, k, rank);
      MatchingKeys(front, key, k);
      if key(last) == k {
        forall x | x in Matching(front, key, k)
          ensures rank(x) < rank(last)
        {
          var i :| 0 <= i < |front| && front[i] == x;
          assert items[i] == x && items[|items| - 1] == last;
        }
      }
    }
  }
}
