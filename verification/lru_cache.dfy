/** The LRU cache of encryption/encryption.go: a doubly linked list, a map and a size counter that
    always represent one recency sequence, most recent first. A character stands for a byte. */
module LruCache {
  import opened Options

  datatype Entry = Entry(key: string, value: string) {
    function Size(): nat {
      |key| + |value|
    }
  }

  // ------------------------------------------------------------------------
  // Recency sequences
  // ------------------------------------------------------------------------

  function Sum(entries: seq<Entry>): nat {
    if entries == [] then 0 else Sum(entries[..|entries| - 1]) + entries[|entries| - 1].Size()
  }

  lemma SumOne(e: Entry)
    ensures Sum([e]) == e.Size()
  {
    assert Sum([e][..0]) == 0;
  }

  lemma {:induction false} SumAppend(a: seq<Entry>, b: seq<Entry>)
    ensures Sum(a + b) == Sum(a) + Sum(b)
  {
    if b == [] {
      assert a + b == a;
    } else {
      assert (a + b)[..|a + b| - 1] == a + b[..|b| - 1];
      SumAppend(a, b[..|b| - 1]);
    }
  }

  predicate DistinctKeys(entries: seq<Entry>) {
    forall i, j :: 0 <= i < j < |entries| ==> entries[i].key != entries[j].key
  }

  function Without(entries: seq<Entry>, key: string): seq<Entry> {
    if entries == [] then []
    else if entries[0].key == key then entries[1..]
    else [entries[0]] + Without(entries[1..], key)
  }

  function Find(entries: seq<Entry>, key: string): Option<string> {
    if entries == [] then None
    else if entries[0].key == key then Some(entries[0].value)
    else Find(entries[1..], key)
  }

  /** A hit moves its entry to the front. */
  function Touched(entries: seq<Entry>, key: string): seq<Entry> {
    match Find(entries, key)
    case None => entries
    case Some(value) => [Entry(key, value)] + Without(entries, key)
  }

  predicate Fits(entries: seq<Entry>, max: int, maxSize: int) {
    |entries| <= max && Sum(entries) <= maxSize
  }

  /** Dropping the least recent entry until both limits are met or nothing is left. */
  function Trim(entries: seq<Entry>, max: int, maxSize: int): seq<Entry> {
    if entries == [] || Fits(entries, max, maxSize) then entries
    else Trim(entries[..|entries| - 1], max, maxSize)
  }

  function Stored(entries: seq<Entry>, key: string, value: string, max: int, maxSize: int): seq<Entry> {
    Trim([Entry(key, value)] + Without(entries, key), max, maxSize)
  }

  lemma {:induction false} FindAt(entries: seq<Entry>, i: nat)
    requires DistinctKeys(entries) && i < |entries|
    ensures Find(entries, entries[i].key) == Some(entries[i].value)
    ensures Without(entries, entries[i].key) == entries[..i] + entries[i + 1..]
  {
    if i > 0 {
      var rest := entries[1..];
      assert entries[0].key != entries[i].key && rest[i - 1] == entries[i];
      assert DistinctKeys(rest) by {
        forall j, k | 0 <= j < k < |rest|
          ensures rest[j].key != rest[k].key
        {
          assert entries[j + 1].key != entries[k + 1].key;
        }
      }
      FindAt(rest, i - 1);
      assert entries[..i] == [entries[0]] + rest[..i - 1];
      assert entries[i + 1..] == rest[i..];
    }
  }

  lemma {:induction false} FindMissing(entries: seq<Entry>, key: string)
    requires forall i :: 0 <= i < |entries| ==> entries[i].key != key
    ensures Find(entries, key) == None && Without(entries, key) == entries
  {
    if entries != [] {
      FindMissing(entries[1..], key);
    }
  }

  /** Trim leaves the longest prefix of the recency sequence that is within both limits. It is
      empty when even the newest entry is too large. */
  lemma {:induction false} TrimIsLongestPrefix(entries: seq<Entry>, max: int, maxSize: int)
    ensures Trim(entries, max, maxSize) <= entries
    ensures Trim(entries, max, maxSize) == [] || Fits(Trim(entries, max, maxSize), max, maxSize)
    ensures forall n :: |Trim(entries, max, maxSize)| < n <= |entries| ==> !Fits(entries[..n], max, maxSize)
  {
    if entries != [] && !Fits(entries, max, maxSize) {
      var front := entries[..|entries| - 1];
      TrimIsLongestPrefix(front, max, maxSize);
      forall n | |Trim(entries, max, maxSize)| < n <= |entries|
        ensures !Fits(entries[..n], max, maxSize)
      {
        if n == |entries| {
          assert entries[..n] == entries;
        } else {
          assert entries[..n] == front[..n];
        }
      }
    }
  }

  /** What a Set leaves: the newest entry is there exactly when it fits on its own; every other key
      that is left keeps its value; and an entry that does not fit takes everything else along. */
  lemma StoredContents(entries: seq<Entry>, key: string, value: string, max: int, maxSize: int)
    requires DistinctKeys(entries)
    ensures var after := Stored(entries, key, value, max, maxSize);
      && (Find(after, key) == if 1 <= max && |key| + |value| <= maxSize then Some(value) else None)
      && (Find(after, key) == None ==> after == [])
      && DistinctKeys(after)
      && forall k :: k != key ==> Find(after, k) == None || Find(after, k) == Find(entries, k)
  {
    var all := [Entry(key, value)] + Without(entries, key);
    var after := Stored(entries, key, value, max, maxSize);
    WithoutKeys(entries, key);
    TrimIsLongestPrefix(all, max, maxSize);
    assert Sum(all[..1]) == all[0].Size() by { assert Sum(all[..1][..0]) == 0; }
    if 1 <= max && |key| + |value| <= maxSize {
      assert Fits(all[..1], max, maxSize);
      assert after[0] == all[0];
    } else {
      NothingFits(all, max, maxSize);
    }
    forall k | k != key
      ensures Find(after, k) == None || Find(after, k) == Find(entries, k)
    {
      assert all[1..] == Without(entries, key);
      assert after == all[..|after|];
      PrefixFinds(all, |after|, k);
    }
  }

  lemma NothingFits(all: seq<Entry>, max: int, maxSize: int)
    requires all != [] && !(1 <= max && all[0].Size() <= maxSize)
    ensures Trim(all, max, maxSize) == []
  {
    TrimIsLongestPrefix(all, max, maxSize);
    if Trim(all, max, maxSize) != [] {
      FirstCounts(Trim(all, max, maxSize));
    }
  }

  lemma {:induction false} FirstCounts(entries: seq<Entry>)
    requires entries != []
    ensures Sum(entries) >= entries[0].Size()
  {
    if |entries| > 1 {
      FirstCounts(entries[..|entries| - 1]);
    }
  }

  lemma WithoutKeys(entries: seq<Entry>, key: string)
    requires DistinctKeys(entries)
    ensures forall v :: DistinctKeys([Entry(key, v)] + Without(entries, key))
    ensures forall k :: k != key ==> Find(Without(entries, key), k) == Find(entries, k)
  {
    if i: nat :| i < |entries| && entries[i].key == key {
      FindAt(entries, i);
      RestKeys(entries, i);
      forall k | k != key
        ensures Find(Without(entries, key), k) == Find(entries, k)
      {
        SkipFinds(entries, i, k);
      }
    } else {
      FindMissing(entries, key);
    }
  }

  lemma RestKeys(entries: seq<Entry>, i: nat)
    requires DistinctKeys(entries) && i < |entries|
    ensures forall v :: DistinctKeys([Entry(entries[i].key, v)] + (entries[..i] + entries[i + 1..]))
  {
    var rest := entries[..i] + entries[i + 1..];
    assert forall j :: 0 <= j < |rest| ==> rest[j] == entries[if j < i then j else j + 1];
  }

  lemma {:induction false} SkipFinds(entries: seq<Entry>, i: nat, k: string)
    requires i < |entries| && entries[i].key != k
    ensures Find(entries[..i] + entries[i + 1..], k) == Find(entries, k)
  {
    if i == 0 {
      assert entries[..i] + entries[i + 1..] == entries[1..];
    } else {
      SkipFinds(entries[1..], i - 1, k);
      assert (entries[..i] + entries[i + 1..])[1..] == entries[1..][..i - 1] + entries[1..][i..];
    }
  }

  lemma {:induction false} PrefixFinds(entries: seq<Entry>, n: nat, k: string)
    requires n <= |entries|
    ensures Find(entries[..n], k) == None || Find(entries[..n], k) == Find(entries, k)
  {
    if n > 0 {
      PrefixFinds(entries[1..], n - 1, k);
      assert entries[..n][1..] == entries[1..][..n - 1];
    }
  }

  // ------------------------------------------------------------------------
  // The linked structure
  // ------------------------------------------------------------------------

  class Node {
    const key: string
    var value: string
    var size: nat
    var prev: Node?
    var next: Node?

    constructor (key: string, value: string, size: nat)
      ensures this.key == key && this.value == value && this.size == size
    {
      this.key, this.value, this.size, prev, next := key, value, size, null, null;
    }
  }

  ghost predicate Apart(nodes: seq<Node>, i: nat, j: nat)
    requires i < |nodes| && j < |nodes|
  {
    nodes[i] != nodes[j]
  }

  ghost predicate Distinct(nodes: seq<Node>) {
    forall i, j :: 0 <= i < j < |nodes| ==> Apart(nodes, i, j)
  }

  /** The nodes are linked in this order, both ways. */
  ghost predicate Linked(nodes: seq<Node>)
    reads nodes`prev, nodes`next
  {
    && Distinct(nodes)
    && forall i :: 0 <= i < |nodes| ==> LinkedAt(nodes, i)
  }

  ghost predicate LinkedAt(nodes: seq<Node>, i: nat)
    requires i < |nodes|
    reads nodes`prev, nodes`next
  {
    && nodes[i].prev == (if i == 0 then null else nodes[i - 1])
    && nodes[i].next == (if i + 1 == |nodes| then null else nodes[i + 1])
  }

  ghost predicate Ends(nodes: seq<Node>, head: Node?, tail: Node?) {
    && head == (if nodes == [] then null else nodes[0])
    && tail == (if nodes == [] then null else nodes[|nodes| - 1])
  }

  /** The nodes hold these entries. */
  ghost predicate Hold(nodes: seq<Node>, entries: seq<Entry>)
    reads nodes`value, nodes`size
  {
    |entries| == |nodes| &&
    forall i :: 0 <= i < |nodes| ==>
      nodes[i].key == entries[i].key && nodes[i].value == entries[i].value && nodes[i].size == entries[i].Size()
  }

  ghost predicate Filed(items: map<string, Node>, n: Node) {
    n.key in items && items[n.key] == n
  }

  ghost predicate Listed(nodes: seq<Node>, items: map<string, Node>, k: string)
    requires k in items
  {
    items[k].key == k && items[k] in nodes
  }

  /** Map and nodes agree. */
  ghost predicate IndexedBy(nodes: seq<Node>, items: map<string, Node>) {
    && (forall i {:trigger Filed(items, nodes[i])} :: 0 <= i < |nodes| ==> Filed(items, nodes[i]))
    && (forall k {:trigger Listed(nodes, items, k)} :: k in items ==> Listed(nodes, items, k))
  }

  lemma OthersApart(nodes: seq<Node>, at: nat)
    requires Distinct(nodes) && at < |nodes|
    ensures forall j :: 0 <= j < |nodes| && j != at ==> nodes[j] != nodes[at]
  {
    forall j | 0 <= j < |nodes| && j != at
      ensures nodes[j] != nodes[at]
    {
      assert if j < at then Apart(nodes, j, at) else Apart(nodes, at, j);
    }
  }

  lemma DistinctWith(node: Node, nodes: seq<Node>)
    requires Distinct(nodes) && node !in nodes
    ensures Distinct([node] + nodes)
  {
    var all := [node] + nodes;
    forall i, j | 0 <= i < j < |all|
      ensures Apart(all, i, j)
    {
      if i == 0 {
        assert all[j] == nodes[j - 1] && nodes[j - 1] in nodes;
      } else {
        assert Apart(nodes, i - 1, j - 1);
      }
    }
  }

  lemma DistinctWithout(nodes: seq<Node>, at: nat)
    requires Distinct(nodes) && at < |nodes|
    ensures Distinct(nodes[..at] + nodes[at + 1..]) && nodes[at] !in nodes[..at] + nodes[at + 1..]
  {
    OthersApart(nodes, at);
    var rest := nodes[..at] + nodes[at + 1..];
    forall i, j | 0 <= i < j < |rest|
      ensures Apart(rest, i, j)
    {
      assert Apart(nodes, if i < at then i else i + 1, if j < at then j else j + 1);
    }
  }

  class Cache {
    const max: int
    const maxSize: int
    var size: int
    var items: map<string, Node>
    var head: Node?
    var tail: Node?
    ghost var nodes: seq<Node>
    ghost var entries: seq<Entry>    // the recency sequence

    constructor (max: int, maxSize: int)
      ensures Valid() && entries == []
      ensures this.max == max && this.maxSize == maxSize
    {
      this.max, this.maxSize, size, items, head, tail := max, maxSize, 0, map[], null, null;
      nodes, entries := [], [];
    }

    method AddToHead(node: Node)
      requires Linked(nodes) && Ends(nodes, head, tail) && node !in nodes
      modifies this`head, this`tail, this`nodes, node`prev, node`next, nodes`prev
      ensures nodes == [node] + old(nodes) && Linked(nodes) && Ends(nodes, head, tail)
    {
      if nodes != [] {
        OthersApart(nodes, 0);
      }
      node.prev := null;
      node.next := head;
      if head != null {
        head.prev := node;
      }
      head := node;
      if tail == null {
        tail := node;
      }
      DistinctWith(node, nodes);
      nodes := [node] + nodes;
      forall i | 0 <= i < |nodes|
        ensures LinkedAt(nodes, i)
      {
        assert i > 0 ==> old(LinkedAt(nodes, i - 1));
      }
    }

    method RemoveNode(node: Node, ghost at: nat)
      requires Linked(nodes) && Ends(nodes, head, tail) && at < |nodes| && nodes[at] == node
      modifies this`head, this`tail, this`nodes, nodes`prev, nodes`next
      ensures nodes == old(nodes)[..at] + old(nodes)[at + 1..] && Linked(nodes) && Ends(nodes, head, tail) &&
        node !in nodes
    {
      OthersApart(nodes, at);
      assert LinkedAt(nodes, at);
      if at > 0 {
        OthersApart(nodes, at - 1);
        assert LinkedAt(nodes, at - 1);
      }
      if at + 1 < |nodes| {
        OthersApart(nodes, at + 1);
        assert LinkedAt(nodes, at + 1);
      }
      if node.prev != null {
        node.prev.next := node.next;
      } else {
        head := node.next;
      }
      if node.next != null {
        node.next.prev := node.prev;
      } else {
        tail := node.prev;
      }
      DistinctWithout(nodes, at);
      nodes := nodes[..at] + nodes[at + 1..];
      forall i | 0 <= i < |nodes|
        ensures LinkedAt(nodes, i)
      {
        assert old(LinkedAt(nodes, if i < at then i else i + 1));
      }
    }

    /** List, map and counter represent one recency sequence. */
    ghost predicate Valid()
      reads this, nodes`prev, nodes`next, nodes`value, nodes`size
    {
      Linked(nodes) && Ends(nodes, head, tail) && IndexedBy(nodes, items) && Hold(nodes, entries) &&
        size == Sum(entries)
    }

    method MoveToHead(node: Node, ghost at: nat)
      requires Linked(nodes) && Ends(nodes, head, tail) && at < |nodes| && nodes[at] == node
      modifies this`head, this`tail, this`nodes, nodes`prev, nodes`next
      ensures nodes == [node] + old(nodes)[..at] + old(nodes)[at + 1..] && Linked(nodes) && Ends(nodes, head, tail)
    {
      if node == head {
        OthersApart(nodes, at);
        assert nodes == [node] + nodes[..at] + nodes[at + 1..];
        return;
      }
      RemoveNode(node, at);
      AddToHead(node);
    }

    /** Moving an entry to the front keeps everything else in order. */
    method Promote(node: Node, ghost at: nat)
      requires Valid() && at < |nodes| && nodes[at] == node
      modifies this`head, this`tail, this`nodes, this`entries, nodes`prev, nodes`next
      ensures Valid() && entries == [old(entries)[at]] + (old(entries)[..at] + old(entries)[at + 1..])
      ensures nodes == [node] + old(nodes)[..at] + old(nodes)[at + 1..]
    {
      IndexMoved(nodes, entries, at, items);
      HoldMoved(nodes, entries, at);
      MoveToHead(node, at);
      entries := [entries[at]] + (entries[..at] + entries[at + 1..]);
    }

    /** A hit returns the stored value and makes its entry the most recent; a miss changes nothing. */
    method Get(key: string) returns (value: Option<string>)
      requires Valid()
      modifies this, nodes
      ensures Valid() && entries == Touched(old(entries), key) && value == Find(old(entries), key)
      ensures forall i :: 0 <= i < |nodes| ==> nodes[i] in old(nodes)
    {
      if key !in items {
        KeyMissing(nodes, entries, items, key);
        return None;
      }
      var node := items[key];
      ghost var at := KeyFound(nodes, entries, items, key);
      SameMembers(nodes, [node] + nodes[..at] + nodes[at + 1..], at);
      Promote(node, at);
      value := Some(node.value);
    }

    method UnlinkTail() returns (node: Node)
      requires Valid() && tail != null
      modifies this`head, this`tail, this`nodes, nodes`prev, nodes`next
      ensures Linked(nodes) && Ends(nodes, head, tail) && nodes == old(nodes)[..|old(nodes)| - 1]
      ensures entries != [] && Hold(nodes, entries[..|entries| - 1])
      ensures IndexedBy(nodes, items - {node.key})
      ensures Sum(entries[..|entries| - 1]) == size - node.size
    {
      node := tail;
      IndexShrinks(nodes, entries, items);
      RemoveNode(node, |nodes| - 1);
      assert nodes == old(nodes)[..|old(nodes)| - 1];
    }

    method EvictTail()
      requires Valid() && tail != null
      modifies this`head, this`tail, this`nodes, this`entries, this`size, this`items, nodes`prev, nodes`next
      ensures Valid() && nodes == old(nodes)[..|old(nodes)| - 1] && entries == old(entries)[..|old(entries)| - 1]
    {
      var node := UnlinkTail();
      size := size - node.size;
      items := items - {node.key};
      entries := entries[..|entries| - 1];
    }

    /** The update branch of Set: the entry takes the new value and size and becomes the most recent. */
    method Replace(node: Node, ghost at: nat, value: string)
      requires Valid() && at < |nodes| && nodes[at] == node
      modifies this`head, this`tail, this`nodes, this`entries, this`size, nodes`prev, nodes`next, node`value, node`size
      ensures Valid() && entries == [Entry(node.key, value)] + (old(entries)[..at] + old(entries)[at + 1..])
      ensures nodes == [node] + old(nodes)[..at] + old(nodes)[at + 1..]
    {
      OthersApart(nodes, at);
      SumReplaced(entries, at, Entry(node.key, value));
      ghost var replaced := entries[at := Entry(node.key, value)];
      size := size - node.size;
      node.value := value;
      node.size := |node.key| + |value|;
      size := size + node.size;
      entries := replaced;
      Promote(node, at);
      assert replaced[..at] == old(entries)[..at] && replaced[at + 1..] == old(entries)[at + 1..];
    }

    /** The insert branch of Set. */
    method Insert(key: string, value: string)
      requires Valid() && key !in items
      modifies this`head, this`tail, this`nodes, this`entries, this`size, this`items, nodes`prev
      ensures Valid() && entries == [Entry(key, value)] + old(entries)
      ensures forall i :: 0 <= i < |nodes| ==> nodes[i] in old(nodes) || fresh(nodes[i])
    {
      var node := new Node(key, value, |key| + |value|);
      Attach(node);
    }

    method Attach(node: Node)
      requires Valid() && node.key !in items && node.size == |node.key| + |node.value|
      modifies this`head, this`tail, this`nodes, this`entries, this`size, this`items, nodes`prev, node`prev, node`next
      ensures Valid() && entries == [Entry(node.key, node.value)] + old(entries) && nodes == [node] + old(nodes)
    {
      ReadyToInsert(nodes, entries, items, node);
      AddToHead(node);
      items := items[node.key := node];
      size := size + node.size;
      entries := [Entry(node.key, node.value)] + entries;
    }

    /** Set: the new entry becomes the most recent, and the longest prefix of the recency sequence
        within both limits is kept. */
    method Set(key: string, value: string)
      requires Valid()
      modifies this, nodes
      ensures Valid() && entries == Stored(old(entries), key, value, max, maxSize)
      ensures forall i :: 0 <= i < |nodes| ==> nodes[i] in old(nodes) || fresh(nodes[i])
    {
      Put(key, value);
      EvictToLimits();
    }

    /** Both branches of Set, before anything is evicted. */
    method Put(key: string, value: string)
      requires Valid()
      modifies this`head, this`tail, this`nodes, this`entries, this`size, this`items, nodes
      ensures Valid() && entries == [Entry(key, value)] + Without(old(entries), key)
      ensures forall i :: 0 <= i < |nodes| ==> nodes[i] in old(nodes) || fresh(nodes[i])
    {
      if key in items {
        var node := items[key];
        ghost var at := KeyFound(nodes, entries, items, key);
        SameMembers(nodes, [node] + nodes[..at] + nodes[at + 1..], at);
        Replace(node, at, value);
      } else {
        KeyMissing(nodes, entries, items, key);
        Insert(key, value);
      }
    }

    method EvictToLimits()
      requires Valid()
      modifies this`head, this`tail, this`nodes, this`entries, this`size, this`items, nodes`prev, nodes`next
      ensures Valid() && entries == Trim(old(entries), max, maxSize)
      ensures nodes <= old(nodes)
    {
      KeysAreDistinct(nodes, entries, items);
      while (|items| > max || size > maxSize) && tail != null
        invariant Valid() && Trim(entries, max, maxSize) == Trim(old(entries), max, maxSize)
        invariant |items| == |entries| && nodes <= old(nodes)
        decreases |nodes|
      {
        EvictTail();
        KeysAreDistinct(nodes, entries, items);
      }
    }
  }

  // ------------------------------------------------------------------------
  // Between nodes and entries
  // ------------------------------------------------------------------------

  ghost predicate SameKeys(nodes: seq<Node>, entries: seq<Entry>) {
    |entries| == |nodes| && forall i :: 0 <= i < |nodes| ==> nodes[i].key == entries[i].key
  }

  lemma KeysAreDistinct(nodes: seq<Node>, entries: seq<Entry>, items: map<string, Node>)
    requires Distinct(nodes) && SameKeys(nodes, entries) && IndexedBy(nodes, items)
    ensures DistinctKeys(entries) && |items| == |entries|
  {
    forall i, j | 0 <= i < j < |nodes|
      ensures entries[i].key != entries[j].key
    {
      assert Filed(items, nodes[i]) && Filed(items, nodes[j]) && Apart(nodes, i, j);
    }
    KeyCount(entries);
    forall k | k in items
      ensures k in KeysOf(entries)
    {
      assert Listed(nodes, items, k);
      var i :| 0 <= i < |nodes| && nodes[i] == items[k];
      assert entries[i].key == k;
    }
    forall k | k in KeysOf(entries)
      ensures k in items
    {
      var i :| 0 <= i < |nodes| && entries[i].key == k;
      assert Filed(items, nodes[i]);
    }
    assert items.Keys == KeysOf(entries);
  }

  lemma KeyMissing(nodes: seq<Node>, entries: seq<Entry>, items: map<string, Node>, key: string)
    requires SameKeys(nodes, entries) && IndexedBy(nodes, items) && key !in items
    ensures Find(entries, key) == None && Without(entries, key) == entries
  {
    forall i | 0 <= i < |nodes|
      ensures entries[i].key != key
    {
      assert Filed(items, nodes[i]);
    }
    FindMissing(entries, key);
  }

  lemma KeyFound(nodes: seq<Node>, entries: seq<Entry>, items: map<string, Node>, key: string) returns (at: nat)
    requires Distinct(nodes) && SameKeys(nodes, entries) && IndexedBy(nodes, items) && key in items
    ensures at < |nodes| && nodes[at] == items[key] && entries[at].key == key
    ensures Find(entries, key) == Some(entries[at].value)
    ensures Without(entries, key) == entries[..at] + entries[at + 1..]
  {
    assert Listed(nodes, items, key);
    at :| 0 <= at < |nodes| && nodes[at] == items[key];
    KeysAreDistinct(nodes, entries, items);
    FindAt(entries, at);
  }

  lemma IndexMoved(nodes: seq<Node>, entries: seq<Entry>, at: nat, items: map<string, Node>)
    requires IndexedBy(nodes, items) && at < |nodes| && |entries| == |nodes|
    ensures var after := [nodes[at]] + nodes[..at] + nodes[at + 1..];
      IndexedBy(after, items) && forall n :: n in after <==> n in nodes
    ensures Sum([entries[at]] + (entries[..at] + entries[at + 1..])) == Sum(entries)
  {
    var after := [nodes[at]] + nodes[..at] + nodes[at + 1..];
    SameMembers(nodes, after, at);
    SumMoved(entries, at);
    forall i | 0 <= i < |after|
      ensures Filed(items, after[i])
    {
      assert Filed(items, nodes[if i == 0 then at else if i <= at then i - 1 else i]);
    }
    forall k | k in items
      ensures Listed(after, items, k)
    {
      assert Listed(nodes, items, k);
    }
  }

  lemma HoldMoved(nodes: seq<Node>, entries: seq<Entry>, at: nat)
    requires Hold(nodes, entries) && at < |nodes|
    ensures Hold([nodes[at]] + nodes[..at] + nodes[at + 1..], [entries[at]] + (entries[..at] + entries[at + 1..]))
  {
  }

  lemma IndexShrinks(nodes: seq<Node>, entries: seq<Entry>, items: map<string, Node>)
    requires Distinct(nodes) && IndexedBy(nodes, items) && SameKeys(nodes, entries) && nodes != []
    ensures var last, rest := nodes[|nodes| - 1], nodes[..|nodes| - 1];
      && IndexedBy(rest, items - {last.key})
      && Sum(entries) == Sum(entries[..|entries| - 1]) + entries[|entries| - 1].Size()
  {
    var last, rest := nodes[|nodes| - 1], nodes[..|nodes| - 1];
    assert Filed(items, nodes[|nodes| - 1]);
    forall i | 0 <= i < |rest|
      ensures Filed(items - {last.key}, rest[i])
    {
      assert Apart(nodes, i, |nodes| - 1) && Filed(items, nodes[i]);
    }
    forall k | k in items - {last.key}
      ensures Listed(rest, items - {last.key}, k)
    {
      StillListed(nodes, items, k);
    }
  }

  lemma StillListed(nodes: seq<Node>, items: map<string, Node>, k: string)
    requires nodes != [] && k in items && Listed(nodes, items, k) && k != nodes[|nodes| - 1].key
    ensures Listed(nodes[..|nodes| - 1], items - {nodes[|nodes| - 1].key}, k)
  {
    var i :| 0 <= i < |nodes| && nodes[i] == items[k];
    assert nodes[..|nodes| - 1][i] == items[k];
  }

  lemma ReadyToInsert(nodes: seq<Node>, entries: seq<Entry>, items: map<string, Node>, node: Node)
    requires IndexedBy(nodes, items) && Hold(nodes, entries) && node.key !in items &&
      node.size == |node.key| + |node.value|
    ensures var e := Entry(node.key, node.value);
      && IndexedBy([node] + nodes, items[node.key := node]) && node !in nodes
      && Hold([node] + nodes, [e] + entries) && Sum([e] + entries) == Sum(entries) + node.size
  {
    IndexGrows(nodes, items, node);
    SumAppend([Entry(node.key, node.value)], entries);
    SumOne(Entry(node.key, node.value));
  }

  lemma IndexGrows(nodes: seq<Node>, items: map<string, Node>, node: Node)
    requires IndexedBy(nodes, items) && node.key !in items
    ensures IndexedBy([node] + nodes, items[node.key := node]) && node !in nodes
  {
    var all, filed := [node] + nodes, items[node.key := node];
    forall i | 0 <= i < |all|
      ensures Filed(filed, all[i])
    {
      if i > 0 {
        assert Filed(items, nodes[i - 1]);
      }
    }
    forall k | k in filed
      ensures Listed(all, filed, k)
    {
      if k != node.key {
        assert Listed(nodes, items, k);
      }
    }
    assert forall i :: 0 <= i < |nodes| ==> Filed(items, nodes[i]);
  }

  lemma SumReplaced(entries: seq<Entry>, at: nat, e: Entry)
    requires at < |entries|
    ensures Sum(entries[at := e]) == Sum(entries) - entries[at].Size() + e.Size()
  {
    assert entries == entries[..at] + [entries[at]] + entries[at + 1..];
    assert entries[at := e] == entries[..at] + [e] + entries[at + 1..];
    SumAppend(entries[..at] + [entries[at]], entries[at + 1..]);
    SumAppend(entries[..at] + [e], entries[at + 1..]);
  }

  lemma SameMembers(before: seq<Node>, after: seq<Node>, at: nat)
    requires at < |before| && after == [before[at]] + before[..at] + before[at + 1..]
    ensures forall n :: n in after <==> n in before
  {
    assert before == before[..at] + [before[at]] + before[at + 1..];
  }

  function KeysOf(entries: seq<Entry>): set<string> {
    set i | 0 <= i < |entries| :: entries[i].key
  }

  lemma KeysAppend(entries: seq<Entry>, e: Entry)
    ensures KeysOf(entries + [e]) == KeysOf(entries) + {e.key}
  {
    forall k | k in KeysOf(entries) + {e.key}
      ensures k in KeysOf(entries + [e])
    {
      if k in KeysOf(entries) {
        var i :| 0 <= i < |entries| && entries[i].key == k;
        assert (entries + [e])[i].key == k;
      } else {
        assert (entries + [e])[|entries|].key == k;
      }
    }
  }

  lemma {:induction false} KeyCount(entries: seq<Entry>)
    requires DistinctKeys(entries)
    ensures |KeysOf(entries)| == |entries|
  {
    if entries != [] {
      var front, last := entries[..|entries| - 1], entries[|entries| - 1];
      KeyCount(front);
      forall i | 0 <= i < |front|
        ensures front[i].key != last.key
      {
        assert entries[i].key != entries[|entries| - 1].key;
      }
      assert entries == front + [last];
      KeysAppend(front, last);
    }
  }

  lemma SumRotated(a: seq<Entry>, b: seq<Entry>, c: seq<Entry>)
    ensures Sum(b + (a + c)) == Sum(a + b + c) == Sum(a) + Sum(b) + Sum(c)
  {
    SumAppend(b, a + c);
    SumAppend(a, c);
    SumAppend(a + b, c);
    SumAppend(a, b);
  }

  lemma SumMoved(entries: seq<Entry>, at: nat)
    requires at < |entries|
    ensures Sum([entries[at]] + (entries[..at] + entries[at + 1..])) == Sum(entries)
  {
    var a, b, c := entries[..at], [entries[at]], entries[at + 1..];
    assert entries == a + b + c;
    SumRotated(a, b, c);
  }
}
