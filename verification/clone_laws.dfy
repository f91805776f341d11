/** What a clone made by GraphClone is worth: it is isomorphic to what the value leads to, looks
    the same to every depth, shares nothing with the original and keeps its sharing. */
module CloneLaws {
  import opened Options
  import opened GraphClone

  // ------------------------------------------------------------------------
  // The whole clone
  // ------------------------------------------------------------------------

  /** The references that the value leads to: the least closed set with those in the value. */
  ghost predicate Reached(store: Store, v: Value, r: Ref) {
    forall s: set<Ref> :: ClosedSet(store, s) && RefsOf(v) <= s ==> r in s
  }

  ghost function Reach(store: Store, v: Value, refs: set<Ref>): set<Ref> {
    set r | r in refs && Reached(store, v, r)
  }

  lemma ReachIsClosed(store: Store, v: Value, refs: set<Ref>)
    requires ClosedSet(store, refs) && RefsOf(v) <= refs
    ensures ClosedSet(store, Reach(store, v, refs)) && RefsOf(v) <= Reach(store, v, refs)
  {
    var reach := Reach(store, v, refs);
    forall r, w | r in reach && Leads(store, r, w)
      ensures RefsOf(w) <= reach
    {
      forall q | q in RefsOf(w)
        ensures q in reach
      {
        forall s: set<Ref> | ClosedSet(store, s) && RefsOf(v) <= s
          ensures q in s
        {
          assert Reached(store, v, r);
        }
      }
    }
    forall q | q in RefsOf(v)
      ensures q in reach
    {
      assert Reached(store, v, q);
    }
  }

  /** `w` is a copy of `v`: the reachable references, and no others, are mapped one to one to new
      nodes, and what lies behind each new one is the image of what lies behind the original. */
  ghost predicate IsClone(store: Store, next: nat, store': Store, m: map<Ref, Ref>, v: Value, w: Value) {
    && RefsOf(v) <= m.Keys && w == Image(m, v)
    && ClosedSet(store, m.Keys) && (forall r :: r in m ==> Reached(store, v, r))
    && Agree(store, store', next) && (forall r :: r in m ==> r.addr < next <= m[r].addr && Cloned(store', m, r))
    && Injective(m)
  }

  /** cloneValue without a custom cloner. It ends for every graph, cyclic or shared; it fails exactly
      when an unsupported value is reachable; and in either case the original is as it was. */
  method Clone(store: Store, next: nat, v: Value, ghost refs: set<Ref>)
    returns (r: Result<Value, ()>, store': Store, next': nat, ghost m: map<Ref, Ref>)
    requires ClosedSet(store, refs) && RefsOf(v) <= refs && forall a :: a in store ==> a < next
    ensures Agree(store, store', next)
    ensures r.Ok? <==> Supported(v) && NodesSupported(store, Reach(store, v, refs))
    ensures r.Ok? ==> m.Keys == Reach(store, v, refs) && IsClone(store, next, store', m, v, r.value)
  {
    ReachIsClosed(store, v, refs);
    ghost var reach := Reach(store, v, refs);
    var cloner := new Cloner(store, next);
    BelowNext(store, next, reach);
    r := cloner.CloneValue(v, reach, NodesSupported(store, reach), next);
    store', next', m := cloner.store, cloner.next, cloner.visited;
    if r.Ok? {
      VisitedIsReach(store, next, store', next', m, v, refs);
      assert forall q :: q in m ==> Cloned(store', m, q);
    }
  }

  lemma BelowNext(store: Store, next: nat, refs: set<Ref>)
    requires ClosedSet(store, refs) && forall a :: a in store ==> a < next
    ensures Sound(store, next, map[], {}, refs, NodesSupported(store, refs), next)
  {
  }

  lemma VisitedIsReach(store: Store, next: nat, store': Store, next': nat, m: map<Ref, Ref>, v: Value, refs: set<Ref>)
    requires ClosedSet(store, refs) && RefsOf(v) <= refs && Agree(store, store', next)
    requires Sound(store', next', m, {}, Reach(store, v, refs), NodesSupported(store, Reach(store, v, refs)), next)
    requires RefsOf(v) <= m.Keys
    ensures m.Keys == Reach(store, v, refs) && ClosedSet(store, m.Keys)
    ensures forall r :: r in m ==> Reached(store, v, r)
    ensures NodesSupported(store, m.Keys)
  {
    forall r | r in m
      ensures Holds(store, r) && forall w :: Leads(store, r, w) <==> Leads(store', r, w)
    {
      assert Cloned(store', m, r);
      AgreeBack(store, store', next, r);
    }
    forall r, w | r in m && Leads(store, r, w)
      ensures RefsOf(w) <= m.Keys && Supported(w)
    {
      assert Cloned(store', m, r) && Leads(store', r, w);
    }
    assert ClosedSet(store, m.Keys);
    forall r | r in Reach(store, v, refs)
      ensures r in m
    {
      assert Reached(store, v, r);
    }
  }

  lemma AgreeBack(store: Store, store': Store, next: nat, r: Ref)
    requires Agree(store, store', next) && r.addr < next && Holds(store', r)
    ensures Holds(store, r) && forall w :: Leads(store, r, w) <==> Leads(store', r, w)
  {
  }

  // ------------------------------------------------------------------------
  // What a clone is good for
  // ------------------------------------------------------------------------

  /** What can be seen of a value by following references to a given depth, with addresses
      forgotten. */
  datatype Tree =
    | Cut | Hidden
    | SeenScalar(bits: int)
    | SeenNil(typ: nat)
    | SeenBox(inner: Tree)
    | SeenAggregate(fields: seq<Tree>)
    | SeenPointer(typ: nat, target: Tree)
    | SeenMap(typ: nat, entries: set<(Tree, Tree)>, size: nat)
    | SeenSlice(typ: nat, elems: seq<Tree>)

  ghost function Unfold(store: Store, v: Value, depth: nat): Tree
    decreases depth, 0, v
  {
    match v
    case Scalar(bits) => SeenScalar(bits)
    case NilOf(typ) => SeenNil(typ)
    case Unsupported => Hidden
    case Boxed(inner) => SeenBox(Unfold(store, inner, depth))
    case Aggregate(fields) =>
      SeenAggregate(seq(|fields|, i requires 0 <= i < |fields| => Unfold(store, fields[i], depth)))
    case Reference(r) => (
      if depth == 0 || !Holds(store, r) then Cut
      else match r
        case Pointer(typ, a) => SeenPointer(typ, Unfold(store, store[a].value, depth - 1))
        case MapRef(typ, a) =>
          SeenMap(typ, Pairs(store, store[a].entries, depth - 1), |store[a].entries|)
        case Slice(typ, a, offset, length) =>
          SeenSlice(typ, seq(length, i requires 0 <= i < length =>
            Unfold(store, store[a].elems[offset + i], depth - 1))))
  }

  /** Followed to the given depth, the image of `x` looks like `x`. */
  ghost predicate SameLook(store: Store, store': Store, m: map<Ref, Ref>, x: Value, depth: nat) {
    RefsOf(x) <= m.Keys && Unfold(store', Image(m, x), depth) == Unfold(store, x, depth)
  }

  /** To whatever depth it is followed, the clone looks like the original. */
  lemma {:induction false} CloneLooksTheSame(store: Store, next: nat, store': Store, m: map<Ref, Ref>, v: Value,
        w: Value, x: Value, depth: nat)
    requires IsClone(store, next, store', m, v, w) && RefsOf(x) <= m.Keys
    ensures SameLook(store, store', m, x, depth)
    decreases depth, x
  {
    match x
    case Boxed(inner) =>
      CloneLooksTheSame(store, next, store', m, v, w, inner, depth);
      BoxLooksTheSame(store, store', m, inner, depth);
    case Aggregate(fields) =>
      forall i | 0 <= i < |fields|
        ensures SameLook(store, store', m, fields[i], depth)
      {
        FieldRefs(fields, i);
        CloneLooksTheSame(store, next, store', m, v, w, fields[i], depth);
      }
      FieldsLookTheSame(store, store', m, fields, depth);
    case Reference(r) =>
      if depth > 0 {
        forall y | Leads(store', r, y)
          ensures SameLook(store, store', m, y, depth - 1)
        {
          BehindReached(store, next, store', m, v, w, r, y);
          CloneLooksTheSame(store, next, store', m, v, w, y, depth - 1);
        }
      }
      ReferenceLooksTheSame(store, next, store', m, v, w, r, depth);
    case _ => LeafLooksTheSame(store, store', m, x, depth);
  }

  lemma LeafLooksTheSame(store: Store, store': Store, m: map<Ref, Ref>, x: Value, depth: nat)
    requires x.Scalar? || x.NilOf? || x.Unsupported?
    ensures SameLook(store, store', m, x, depth)
  {
  }

  lemma BoxLooksTheSame(store: Store, store': Store, m: map<Ref, Ref>, inner: Value, depth: nat)
    requires SameLook(store, store', m, inner, depth)
    ensures SameLook(store, store', m, Boxed(inner), depth)
  {
  }

  lemma ReferenceLooksTheSame(store: Store, next: nat, store': Store, m: map<Ref, Ref>, v: Value, w: Value, r: Ref,
        depth: nat)
    requires IsClone(store, next, store', m, v, w) && r in m
    requires depth > 0 ==> forall y :: Leads(store', r, y) ==> SameLook(store, store', m, y, depth - 1)
    ensures SameLook(store, store', m, Reference(r), depth)
  {
    assert Cloned(store', m, r);
    if depth > 0 {
      RefLooksTheSame(store, next, store', m, r, depth);
    }
  }

  lemma FieldsLookTheSame(store: Store, store': Store, m: map<Ref, Ref>, fields: seq<Value>, depth: nat)
    requires RefsOf(Aggregate(fields)) <= m.Keys && forall i ::
      0 <= i < |fields| ==> SameLook(store, store', m, fields[i], depth)
    ensures SameLook(store, store', m, Aggregate(fields), depth)
  {
    var a, b := Unfold(store', Image(m, Aggregate(fields)), depth), Unfold(store, Aggregate(fields), depth);
    forall i | 0 <= i < |fields|
      ensures a.fields[i] == b.fields[i]
    {
      assert SameLook(store, store', m, fields[i], depth);
    }
    assert a.fields == b.fields;
  }

  lemma BehindReached(store: Store, next: nat, store': Store, m: map<Ref, Ref>, v: Value, w: Value, r: Ref, y: Value)
    requires IsClone(store, next, store', m, v, w) && r in m && Leads(store', r, y)
    ensures RefsOf(y) <= m.Keys
  {
    assert Cloned(store', m, r);
  }

  lemma RefLooksTheSame(store: Store, next: nat, store': Store, m: map<Ref, Ref>, r: Ref, depth: nat)
    requires Cloned(store', m, r) && Agree(store, store', next) && r.addr < next && Injective(m) && depth > 0
    requires forall y :: Leads(store', r, y) ==> SameLook(store, store', m, y, depth - 1)
    ensures Unfold(store', Reference(m[r]), depth) == Unfold(store, Reference(r), depth)
  {
    AgreeBack(store, store', next, r);
    assert store[r.addr] == store'[r.addr];
    match r
    case Pointer(_, a) => assert Leads(store', r, store'[a].value);
    case MapRef(_, _) => MapLooksTheSame(store, store', m, r, depth);
    case Slice(_, _, _, _) => SliceLooksTheSame(store, store', m, r, depth);
  }

  lemma SliceLooksTheSame(store: Store, store': Store, m: map<Ref, Ref>, r: Ref, depth: nat)
    requires Cloned(store', m, r) && Holds(store, r) && store[r.addr] == store'[r.addr] && r.Slice? && depth > 0
    requires forall y :: Leads(store', r, y) ==> SameLook(store, store', m, y, depth - 1)
    ensures Unfold(store', Reference(m[r]), depth) == Unfold(store, Reference(r), depth)
  {
    var elems := store[r.addr].elems[r.offset..r.offset + r.length];
    var a, b := Unfold(store', Reference(m[r]), depth), Unfold(store, Reference(r), depth);
    forall i | 0 <= i < r.length
      ensures a.elems[i] == b.elems[i]
    {
      assert elems[i] == store[r.addr].elems[r.offset + i];
      assert Leads(store', r, elems[i]) && SameLook(store, store', m, elems[i], depth - 1);
    }
    assert a.elems == b.elems;
  }

  lemma UnfoldMap(store: Store, r: Ref, depth: nat)
    requires Holds(store, r) && r.MapRef? && depth > 0
    ensures Unfold(store, Reference(r), depth) == SeenMap(r.typ, Pairs(store, store[r.addr].entries, depth - 1),
      |store[r.addr].entries|)
  {
  }

  lemma MapLooksTheSame(store: Store, store': Store, m: map<Ref, Ref>, r: Ref, depth: nat)
    requires Cloned(store', m, r) && Holds(store, r) && store[r.addr] == store'[r.addr] && r.MapRef? && Injective(m) &&
      depth > 0
    requires forall y :: Leads(store', r, y) ==> SameLook(store, store', m, y, depth - 1)
    ensures Unfold(store', Reference(m[r]), depth) == Unfold(store, Reference(r), depth)
  {
    EntriesLookTheSame(store, store', m, r, depth - 1);
    UnfoldMap(store, r, depth);
    UnfoldMap(store', m[r], depth);
  }

  lemma MatchingTables(store: Store, store': Store, m: map<Ref, Ref>, entries: map<Value, Value>,
        image: map<Value, Value>, depth: nat)
    requires EntriesMatch(store, store', m, entries, image, depth) && Injective(m)
    ensures Pairs(store', image, depth) == Pairs(store, entries, depth) && |image| == |entries|
  {
    SameSize(m, entries.Keys, image.Keys);
    SamePairs(store, store', m, entries, image, depth);
  }

  ghost predicate EntriesMatch(store: Store, store': Store, m: map<Ref, Ref>, entries: map<Value, Value>,
        image: map<Value, Value>, depth: nat) {
    && EntryRefs(m, entries) && TableImage(m, entries, entries.Keys, image) && ImageKeys(m, entries.Keys, image.Keys)
    && forall k ::
      k in entries ==> SameLook(store, store', m, k, depth) && SameLook(store, store', m, entries[k], depth)
  }

  lemma EntriesLookTheSame(store: Store, store': Store, m: map<Ref, Ref>, r: Ref, depth: nat)
    requires Cloned(store', m, r) && Holds(store, r) && store[r.addr] == store'[r.addr] && r.MapRef? && Injective(m)
    requires forall y :: Leads(store', r, y) ==> SameLook(store, store', m, y, depth)
    ensures var entries, image := store[r.addr].entries, store'[m[r].addr].entries;
      Pairs(store', image, depth) == Pairs(store, entries, depth) && |image| == |entries|
  {
    var entries, image := store[r.addr].entries, store'[m[r].addr].entries;
    KidsOfTable(store', m, r);
    forall k | k in entries
      ensures SameLook(store, store', m, k, depth) && SameLook(store, store', m, entries[k], depth)
    {
      assert Leads(store', r, k) && Leads(store', r, entries[k]);
    }
    MatchingTables(store, store', m, entries, image, depth);
  }

  ghost function Pair(store: Store, entries: map<Value, Value>, k: Value, depth: nat): (Tree, Tree)
    requires k in entries
    decreases depth, 1
  {
    (Unfold(store, k, depth), Unfold(store, entries[k], depth))
  }

  ghost function Pairs(store: Store, entries: map<Value, Value>, depth: nat): set<(Tree, Tree)>
    decreases depth, 2
  {
    set k | k in entries :: Pair(store, entries, k, depth)
  }

  predicate EntryRefs(m: map<Ref, Ref>, entries: map<Value, Value>) {
    forall k :: k in entries ==> RefsOf(k) <= m.Keys && RefsOf(entries[k]) <= m.Keys
  }

  lemma SamePairs(store: Store, store': Store, m: map<Ref, Ref>, entries: map<Value, Value>, image: map<Value, Value>,
        depth: nat)
    requires forall k ::
      k in entries ==> SameLook(store, store', m, k, depth) && SameLook(store, store', m, entries[k], depth)
    requires EntryRefs(m, entries) && TableImage(m, entries, entries.Keys, image)
    ensures Pairs(store', image, depth) == Pairs(store, entries, depth)
  {
    forall k | k in entries
      ensures Image(m, k) in image
      ensures Pair(store', image, Image(m, k), depth) == Pair(store, entries, k, depth)
    {
    }
    forall p | p in Pairs(store', image, depth)
      ensures p in Pairs(store, entries, depth)
    {
      var k' :| k' in image && p == Pair(store', image, k', depth);
      var k :| k in entries && Image(m, k) == k';
    }
  }

  predicate ImageKeys(m: map<Ref, Ref>, keys: set<Value>, images: set<Value>) {
    && (forall k :: k in keys ==> RefsOf(k) <= m.Keys && Image(m, k) in images)
    && (forall k' :: k' in images ==> exists k :: k in keys && Image(m, k) == k')
  }

  /** Distinct keys have distinct images, so that a map keeps its size. */
  lemma {:induction false} SameSize(m: map<Ref, Ref>, keys: set<Value>, images: set<Value>)
    requires Injective(m) && ImageKeys(m, keys, images)
    ensures |images| == |keys|
    decreases |keys|
  {
    if keys == {} {
      assert images == {};
    } else {
      var k :| k in keys;
      OneKeyLess(m, keys, images, k);
      SameSize(m, keys - {k}, images - {Image(m, k)});
    }
  }

  lemma OneKeyLess(m: map<Ref, Ref>, keys: set<Value>, images: set<Value>, k: Value)
    requires Injective(m) && ImageKeys(m, keys, images) && k in keys
    ensures ImageKeys(m, keys - {k}, images - {Image(m, k)})
  {
    forall q | q in keys - {k}
      ensures Image(m, q) != Image(m, k)
    {
      KeysApart(m, q, k);
    }
  }

  /** The clone and the original share no memory: everything the clone leads to is new. */
  lemma CloneIsSeparate(store: Store, next: nat, store': Store, m: map<Ref, Ref>, v: Value, w: Value)
    requires IsClone(store, next, store', m, v, w)
    ensures ClosedSet(store', m.Values) && RefsOf(w) <= m.Values
    ensures forall c :: c in m.Values ==> c.addr >= next
  {
    ImageRefs(m, v);
    forall c, x | c in m.Values && Leads(store', c, x)
      ensures RefsOf(x) <= m.Values
    {
      var r :| r in m && m[r] == c;
      assert Cloned(store', m, r);
      CloneKids(store', m, r, x);
    }
    forall c | c in m.Values
      ensures Holds(store', c)
    {
      var r :| r in m && m[r] == c;
      assert Cloned(store', m, r);
    }
  }

  lemma CloneKids(store': Store, m: map<Ref, Ref>, r: Ref, x: Value)
    requires Cloned(store', m, r) && Leads(store', m[r], x)
    ensures RefsOf(x) <= m.Values
  {
    match r
    case Pointer(_, a) =>
      assert Leads(store', r, store'[a].value);
      ImageRefs(m, store'[a].value);
    case MapRef(_, a) =>
      var entries, image := store'[a].entries, store'[m[r].addr].entries;
      KidsOfTable(store', m, r);
      var k' :| k' in image && (x == k' || x == image[k']);
      var k :| k in entries && Image(m, k) == k';
      ImageRefs(m, k);
      ImageRefs(m, entries[k]);
    case Slice(_, a, offset, length) =>
      var elems, image := store'[a].elems[offset..offset + length], store'[m[r].addr].elems;
      assert image[0..length] == image;
      var i :| 0 <= i < length && image[i] == x;
      assert elems[i] in Members(elems);
      assert Behind(store', r) == Members(elems);
      assert Leads(store', r, elems[i]);
      ImageRefs(m, elems[i]);
  }

  lemma {:induction false} ImageRefs(m: map<Ref, Ref>, v: Value)
    requires RefsOf(v) <= m.Keys
    ensures RefsOf(Image(m, v)) <= m.Values
  {
    match v
    case Boxed(inner) => ImageRefs(m, inner);
    case Aggregate(fields) =>
      forall i | 0 <= i < |fields|
        ensures RefsOf(Image(m, v).fields[i]) <= m.Values
      {
        FieldRefs(fields, i);
        ImageRefs(m, fields[i]);
      }
    case Reference(r) => assert m[r] in m.Values;
    case _ =>
  }

  /** Sharing is kept and nothing else is: two reachable references lead to the same new node
      exactly when they were the same reference. Slices of one array that overlap without being
      equal are taken apart. */
  lemma SharingIsKept(store: Store, next: nat, store': Store, m: map<Ref, Ref>, v: Value, w: Value, r: Ref, q: Ref)
    requires IsClone(store, next, store', m, v, w) && r in m && q in m
    ensures m[r].addr == m[q].addr <==> r == q
    ensures m[r] == m[q] <==> r == q
    ensures SameShape(r, m[r])
  {
    assert Cloned(store', m, r);
  }

  /** Two slices of one array, one element apart: the clone no longer shares the element. */
  method OverlapIsTakenApart() returns (a: Ref, b: Ref, r: Result<Value, ()>)
    ensures a == Slice(7, 0, 0, 2) && b == Slice(7, 0, 1, 1)
    ensures r.Ok? && exists c, d: Ref :: r.value == Aggregate([Reference(c), Reference(d)]) && c.addr != d.addr
  {
    a, b := Slice(7, 0, 0, 2), Slice(7, 0, 1, 1);
    var store: Store := map[0 := Array([Scalar(1), Scalar(2)])];
    var v := Aggregate([Reference(a), Reference(b)]);
    OverlapIsClosed(store, v, a, b);
    ghost var m;
    var store', next';
    r, store', next', m := Clone(store, 1, v, {a, b});
    OverlapImage(m, v, a, b);
    SharingIsKept(store, 1, store', m, v, r.value, a, b);
  }

  lemma OverlapIsClosed(store: Store, v: Value, a: Ref, b: Ref)
    requires a == Slice(7, 0, 0, 2) && b == Slice(7, 0, 1, 1) && store == map[0 := Array([Scalar(1), Scalar(2)])]
    requires v == Aggregate([Reference(a), Reference(b)])
    ensures RefsOf(v) == {a, b} && Supported(v)
    ensures ClosedSet(store, {a, b}) && NodesSupported(store, {a, b}) && Reach(store, v, {a, b}) == {a, b}
  {
    var fields := [Reference(a), Reference(b)];
    assert a in RefsOf(fields[0]) && b in RefsOf(fields[1]);
    forall w | w in [Scalar(1), Scalar(2)]
      ensures RefsOf(w) == {} && Supported(w)
    {
    }
    assert forall r :: r in {a, b} ==> Behind(store, r) <= Members([Scalar(1), Scalar(2)]);
    assert Reached(store, v, a) && Reached(store, v, b);
  }

  lemma OverlapImage(m: map<Ref, Ref>, v: Value, a: Ref, b: Ref)
    requires v == Aggregate([Reference(a), Reference(b)]) && RefsOf(v) <= m.Keys && a in m && b in m
    ensures Image(m, v) == Aggregate([Reference(m[a]), Reference(m[b])])
  {
    var fields := Image(m, v).fields;
    FieldRefs(v.fields, 0);
    FieldRefs(v.fields, 1);
    assert fields[0] == Image(m, v.fields[0]) && fields[1] == Image(m, v.fields[1]);
    assert Image(m, Reference(a)) == Reference(m[a]) && Image(m, Reference(b)) == Reference(m[b]);
    assert fields == [Reference(m[a]), Reference(m[b])];
  }
}
