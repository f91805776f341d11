/** Deep cloning of a possibly cyclic value graph (cloneReflectValue of config/schema.go), over an
    explicit store: values hold references, and the store maps addresses to what is kept there. */
module GraphClone {
  import opened Options

  /** A non-nil pointer, map or slice value. It is its own entry in the visited map, whose key is the type, the
      kind, the address and, for a slice, the length; a map's length adds nothing to its address. */
  datatype Ref =
    | Pointer(typ: nat, addr: nat)
    | MapRef(typ: nat, addr: nat)
    | Slice(typ: nat, addr: nat, offset: nat, length: nat)

  datatype Value =
    | Scalar(bits: int)                // also strings, times and everything copied as it is
    | NilOf(typ: nat)
    | Boxed(inner: Value)              // an interface value
    | Aggregate(fields: seq<Value>)    // a struct or an array
    | Reference(ref: Ref)
    | Unsupported                      // a channel, a function, or a struct with unexported fields

  datatype Node = Cell(value: Value) | Table(entries: map<Value, Value>) | Array(elems: seq<Value>)

  type Store = map<nat, Node>

  // ------------------------------------------------------------------------
  // Graphs
  // ------------------------------------------------------------------------

  /** The reference names a node of its kind. */
  predicate Holds(store: Store, r: Ref) {
    r.addr in store &&
    match r
    case Pointer(_, a) => store[a].Cell?
    case MapRef(_, a) => store[a].Table?
    case Slice(_, a, offset, length) => store[a].Array? && offset + length <= |store[a].elems|
  }

  /** The values directly behind a reference. */
  function Behind(store: Store, r: Ref): set<Value>
    requires Holds(store, r)
  {
    match r
    case Pointer(_, a) => {store[a].value}
    case MapRef(_, a) => store[a].entries.Keys + store[a].entries.Values
    case Slice(_, a, offset, length) => Members(store[a].elems[offset..offset + length])
  }

  /** `v` lies directly behind the reference `r`. */
  predicate Leads(store: Store, r: Ref, v: Value) {
    Holds(store, r) && v in Behind(store, r)
  }

  function Members(elems: seq<Value>): set<Value> {
    set v | v in elems
  }

  function RefsOf(v: Value): set<Ref> {
    match v
    case Boxed(inner) => RefsOf(inner)
    case Aggregate(fields) => set i, r | 0 <= i < |fields| && r in RefsOf(fields[i]) :: r
    case Reference(r) => {r}
    case _ => {}
  }

  /** No part of the value, short of what its references lead to, is of an unsupported kind. */
  predicate Supported(v: Value) {
    match v
    case Unsupported => false
    case Boxed(inner) => Supported(inner)
    case Aggregate(fields) => forall i :: 0 <= i < |fields| ==> Supported(fields[i])
    case _ => true
  }

  /** A set of references with everything they lead to. */
  ghost predicate ClosedSet(store: Store, refs: set<Ref>) {
    (forall r :: r in refs ==> Holds(store, r)) && forall r, v :: r in refs && Leads(store, r, v) ==> RefsOf(v) <= refs
  }

  ghost predicate NodesSupported(store: Store, refs: set<Ref>) {
    forall r, v :: r in refs && Leads(store, r, v) ==> Supported(v)
  }

  predicate Agree(a: Store, b: Store, below: nat) {
    forall addr :: 0 <= addr < below ==> (addr in a <==> addr in b) && (addr in a ==> a[addr] == b[addr])
  }

  // ------------------------------------------------------------------------
  // Images
  // ------------------------------------------------------------------------

  /** The value with every reference replaced by its clone. */
  function Image(m: map<Ref, Ref>, v: Value): Value
    requires RefsOf(v) <= m.Keys
  {
    match v
    case Boxed(inner) => Boxed(Image(m, inner))
    case Aggregate(fields) =>
      Aggregate(seq(|fields|, i requires 0 <= i < |fields| => FieldRefs(fields, i); Image(m, fields[i])))
    case Reference(r) => Reference(m[r])
    case _ => v
  }

  lemma FieldRefs(fields: seq<Value>, i: nat)
    requires i < |fields|
    ensures RefsOf(fields[i]) <= RefsOf(Aggregate(fields))
  {
  }

  predicate Extends(m: map<Ref, Ref>, m': map<Ref, Ref>) {
    m.Keys <= m'.Keys && forall r :: r in m ==> m'[r] == m[r]
  }

  lemma {:induction false} ImageStable(m: map<Ref, Ref>, m': map<Ref, Ref>, v: Value)
    requires RefsOf(v) <= m.Keys && Extends(m, m')
    ensures RefsOf(v) <= m'.Keys && Image(m', v) == Image(m, v)
  {
    match v
    case Boxed(inner) => ImageStable(m, m', inner);
    case Aggregate(fields) =>
      forall i | 0 <= i < |fields|
        ensures RefsOf(fields[i]) <= m.Keys && RefsOf(fields[i]) <= m'.Keys &&
          Image(m', fields[i]) == Image(m, fields[i])
      {
        FieldRefs(fields, i);
        ImageStable(m, m', fields[i]);
      }
    case _ =>
  }

  predicate Injective(m: map<Ref, Ref>) {
    forall r, q :: r in m && q in m && r != q ==> m[r].addr != m[q].addr
  }

  lemma {:induction false} ImageInjective(m: map<Ref, Ref>, v: Value, w: Value)
    requires RefsOf(v) <= m.Keys && RefsOf(w) <= m.Keys && Injective(m)
    requires Image(m, v) == Image(m, w)
    ensures v == w
  {
    match v
    case Boxed(inner) => ImageInjective(m, inner, w.inner);
    case Aggregate(fields) =>
      assert |fields| == |Image(m, v).fields| == |w.fields|;
      forall i | 0 <= i < |fields|
        ensures fields[i] == w.fields[i]
      {
        FieldRefs(fields, i);
        FieldRefs(w.fields, i);
        assert Image(m, v).fields[i] == Image(m, fields[i]);
        assert Image(m, w).fields[i] == Image(m, w.fields[i]);
        ImageInjective(m, fields[i], w.fields[i]);
      }
      assert fields == w.fields;
    case _ =>
  }

  /** The clone has the reference's type and, for a slice, its length. */
  predicate SameShape(r: Ref, c: Ref) {
    match r
    case Pointer(typ, _) => c.Pointer? && c.typ == typ
    case MapRef(typ, _) => c.MapRef? && c.typ == typ
    case Slice(typ, _, _, length) => c.Slice? && c.typ == typ && c.length == length && c.offset == 0
  }

  ghost predicate KidsIn(store: Store, m: map<Ref, Ref>, r: Ref) {
    Holds(store, r) && forall v :: Leads(store, r, v) ==> RefsOf(v) <= m.Keys && Supported(v)
  }

  /** Entry by entry, keys and values are cloned. */
  predicate TableImage(m: map<Ref, Ref>, entries: map<Value, Value>, done: set<Value>, image: map<Value, Value>)
    requires done <= entries.Keys && forall k :: k in done ==> RefsOf(k) <= m.Keys && RefsOf(entries[k]) <= m.Keys
  {
    && (forall k :: k in done ==> Image(m, k) in image && image[Image(m, k)] == Image(m, entries[k]))
    && (forall k' :: k' in image ==> exists k :: k in done && Image(m, k) == k')
  }

  predicate SeqImage(m: map<Ref, Ref>, elems: seq<Value>, n: nat, image: seq<Value>)
    requires n <= |elems| && forall i :: 0 <= i < n ==> RefsOf(elems[i]) <= m.Keys
  {
    |image| == |elems| && forall i :: 0 <= i < n ==> image[i] == Image(m, elems[i])
  }

  /** What lies behind the clone of `r` is the image of what lies behind `r`. */
  ghost predicate Cloned(store: Store, m: map<Ref, Ref>, r: Ref) {
    r in m && KidsIn(store, m, r) && Holds(store, m[r]) && SameShape(r, m[r]) &&
    match r
    case Pointer(_, a) => store[m[r].addr].value == Image(m, store[a].value)
    case MapRef(_, a) =>
      KidsOfTable(store, m, r);
      TableImage(m, store[a].entries, store[a].entries.Keys, store[m[r].addr].entries)
    case Slice(_, a, offset, length) =>
      SeqImage(m, store[a].elems[offset..offset + length], length, store[m[r].addr].elems)
  }

  lemma KidsOfTable(store: Store, m: map<Ref, Ref>, r: Ref)
    requires KidsIn(store, m, r) && r.MapRef?
    ensures forall k :: k in store[r.addr].entries ==>
      RefsOf(k) <= m.Keys && RefsOf(store[r.addr].entries[k]) <= m.Keys && Supported(k) &&
        Supported(store[r.addr].entries[k])
  {
    var entries := store[r.addr].entries;
    forall k | k in entries
      ensures Leads(store, r, k) && Leads(store, r, entries[k])
    {
    }
  }

  // ------------------------------------------------------------------------
  // The invariant of the traversal
  // ------------------------------------------------------------------------

  /** Where clones are placed: in new nodes of their own. */
  predicate Placed(store: Store, next: nat, m: map<Ref, Ref>, lo: nat) {
    && (forall r :: r in m ==> lo <= m[r].addr < next && Holds(store, m[r]) && SameShape(r, m[r]))
    && Injective(m)
  }

  /** `refs` is a closed set of the original graph, which lies below `lo`; the references in
      progress have been entered in the visited map and not yet been filled in. */
  ghost predicate Sound(store: Store, next: nat, m: map<Ref, Ref>, open: set<Ref>, refs: set<Ref>, clean: bool,
        lo: nat) {
    && lo <= next
    && ClosedSet(store, refs) && (clean ==> NodesSupported(store, refs)) && (forall r :: r in refs ==> r.addr < lo)
    && open <= m.Keys <= refs
    && Placed(store, next, m, lo)
    && forall r :: r in m && r !in open ==> Cloned(store, m, r)
  }

  lemma BehindAgrees(store: Store, store': Store, below: nat, r: Ref)
    requires Holds(store, r) && r.addr < below && Agree(store, store', below)
    ensures Holds(store', r) && forall v :: Leads(store', r, v) <==> Leads(store, r, v)
  {
  }

  lemma ClosedSetAgrees(store: Store, store': Store, below: nat, refs: set<Ref>)
    requires ClosedSet(store, refs) && (forall r :: r in refs ==> r.addr < below) && Agree(store, store', below)
    ensures ClosedSet(store', refs)
    ensures forall r, v :: r in refs ==> (Leads(store', r, v) <==> Leads(store, r, v))
  {
    forall r | r in refs
      ensures Holds(store', r) && forall v :: Leads(store', r, v) <==> Leads(store, r, v)
    {
      BehindAgrees(store, store', below, r);
    }
  }

  /** A finished clone stays finished while the store is left alone at its address and the original's, and
      the visited map only grows. */
  lemma ClonedStays(store: Store, store': Store, m: map<Ref, Ref>, m': map<Ref, Ref>, r: Ref)
    requires Cloned(store, m, r) && Extends(m, m')
    requires r.addr in store' && store'[r.addr] == store[r.addr]
    requires m[r].addr in store' && store'[m[r].addr] == store[m[r].addr]
    ensures Cloned(store', m', r)
  {
    forall v | Leads(store', r, v)
      ensures Leads(store, r, v) && RefsOf(v) <= m.Keys && RefsOf(v) <= m'.Keys && Image(m', v) == Image(m, v)
    {
      assert Leads(store, r, v);
      ImageStable(m, m', v);
    }
    match r
    case Pointer(_, a) => assert Leads(store', r, store[a].value);
    case MapRef(_, a) =>
      KidsOfTable(store, m, r);
      KidsOfTable(store', m', r);
      TableStays(m, m', store[a].entries, store[a].entries.Keys, store[m[r].addr].entries);
    case Slice(_, a, offset, length) =>
      var elems := store[a].elems[offset..offset + length];
      forall i | 0 <= i < length
        ensures RefsOf(elems[i]) <= m.Keys && RefsOf(elems[i]) <= m'.Keys && Image(m', elems[i]) == Image(m, elems[i])
      {
        assert Leads(store', r, elems[i]);
      }
  }

  lemma TableStays(m: map<Ref, Ref>, m': map<Ref, Ref>, entries: map<Value, Value>, done: set<Value>,
        image: map<Value, Value>)
    requires done <= entries.Keys && forall k :: k in done ==> RefsOf(k) <= m.Keys && RefsOf(entries[k]) <= m.Keys
    requires TableImage(m, entries, done, image) && Extends(m, m')
    ensures forall k :: k in done ==> RefsOf(k) <= m'.Keys && RefsOf(entries[k]) <= m'.Keys
    ensures TableImage(m', entries, done, image)
  {
    forall k | k in done
      ensures Image(m', k) == Image(m, k) && Image(m', entries[k]) == Image(m, entries[k])
    {
      ImageStable(m, m', k);
      ImageStable(m, m', entries[k]);
    }
  }

  /** Where a traversal stands. */
  datatype Stage = Stage(store: Store, next: nat, visited: map<Ref, Ref>)

  /** What the traversal may have done: new nodes, and more visited references. */
  predicate Grown(a: Stage, b: Stage) {
    a.next <= b.next && Agree(a.store, b.store, a.next) && Extends(a.visited, b.visited)
  }

  /** Entering a reference in the visited map, with a blank node for its clone. */
  lemma Opens(store: Store, next: nat, m: map<Ref, Ref>, open: set<Ref>, refs: set<Ref>, clean: bool, lo: nat, r: Ref,
        c: Ref, node: Node)
    requires Sound(store, next, m, open, refs, clean, lo) && r in refs && r !in m
    requires c.addr == next && SameShape(r, c) && Holds(store[next := node], c)
    ensures Sound(store[next := node], next + 1, m[r := c], open + {r}, refs, clean, lo)
  {
    var store', m' := store[next := node], m[r := c];
    ClosedSetAgrees(store, store', lo, refs);
    forall q | q in m' && q !in open + {r}
      ensures Cloned(store', m', q)
    {
      assert Cloned(store, m, q);
      ClonedStays(store, store', m, m', q);
    }
  }

  lemma OpenGrows(a: Stage, refs: set<Ref>, r: Ref, c: Ref, node: Node)
    requires r in refs && r !in a.visited
    ensures Grown(a, Stage(a.store[a.next := node], a.next + 1, a.visited[r := c]))
    ensures |refs - a.visited[r := c].Keys| < |refs - a.visited.Keys|
  {
    VisitShrinks(refs, a.visited, r, a.visited[r := c]);
  }

  /** Filling in a clone in progress disturbs nothing else. */
  lemma Fills(store: Store, next: nat, m: map<Ref, Ref>, open: set<Ref>, refs: set<Ref>, clean: bool, lo: nat, r: Ref,
        node: Node)
    requires Sound(store, next, m, open, refs, clean, lo) && r in open
    requires Holds(store[m[r].addr := node], m[r])
    ensures Sound(store[m[r].addr := node], next, m, open, refs, clean, lo)
    ensures Agree(store, store[m[r].addr := node], m[r].addr)
  {
    var store' := store[m[r].addr := node];
    assert r in m;
    ClosedSetAgrees(store, store', lo, refs);
    forall q | q in m && q !in open
      ensures Cloned(store', m, q)
    {
      assert Cloned(store, m, q);
      ClonedStays(store, store', m, m, q);
    }
  }

  /** A clone in progress is finished once its node is complete. */
  lemma Finishes(store: Store, next: nat, m: map<Ref, Ref>, open: set<Ref>, refs: set<Ref>, clean: bool, lo: nat,
        r: Ref)
    requires Sound(store, next, m, open, refs, clean, lo) && r in open && Cloned(store, m, r)
    ensures Sound(store, next, m, open - {r}, refs, clean, lo)
  {
  }

  // ------------------------------------------------------------------------
  // The traversal
  // ------------------------------------------------------------------------

  lemma GrownOn(a: Stage, b: Stage, c: Stage)
    requires Grown(a, b) && Grown(b, c)
    ensures Grown(a, c)
  {
  }

  /** The first `n` fields of a struct or array are cloned. */
  predicate FieldsCloned(m: map<Ref, Ref>, fields: seq<Value>, n: nat, cloned: seq<Value>) {
    n <= |fields| && |cloned| == n
    && forall j ::
      0 <= j < n ==> Supported(fields[j]) && RefsOf(fields[j]) <= m.Keys && cloned[j] == Image(m, fields[j])
  }

  lemma NextField(m: map<Ref, Ref>, m': map<Ref, Ref>, fields: seq<Value>, n: nat, cloned: seq<Value>, c: Value)
    requires FieldsCloned(m, fields, n, cloned) && Extends(m, m') && n < |fields|
    requires Supported(fields[n]) && RefsOf(fields[n]) <= m'.Keys && c == Image(m', fields[n])
    ensures FieldsCloned(m', fields, n + 1, cloned + [c])
  {
    forall j | 0 <= j < n
      ensures RefsOf(fields[j]) <= m'.Keys && Image(m', fields[j]) == Image(m, fields[j])
    {
      ImageStable(m, m', fields[j]);
    }
  }

  lemma AllFields(m: map<Ref, Ref>, fields: seq<Value>, cloned: seq<Value>)
    requires FieldsCloned(m, fields, |fields|, cloned)
    ensures Supported(Aggregate(fields)) && RefsOf(Aggregate(fields)) <= m.Keys &&
      Image(m, Aggregate(fields)) == Aggregate(cloned)
  {
    assert Image(m, Aggregate(fields)).fields == cloned;
  }

  lemma BehindPointer(store: Store, refs: set<Ref>, ref: Ref)
    requires ClosedSet(store, refs) && ref in refs && ref.Pointer?
    ensures Holds(store, ref) && RefsOf(store[ref.addr].value) <= refs
    ensures NodesSupported(store, refs) ==> Supported(store[ref.addr].value)
  {
    assert Leads(store, ref, store[ref.addr].value);
  }

  lemma SamePointee(store: Store, store': Store, below: nat, ref: Ref)
    requires Agree(store, store', below) && ref.addr < below && ref.addr in store
    ensures ref.addr in store' && store'[ref.addr] == store[ref.addr]
  {
  }

  lemma PointerDone(store: Store, next: nat, m: map<Ref, Ref>, open: set<Ref>, refs: set<Ref>, clean: bool, lo: nat,
        ref: Ref)
    requires Sound(store, next, m, open, refs, clean, lo) && ref in m && ref in open && ref.Pointer? &&
      Holds(store, ref)
    requires var v := store[ref.addr].value; RefsOf(v) <= m.Keys && Supported(v)
    ensures Sound(store[m[ref].addr := Cell(Image(m, store[ref.addr].value))], next, m, open - {ref}, refs, clean, lo)
  {
    var node := Cell(Image(m, store[ref.addr].value));
    var store' := store[m[ref].addr := node];
    Fills(store, next, m, open, refs, clean, lo, ref, node);
    assert ref.addr < lo <= m[ref].addr;
    assert forall v :: Leads(store', ref, v) ==> v == store[ref.addr].value;
    assert Cloned(store', m, ref);
    Finishes(store', next, m, open, refs, clean, lo, ref);
  }

  /** From entering a pointer, through cloning its pointee, to filling it in. */
  lemma PointerEnds(start: Stage, entered: Stage, now: Stage, open: set<Ref>, refs: set<Ref>, clean: bool, lo: nat,
        ref: Ref, result: Ref)
    requires Sound(now.store, now.next, now.visited, open, refs, clean, lo) && ref.addr < entered.next
    requires ref.Pointer? && ref in refs && ref in open && result.addr == start.next
    requires entered.store == start.store[start.next := Cell(NilOf(ref.typ))] &&
      entered.visited == start.visited[ref := result] && ref !in start.visited
    requires Grown(start, entered) && Grown(entered, now)
    requires Holds(entered.store, ref) && RefsOf(entered.store[ref.addr].value) <= now.visited.Keys &&
      Supported(entered.store[ref.addr].value)
    ensures ref in now.visited && now.visited[ref] == result
    ensures var filled := now.store[now.visited[ref].addr := Cell(Image(now.visited, entered.store[ref.addr].value))];
      Sound(filled, now.next, now.visited, open - {ref}, refs, clean, lo) && Grown(start, now.(store := filled))
  {
    GrownOn(start, entered, now);
    SamePointee(entered.store, now.store, entered.next, ref);
    assert ref in entered.visited;
    PointerDone(now.store, now.next, now.visited, open, refs, clean, lo, ref);
    FillGrown(start, now, start.next, Cell(Image(now.visited, entered.store[ref.addr].value)));
  }

  /** The first `i` elements of a slice have been written to the clone at address `a`. */
  predicate ElemsCloned(store: Store, m: map<Ref, Ref>, elems: seq<Value>, i: nat, a: nat) {
    && a in store && store[a].Array? && i <= |elems|
    && (forall j :: 0 <= j < i ==> RefsOf(elems[j]) <= m.Keys && Supported(elems[j]))
    && SeqImage(m, elems, i, store[a].elems)
  }

  lemma NextElem(m: map<Ref, Ref>, m': map<Ref, Ref>, elems: seq<Value>, i: nat, image: seq<Value>, c: Value)
    requires i < |elems| && Extends(m, m') && forall j :: 0 <= j < i ==> RefsOf(elems[j]) <= m.Keys
    requires SeqImage(m, elems, i, image) && RefsOf(elems[i]) <= m'.Keys && c == Image(m', elems[i])
    ensures forall j :: 0 <= j < i + 1 ==> RefsOf(elems[j]) <= m'.Keys
    ensures SeqImage(m', elems, i + 1, image[i := c])
  {
    forall j | 0 <= j < i
      ensures RefsOf(elems[j]) <= m'.Keys && Image(m', elems[j]) == Image(m, elems[j])
    {
      ImageStable(m, m', elems[j]);
    }
  }

  /** One turn of the slice loop: `entered` at its head, `now` after the element was cloned. */
  lemma SliceStep(start: Stage, entered: Stage, now: Stage, open: set<Ref>, refs: set<Ref>, clean: bool, lo: nat,
        ref: Ref, elems: seq<Value>, i: nat)
    requires Sound(now.store, now.next, now.visited, open, refs, clean, lo) && Grown(start, entered) &&
      Grown(entered, now)
    requires start.next < entered.next && ref in entered.visited && entered.visited[ref].addr == start.next &&
      ref in open && ref.Slice?
    requires ElemsCloned(entered.store, entered.visited, elems, i, start.next) && i < |elems| && ref.length == |elems|
    requires RefsOf(elems[i]) <= now.visited.Keys && Supported(elems[i])
    ensures start.next in now.store && now.store[start.next] == entered.store[start.next] && ref in now.visited &&
      now.visited[ref] == entered.visited[ref]
    ensures var elem := Image(now.visited, elems[i]);
      var filled := now.store[start.next := Array(now.store[start.next].elems[i := elem])];
      Sound(filled, now.next, now.visited, open, refs, clean, lo) && Grown(start, now.(store := filled)) &&
        ElemsCloned(filled, now.visited, elems, i + 1, start.next)
  {
    var node := Array(now.store[start.next].elems[i := Image(now.visited, elems[i])]);
    assert start.next in now.store && now.store[start.next] == entered.store[start.next] &&
      now.visited[ref] == entered.visited[ref];
    NextElem(entered.visited, now.visited, elems, i, entered.store[start.next].elems, Image(now.visited, elems[i]));
    assert Holds(now.store, now.visited[ref]) && SameShape(ref, now.visited[ref]);
    Fills(now.store, now.next, now.visited, open, refs, clean, lo, ref, node);
    GrownOn(start, entered, now);
    FillGrown(start, now, start.next, node);
  }

  lemma BehindSlice(store: Store, refs: set<Ref>, ref: Ref)
    requires ClosedSet(store, refs) && ref in refs && ref.Slice?
    ensures Holds(store, ref)
    ensures var elems := store[ref.addr].elems[ref.offset..ref.offset + ref.length];
      forall i :: 0 <= i < |elems| ==> RefsOf(elems[i]) <= refs && (NodesSupported(store, refs) ==> Supported(elems[i]))
  {
    var elems := store[ref.addr].elems[ref.offset..ref.offset + ref.length];
    forall i | 0 <= i < |elems|
      ensures RefsOf(elems[i]) <= refs && (NodesSupported(store, refs) ==> Supported(elems[i]))
    {
      assert Leads(store, ref, elems[i]);
    }
  }

  lemma SliceDone(store: Store, next: nat, m: map<Ref, Ref>, open: set<Ref>, refs: set<Ref>, clean: bool, lo: nat,
        ref: Ref, elems: seq<Value>)
    requires Sound(store, next, m, open, refs, clean, lo) && ref in m && ref in open && ref.Slice? && Holds(store, ref)
    requires elems == store[ref.addr].elems[ref.offset..ref.offset + ref.length]
    requires ElemsCloned(store, m, elems, |elems|, m[ref].addr)
    ensures Sound(store, next, m, open - {ref}, refs, clean, lo)
  {
    assert forall v :: Leads(store, ref, v) ==> exists j :: 0 <= j < |elems| && elems[j] == v;
    assert Cloned(store, m, ref);
    Finishes(store, next, m, open, refs, clean, lo, ref);
  }

  /** The entries under the keys in `done` have been written to the clone at address `a`. */
  predicate EntriesCloned(store: Store, m: map<Ref, Ref>, entries: map<Value, Value>, done: set<Value>, a: nat) {
    && a in store && store[a].Table? && done <= entries.Keys
    && (forall k ::
      k in done ==> RefsOf(k) <= m.Keys && RefsOf(entries[k]) <= m.Keys && Supported(k) && Supported(entries[k]))
    && TableImage(m, entries, done, store[a].entries)
  }

  lemma NextEntry(store: Store, m: map<Ref, Ref>, store': Store, m': map<Ref, Ref>, entries: map<Value, Value>,
        done: set<Value>, a: nat, k: Value)
    requires EntriesCloned(store, m, entries, done, a) && k in entries && k !in done && Extends(m, m') && Injective(m')
    requires RefsOf(k) <= m'.Keys && Supported(k) && RefsOf(entries[k]) <= m'.Keys && Supported(entries[k])
    requires a in store' && store'[a] == Table(store[a].entries[Image(m', k) := Image(m', entries[k])])
    ensures EntriesCloned(store', m', entries, done + {k}, a)
  {
    TableStays(m, m', entries, done, store[a].entries);
    TableGrows(m', entries, done, store[a].entries, k);
  }

  /** One turn of the map loop: `entered` at its head, `now` after key and value were cloned. */
  lemma MapStep(start: Stage, entered: Stage, now: Stage, open: set<Ref>, refs: set<Ref>, clean: bool, lo: nat,
        ref: Ref, entries: map<Value, Value>, done: set<Value>, k: Value)
    requires Sound(now.store, now.next, now.visited, open, refs, clean, lo) && Grown(start, entered) &&
      Grown(entered, now)
    requires start.next < entered.next && ref in entered.visited && entered.visited[ref].addr == start.next &&
      ref in open && ref.MapRef?
    requires EntriesCloned(entered.store, entered.visited, entries, done, start.next) && k in entries && k !in done
    requires RefsOf(k) <= now.visited.Keys && Supported(k) && RefsOf(entries[k]) <= now.visited.Keys &&
      Supported(entries[k])
    ensures start.next in now.store && now.store[start.next] == entered.store[start.next] && ref in now.visited &&
      now.visited[ref] == entered.visited[ref]
    ensures var key, value := Image(now.visited, k), Image(now.visited, entries[k]);
      var filled := now.store[start.next := Table(now.store[start.next].entries[key := value])];
      && Sound(filled, now.next, now.visited, open, refs, clean, lo) && Grown(start, now.(store := filled))
      && EntriesCloned(filled, now.visited, entries, done + {k}, start.next)
  {
    var node := Table(now.store[start.next].entries[Image(now.visited, k) := Image(now.visited, entries[k])]);
    assert start.next in now.store && now.store[start.next] == entered.store[start.next] &&
      now.visited[ref] == entered.visited[ref];
    NextEntry(entered.store, entered.visited, now.store[start.next := node], now.visited, entries, done, start.next, k);
    assert Holds(now.store, now.visited[ref]) && SameShape(ref, now.visited[ref]);
    Fills(now.store, now.next, now.visited, open, refs, clean, lo, ref, node);
    GrownOn(start, entered, now);
    FillGrown(start, now, start.next, node);
  }

  lemma BehindMap(store: Store, refs: set<Ref>, ref: Ref)
    requires ClosedSet(store, refs) && ref in refs && ref.MapRef?
    ensures Holds(store, ref)
    ensures var entries := store[ref.addr].entries;
      forall k :: k in entries ==> EntryWithin(entries, k, refs, NodesSupported(store, refs))
  {
    var entries := store[ref.addr].entries;
    forall k | k in entries
      ensures EntryWithin(entries, k, refs, NodesSupported(store, refs))
    {
      assert Leads(store, ref, k) && Leads(store, ref, entries[k]);
    }
  }

  predicate EntryWithin(entries: map<Value, Value>, k: Value, refs: set<Ref>, clean: bool)
    requires k in entries
  {
    RefsOf(k) <= refs && RefsOf(entries[k]) <= refs && (clean ==> Supported(k) && Supported(entries[k]))
  }

  lemma MapDone(store: Store, next: nat, m: map<Ref, Ref>, open: set<Ref>, refs: set<Ref>, clean: bool, lo: nat,
        ref: Ref, entries: map<Value, Value>)
    requires Sound(store, next, m, open, refs, clean, lo) && ref in m && ref in open && ref.MapRef? && Holds(store, ref)
    requires entries == store[ref.addr].entries
    requires EntriesCloned(store, m, entries, entries.Keys, m[ref].addr)
    ensures Sound(store, next, m, open - {ref}, refs, clean, lo)
  {
    assert forall v :: Leads(store, ref, v) ==> v in entries.Keys || exists k :: k in entries && entries[k] == v;
    assert KidsIn(store, m, ref);
    assert Cloned(store, m, ref);
    Finishes(store, next, m, open, refs, clean, lo, ref);
  }

  /** Each key once. */
  predicate IsOrder(keys: set<Value>, order: seq<Value>) {
    Members(order) == keys && forall i, j :: 0 <= i < j < |order| ==> order[i] != order[j]
  }

  /** The iterator of a Go map promises no particular order. */
  method IterationOrder(keys: set<Value>) returns (order: seq<Value>)
    ensures IsOrder(keys, order)
  {
    order := [];
    var remaining := keys;
    while remaining != {}
      invariant remaining <= keys && Members(order) == keys - remaining
      invariant forall i, j :: 0 <= i < j < |order| ==> order[i] != order[j]
      decreases remaining
    {
      var k :| k in remaining;
      assert k !in Members(order);
      assert Members(order + [k]) == Members(order) + {k};
      order, remaining := order + [k], remaining - {k};
    }
  }

  /** The keys of the first `i` turns; after the last turn, all of them. */
  ghost predicate Passed(keys: set<Value>, order: seq<Value>, i: nat, written: set<Value>) {
    i <= |order| && written == Members(order[..i]) && (i == |order| ==> written == keys)
  }

  lemma NextInOrder(keys: set<Value>, order: seq<Value>, i: nat, written: set<Value>)
    requires IsOrder(keys, order) && i < |order| && Passed(keys, order, i, written)
    ensures order[i] in keys && order[i] !in written
    ensures Passed(keys, order, i + 1, written + {order[i]})
  {
    assert order[i] in Members(order);
    assert order[..i + 1] == order[..i] + [order[i]];
    assert i + 1 == |order| ==> order[..i + 1] == order;
  }

  lemma NothingPassed(keys: set<Value>, order: seq<Value>)
    requires IsOrder(keys, order)
    ensures Passed(keys, order, 0, {})
  {
    assert |order| == 0 ==> Members(order) == {};
  }

  class Cloner {
    var store: Store
    var next: nat
    var visited: map<Ref, Ref>
    ghost var open: set<Ref>

    ghost function Now(): Stage
      reads this
    {
      Stage(store, next, visited)
    }

    constructor (store: Store, next: nat)
      ensures this.store == store && this.next == next && visited == map[] && open == {}
    {
      this.store, this.next, visited, open := store, next, map[], {};
    }

    /** cloneReflectValue. */
    method CloneValue(v: Value, ghost refs: set<Ref>, ghost clean: bool, ghost lo: nat) returns (r: Result<Value, ()>)
      requires Sound(store, next, visited, open, refs, clean, lo) && RefsOf(v) <= refs
      modifies this
      ensures Grown(old(Now()), Now())
      ensures r.Ok? ==> Sound(store, next, visited, open, refs, clean, lo) && open == old(open)
      ensures r.Ok? ==> Supported(v) && RefsOf(v) <= visited.Keys && r.value == Image(visited, v)
      ensures r.Err? ==> !(Supported(v) && clean)
      decreases 2 * |refs - visited.Keys|, v, 1
    {
      match v
      case Scalar(_) => return Ok(v);
      case NilOf(_) => return Ok(v);
      case Unsupported => return Err(());
      case Boxed(inner) =>
        r := CloneValue(inner, refs, clean, lo);
        if r.Ok? {
          r := Ok(Boxed(r.value));
        }
      case Aggregate(fields) =>
        r := CloneFields(fields, refs, clean, lo, v);
      case Reference(ref) =>
        if ref in visited {
          return Ok(Reference(visited[ref]));
        }
        match ref
        case Pointer(_, _) => r := ClonePointer(ref, refs, clean, lo);
        case MapRef(_, _) => r := CloneMap(ref, refs, clean, lo);
        case Slice(_, _, _, _) => r := CloneSlice(ref, refs, clean, lo);
    }

    method CloneFields(fields: seq<Value>, ghost refs: set<Ref>, ghost clean: bool, ghost lo: nat, ghost whole: Value)
      returns (r: Result<Value, ()>)
      requires whole == Aggregate(fields)
      requires Sound(store, next, visited, open, refs, clean, lo) && RefsOf(whole) <= refs
      modifies this
      ensures Grown(old(Now()), Now())
      ensures r.Ok? ==> Sound(store, next, visited, open, refs, clean, lo) && open == old(open)
      ensures r.Ok? ==> Supported(whole) && RefsOf(whole) <= visited.Keys && r.value == Image(visited, whole)
      ensures r.Err? ==> !(Supported(whole) && clean)
      decreases 2 * |refs - visited.Keys|, whole, 0
    {
      var cloned: seq<Value> := [];
      var i := 0;
      while i < |fields|
        invariant i <= |fields|
        invariant Sound(store, next, visited, open, refs, clean, lo) && open == old(open)
        invariant Grown(old(Now()), Now())
        invariant FieldsCloned(visited, fields, i, cloned)
      {
        FieldRefs(fields, i);
        MeasureShrinks(refs, old(visited), visited);
        ghost var start := Now();
        var c := CloneValue(fields[i], refs, clean, lo);
        GrownOn(old(Now()), start, Now());
        if c.Err? {
          return Err(());
        }
        NextField(start.visited, visited, fields, i, cloned, c.value);
        cloned := cloned + [c.value];
        i := i + 1;
      }
      AllFields(visited, fields, cloned);
      r := Ok(Aggregate(cloned));
    }

    /** Allocates the clone of a reference and enters it in the visited map before anything behind
        it is looked at. */
    method Enter(ref: Ref, result: Ref, blank: Node, ghost refs: set<Ref>, ghost clean: bool, ghost lo: nat)
      requires Sound(store, next, visited, open, refs, clean, lo) && ref in refs && ref !in visited
      requires result.addr == next && SameShape(ref, result) && Holds(store[next := blank], result)
      modifies this
      ensures Sound(store, next, visited, open, refs, clean, lo) && open == old(open) + {ref} &&
        open - {ref} == old(open)
      ensures visited == old(visited)[ref := result] && ref !in old(open)
      ensures next == old(next) + 1 && store == old(store)[old(next) := blank]
      ensures Grown(old(Now()), Now())
      ensures |refs - visited.Keys| < |refs - old(visited).Keys|
    {
      Opens(store, next, visited, open, refs, clean, lo, ref, result, blank);
      OpenGrows(Now(), refs, ref, result, blank);
      store, next, visited, open := store[next := blank], next + 1, visited[ref := result], open + {ref};
    }

    method ClonePointer(ref: Ref, ghost refs: set<Ref>, ghost clean: bool, ghost lo: nat) returns (r: Result<Value, ()>)
      requires Sound(store, next, visited, open, refs, clean, lo) && ref in refs && ref !in visited && ref.Pointer?
      modifies this
      ensures Grown(old(Now()), Now())
      ensures r.Ok? ==>
        Sound(store, next, visited, open, refs, clean, lo) && open == old(open) && ref in visited &&
          r.value == Reference(visited[ref])
      ensures r.Err? ==> !clean
      decreases 2 * |refs - visited.Keys|, Reference(ref), 0
    {
      ghost var start := Now();
      var result := Pointer(ref.typ, next);
      Enter(ref, result, Cell(NilOf(ref.typ)), refs, clean, lo);
      BehindPointer(store, refs, ref);
      ghost var entered := Now();
      r := CloneValue(store[ref.addr].value, refs, clean, lo);
      if r.Ok? {
        FinishPointer(ref, result, r.value, refs, clean, lo, start, entered);
        r := Ok(Reference(result));
      } else {
        GrownOn(start, entered, Now());
      }
    }

    /** Writes the cloned value behind a pointer into its clone. */
    method FinishPointer(ref: Ref, result: Ref, v: Value, ghost refs: set<Ref>, ghost clean: bool, ghost lo: nat,
          ghost start: Stage, ghost entered: Stage)
      requires Sound(store, next, visited, open, refs, clean, lo) && ref.addr < entered.next
      requires ref.Pointer? && ref in refs && ref in open && result.addr == start.next
      requires entered.store == start.store[start.next := Cell(NilOf(ref.typ))] &&
        entered.visited == start.visited[ref := result] && ref !in start.visited
      requires Grown(start, entered) && Grown(entered, Now())
      requires Holds(entered.store, ref) && RefsOf(entered.store[ref.addr].value) <= visited.Keys &&
        Supported(entered.store[ref.addr].value)
      requires v == Image(visited, entered.store[ref.addr].value)
      modifies this`store, this`open
      ensures Grown(start, Now())
      ensures Sound(store, next, visited, open, refs, clean, lo) && open == old(open) - {ref}
      ensures ref in visited && visited[ref] == result
    {
      PointerEnds(start, entered, Now(), open, refs, clean, lo, ref, result);
      store, open := store[visited[ref].addr := Cell(v)], open - {ref};
    }

    method CloneSlice(ref: Ref, ghost refs: set<Ref>, ghost clean: bool, ghost lo: nat) returns (r: Result<Value, ()>)
      requires Sound(store, next, visited, open, refs, clean, lo) && ref in refs && ref !in visited && ref.Slice?
      modifies this
      ensures Grown(old(Now()), Now())
      ensures r.Ok? ==>
        Sound(store, next, visited, open, refs, clean, lo) && open == old(open) && ref in visited &&
          r.value == Reference(visited[ref])
      ensures r.Err? ==> !clean
      decreases 2 * |refs - visited.Keys|, Reference(ref), 0
    {
      ghost var start := Now();
      BehindSlice(store, refs, ref);
      var elems := store[ref.addr].elems[ref.offset..ref.offset + ref.length];
      var result := Slice(ref.typ, next, 0, ref.length);
      Enter(ref, result, Array(seq(ref.length, _ => NilOf(0))), refs, clean, lo);
      SamePointee(start.store, store, start.next, ref);
      var done := CloneElems(ref, elems, refs, clean, lo, start);
      if !done {
        return Err(());
      }
      SamePointee(start.store, store, start.next, ref);
      SliceDone(store, next, visited, open, refs, clean, lo, ref, elems);
      Close(ref, refs, clean, lo);
      r := Ok(Reference(result));
    }

    /** Ghost bookkeeping: the clone of a reference is complete. */
    ghost method Close(ref: Ref, refs: set<Ref>, clean: bool, lo: nat)
      requires Sound(store, next, visited, open - {ref}, refs, clean, lo)
      modifies this`open
      ensures open == old(open) - {ref}
      ensures Sound(store, next, visited, open, refs, clean, lo)
    {
      open := open - {ref};
    }

    /** The slice loop. */
    method CloneElems(ref: Ref, elems: seq<Value>, ghost refs: set<Ref>, ghost clean: bool, ghost lo: nat,
          ghost start: Stage)
      returns (done: bool)
      requires Sound(store, next, visited, open, refs, clean, lo) && Grown(start, Now())
      requires ref in visited && visited[ref].addr == start.next < next && ref in open && ref.Slice? &&
        ref.length == |elems|
      requires ElemsCloned(store, visited, elems, 0, start.next)
      requires forall i :: 0 <= i < |elems| ==> RefsOf(elems[i]) <= refs && (clean ==> Supported(elems[i]))
      modifies this
      ensures Grown(start, Now())
      ensures done ==> Sound(store, next, visited, open, refs, clean, lo) && open == old(open)
      ensures done ==>
        ref in visited && visited[ref] == old(visited[ref]) && ElemsCloned(store, visited, elems, |elems|, start.next)
      ensures !done ==> !clean
      decreases 2 * |refs - visited.Keys|, Aggregate(elems), 0
    {
      ghost var visits := visited;
      var i := 0;
      done := true;
      while i < |elems| && done
        invariant 0 <= i <= |elems|
        invariant Grown(start, Now())
        invariant done ==> Sound(store, next, visited, open, refs, clean, lo) && open == old(open) && start.next < next
        invariant done ==>
          visits.Keys <= visited.Keys && visited[ref] == visits[ref] &&
            ElemsCloned(store, visited, elems, i, start.next)
        invariant !done ==> !clean
        decreases |elems| - i, done
      {
        MeasureShrinks(refs, visits, visited);
        done := CloneElem(ref, elems, i, refs, clean, lo, start);
        i := if done then i + 1 else i;
      }
    }

    /** One turn of the slice loop. */
    method CloneElem(ref: Ref, elems: seq<Value>, i: nat, ghost refs: set<Ref>, ghost clean: bool, ghost lo: nat,
          ghost start: Stage)
      returns (done: bool)
      requires Sound(store, next, visited, open, refs, clean, lo) && Grown(start, Now())
      requires ref in visited && visited[ref].addr == start.next < next && ref in open && ref.Slice? &&
        ref.length == |elems|
      requires i < |elems| && ElemsCloned(store, visited, elems, i, start.next)
      requires RefsOf(elems[i]) <= refs && (clean ==> Supported(elems[i]))
      modifies this
      ensures Grown(start, Now())
      ensures old(visited).Keys <= visited.Keys && old(next) <= next
      ensures done ==> Sound(store, next, visited, open, refs, clean, lo) && open == old(open)
      ensures done ==> visited[ref] == old(visited[ref]) && ElemsCloned(store, visited, elems, i + 1, start.next)
      ensures !done ==> !clean
      decreases 2 * |refs - visited.Keys|, elems[i], 2
    {
      ghost var entered := Now();
      var c := CloneValue(elems[i], refs, clean, lo);
      if c.Err? {
        GrownOn(start, entered, Now());
        return false;
      }
      SliceStep(start, entered, Now(), open, refs, clean, lo, ref, elems, i);
      Write(ref, Array(store[visited[ref].addr].elems[i := c.value]), refs, clean, lo);
      done := true;
    }

    method CloneMap(ref: Ref, ghost refs: set<Ref>, ghost clean: bool, ghost lo: nat) returns (r: Result<Value, ()>)
      requires Sound(store, next, visited, open, refs, clean, lo) && ref in refs && ref !in visited && ref.MapRef?
      modifies this
      ensures Grown(old(Now()), Now())
      ensures r.Ok? ==>
        Sound(store, next, visited, open, refs, clean, lo) && open == old(open) && ref in visited &&
          r.value == Reference(visited[ref])
      ensures r.Err? ==> !clean
      decreases 2 * |refs - visited.Keys|, Reference(ref), 0
    {
      ghost var start := Now();
      BehindMap(store, refs, ref);
      var entries := store[ref.addr].entries;
      var result := MapRef(ref.typ, next);
      Enter(ref, result, Table(map[]), refs, clean, lo);
      SamePointee(start.store, store, start.next, ref);
      var order := IterationOrder(entries.Keys);
      var done := CloneEntries(ref, entries, order, refs, clean, lo, start);
      if !done {
        return Err(());
      }
      SamePointee(start.store, store, start.next, ref);
      MapDone(store, next, visited, open, refs, clean, lo, ref, entries);
      Close(ref, refs, clean, lo);
      r := Ok(Reference(result));
    }

    /** The map loop, in whatever order the iterator yields the entries. */
    method CloneEntries(ref: Ref, entries: map<Value, Value>, order: seq<Value>, ghost refs: set<Ref>,
          ghost clean: bool, ghost lo: nat, ghost start: Stage)
      returns (done: bool)
      requires Sound(store, next, visited, open, refs, clean, lo) && Grown(start, Now())
      requires ref in visited && visited[ref].addr == start.next < next && ref in open && ref.MapRef?
      requires EntriesCloned(store, visited, entries, {}, start.next) && IsOrder(entries.Keys, order)
      requires forall k :: k in entries ==> EntryWithin(entries, k, refs, clean)
      modifies this
      ensures Grown(start, Now())
      ensures done ==> Sound(store, next, visited, open, refs, clean, lo) && open == old(open)
      ensures done ==>
        ref in visited && visited[ref] == old(visited[ref]) &&
          EntriesCloned(store, visited, entries, entries.Keys, start.next)
      ensures !done ==> !clean
      decreases 2 * |refs - visited.Keys| + 1, NilOf(0), 2
    {
      ghost var visits, written: set<Value> := visited, {};
      NothingPassed(entries.Keys, order);
      var i := 0;
      done := true;
      while i < |order| && done
        invariant 0 <= i <= |order|
        invariant Grown(start, Now())
        invariant done ==> Sound(store, next, visited, open, refs, clean, lo) && open == old(open) && start.next < next
        invariant done ==> visits.Keys <= visited.Keys && visited[ref] == visits[ref]
        invariant done ==> EntriesCloned(store, visited, entries, written, start.next)
        invariant done ==> Passed(entries.Keys, order, i, written)
        invariant !done ==> !clean
        decreases |order| - i, done
      {
        MeasureShrinks(refs, visits, visited);
        NextInOrder(entries.Keys, order, i, written);
        done := CloneEntry(ref, entries, written, order[i], refs, clean, lo, start);
        i, written := if done then i + 1 else i, if done then written + {order[i]} else written;
      }
    }

    /** One turn of the map loop. */
    method CloneEntry(ref: Ref, entries: map<Value, Value>, ghost written: set<Value>, k: Value, ghost refs: set<Ref>,
          ghost clean: bool, ghost lo: nat, ghost start: Stage)
      returns (done: bool)
      requires Sound(store, next, visited, open, refs, clean, lo) && Grown(start, Now())
      requires ref in visited && visited[ref].addr == start.next < next && ref in open && ref.MapRef?
      requires EntriesCloned(store, visited, entries, written, start.next) && k in entries && k !in written
      requires EntryWithin(entries, k, refs, clean)
      modifies this
      ensures Grown(start, Now())
      ensures old(visited).Keys <= visited.Keys && old(next) <= next
      ensures done ==> Sound(store, next, visited, open, refs, clean, lo) && open == old(open)
      ensures done ==>
        visited[ref] == old(visited[ref]) && EntriesCloned(store, visited, entries, written + {k}, start.next)
      ensures !done ==> !clean
      decreases 2 * |refs - visited.Keys| + 1, NilOf(0), 1
    {
      ghost var entered := Now();
      var pair := CloneKeyAndValue(k, entries[k], refs, clean, lo);
      if pair.Err? {
        GrownOn(start, entered, Now());
        return false;
      }
      MapStep(start, entered, Now(), open, refs, clean, lo, ref, entries, written, k);
      Write(ref, Table(store[visited[ref].addr].entries[pair.value.0 := pair.value.1]), refs, clean, lo);
      done := true;
    }

    method CloneKeyAndValue(k: Value, v: Value, ghost refs: set<Ref>, ghost clean: bool, ghost lo: nat)
      returns (r: Result<(Value, Value), ()>)
      requires Sound(store, next, visited, open, refs, clean, lo) && RefsOf(k) <= refs && RefsOf(v) <= refs
      requires clean ==> Supported(k) && Supported(v)
      modifies this
      ensures Grown(old(Now()), Now())
      ensures r.Ok? ==> Sound(store, next, visited, open, refs, clean, lo) && open == old(open)
      ensures r.Ok? ==> Supported(k) && RefsOf(k) <= visited.Keys && r.value.0 == Image(visited, k)
      ensures r.Ok? ==> Supported(v) && RefsOf(v) <= visited.Keys && r.value.1 == Image(visited, v)
      ensures r.Err? ==> !clean
      decreases 2 * |refs - visited.Keys| + 1, NilOf(0), 0
    {
      ghost var start := Now();
      var key := CloneValue(k, refs, clean, lo);
      if key.Err? {
        return Err(());
      }
      ghost var entered := Now();
      MeasureShrinks(refs, start.visited, visited);
      var entry := CloneValue(v, refs, clean, lo);
      GrownOn(start, entered, Now());
      if entry.Err? {
        return Err(());
      }
      ImageStable(entered.visited, visited, k);
      r := Ok((key.value, entry.value));
    }

    /** Writes to the clone of a reference that is still in progress. */
    method Write(ref: Ref, node: Node, ghost refs: set<Ref>, ghost clean: bool, ghost lo: nat)
      requires ref in visited && ref in open
      requires Sound(store[visited[ref].addr := node], next, visited, open, refs, clean, lo)
      modifies this`store
      ensures store == old(store)[visited[ref].addr := node]
      ensures Sound(store, next, visited, open, refs, clean, lo)
    {
      store := store[visited[ref].addr := node];
    }
  }

  lemma FillGrown(a: Stage, b: Stage, addr: nat, node: Node)
    requires Grown(a, b) && a.next <= addr
    ensures Grown(a, b.(store := b.store[addr := node]))
  {
  }

  lemma VisitShrinks(refs: set<Ref>, m: map<Ref, Ref>, r: Ref, m': map<Ref, Ref>)
    requires r in refs && r !in m && r in m' && m.Keys <= m'.Keys
    ensures |refs - m'.Keys| < |refs - m.Keys|
  {
    var left, left' := refs - m.Keys, refs - m'.Keys;
    assert r in left && r !in left';
    SubsetCount(left', left - {r});
    assert |left - {r}| == |left| - 1;
  }

  /** One more entry of a map clone: distinct keys have distinct images, so that nothing is overwritten. */
  lemma TableGrows(m: map<Ref, Ref>, entries: map<Value, Value>, done: set<Value>, image: map<Value, Value>, k: Value)
    requires done <= entries.Keys && forall q :: q in done ==> RefsOf(q) <= m.Keys && RefsOf(entries[q]) <= m.Keys
    requires TableImage(m, entries, done, image) && Injective(m)
    requires k in entries && k !in done && RefsOf(k) <= m.Keys && RefsOf(entries[k]) <= m.Keys
    ensures TableImage(m, entries, done + {k}, image[Image(m, k) := Image(m, entries[k])])
  {
    var image' := image[Image(m, k) := Image(m, entries[k])];
    forall q | q in done
      ensures Image(m, q) != Image(m, k)
    {
      KeysApart(m, q, k);
    }
    forall k' | k' in image'
      ensures exists q :: q in done + {k} && Image(m, q) == k'
    {
      if k' != Image(m, k) {
        var q :| q in done && Image(m, q) == k';
        assert q in done + {k};
      } else {
        assert k in done + {k};
      }
    }
  }

  lemma KeysApart(m: map<Ref, Ref>, v: Value, w: Value)
    requires RefsOf(v) <= m.Keys && RefsOf(w) <= m.Keys && Injective(m) && v != w
    ensures Image(m, v) != Image(m, w)
  {
    if Image(m, v) == Image(m, w) {
      ImageInjective(m, v, w);
    }
  }

  lemma MeasureShrinks(refs: set<Ref>, m: map<Ref, Ref>, m': map<Ref, Ref>)
    requires m.Keys <= m'.Keys
    ensures |refs - m'.Keys| <= |refs - m.Keys|
  {
    SubsetCount(refs - m'.Keys, refs - m.Keys);
  }

  lemma {:induction false} SubsetCount<T>(a: set<T>, b: set<T>)
    requires a <= b
    ensures |a| <= |b|
  {
    if a != {} {
      var x :| x in a;
      SubsetCount(a - {x}, b - {x});
    }
  }
}
