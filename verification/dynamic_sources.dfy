/** What an accepted message owes the object it was encoded from: one setting of a field for each
    key that names one, in some order of the keys, and nothing for the others. */
module DynamicSources {
  import opened Options
  import opened Decimals
  import opened DynamicCodec
  import opened DynamicFields

  // ------------------------------------------------------------------------
  // Integers
  // ------------------------------------------------------------------------

  predicate IsIntegral(r: real) {
    r.Floor as real == r
  }

  /** The integer that a text spells, of any size. */
  function Spelled(s: string): Option<int> {
    if AllDigits(s) then Some(NatOf(s))
    else if s != [] && s[0] == '-' && AllDigits(s[1..]) then Some(-(NatOf(s[1..]) as int))
    else if s != [] && s[0] == '+' && AllDigits(s[1..]) then Some(NatOf(s[1..]))
    else None
  }

  /** The integer that a float is equal to. */
  function Equal(n: Number): Option<int> {
    if n.Finite? && IsIntegral(n.value) then Some(n.value.Floor) else None
  }

  /** The integer that a dynamic value denotes, whatever its size. */
  function Denoted(fl: Floats, raw: Raw): Option<int> {
    match raw
    case Str(t) => Spelled(t)
    case Json(t) => Spelled(t)
    case Native(_, i) => Some(i)
    case Single(bits) => Equal(fl.ofSingle(bits))
    case Wide(bits) => Equal(fl.ofWide(bits))
    case _ => None
  }

  // ------------------------------------------------------------------------
  // Values
  // ------------------------------------------------------------------------

  /** `v` is what `raw` stands for in a field of the kind. Of floats, only the kind is told. */
  ghost predicate ValueFrom(s: Schema, kind: Kind, raw: Raw, v: Value)
    decreases raw, 4, 1
  {
    KindFits(s, kind) &&
    match kind
    case Bool => raw.Boolean? && v == VBool(raw.b)
    case Text => raw.Str? && v == VText(raw.s)
    case Bytes => v.VBytes? && (raw == Raws(v.bytes) || (raw.Str? && s.base64(raw.s) == Some(v.bytes)))
    case Float => v.VFloat?
    case Double => v.VFloat?
    case Enum(_) =>
      v.VEnum? && (if raw.Str? then TextValue(s, kind, raw.s) else Number(s, raw)) == Some(v)
    case Message(id) => raw.Obj? && v.VMessage? && MessageFrom(s, s.messages[id], raw, v.message)
    case _ => v.VInt? && Denoted(s.floats, raw) == Some(v.i) && InRange(kind, v.i)
  }

  function Number(s: Schema, raw: Raw): Option<Value> {
    if Denoted(s.floats, raw).Some? then Some(VEnum(Denoted(s.floats, raw).value)) else None
  }

  /** The elements of a list, in order, behind those that the field held. */
  ghost predicate ItemsFrom(s: Schema, kind: Kind, start: seq<Value>, raw: Raw, values: seq<Value>)
    requires raw.Arr?
    decreases raw, 5, 1
  {
    && |values| == |start| + |raw.items| && start <= values
    && forall n :: 0 <= n < |raw.items| ==> ValueFrom(s, kind, raw.items[n], values[|start| + n])
  }

  /** The text is a key of the object and stands for `k`. */
  predicate KeyFrom(f: Field, raw: Raw, text: string, k: Key) {
    raw.Obj? && f.shape.MapOf? && text in raw.entries && EncodeKey(f.shape.key, text) == Some(k)
  }

  /** The entries that the texts not in `left` add to those that the field held. Several texts may
      stand for one key; it has the value of one of them. */
  ghost predicate EntriesFrom(s: Schema, f: Field, start: map<Key, Value>, raw: Raw, left: set<string>,
        es: map<Key, Value>)
    requires raw.Obj? && f.shape.MapOf?
    decreases raw, 5, 1
  {
    && (forall k :: k in start ==> k in es)
    && (forall text :: text in raw.entries && text !in left ==>
      EncodeKey(f.shape.key, text).Some? && EncodeKey(f.shape.key, text).value in es)
    && (forall k :: k in es ==> EntryFrom(s, f, start, raw, left, k, es[k]))
  }

  /** The value under `k` is the one that was held, if none of the texts stands for `k`, or else that
      of a text that does. */
  ghost predicate EntryFrom(s: Schema, f: Field, start: map<Key, Value>, raw: Raw, left: set<string>, k: Key, v: Value)
    requires raw.Obj?
    decreases raw, 5, 0
  {
    if forall text :: KeyFrom(f, raw, text, k) ==> text in left then k in start && v == start[k]
    else exists text :: KeyFrom(f, raw, text, k) && text !in left && ValueFrom(s, f.kind, raw.entries[text], v)
  }

  /** What setting the field from `raw` makes of what it held. */
  ghost predicate SlotFrom(s: Schema, f: Field, held: Option<Slot>, raw: Raw, slot: Slot)
    decreases raw, 6, 0
  {
    match f.shape
    case Singular(_) => slot.One? && ValueFrom(s, f.kind, raw, slot.value)
    case Repeated =>
      raw.Arr? && slot.Many? && held.Some? && held.value.Many? &&
      ItemsFrom(s, f.kind, held.value.values, raw, slot.values)
    case MapOf(_) =>
      raw.Obj? && slot.Entries? && held.Some? && held.value.Entries? &&
      EntriesFrom(s, f, held.value.entries, raw, {}, slot.entries)
  }

  // ------------------------------------------------------------------------
  // Messages
  // ------------------------------------------------------------------------

  /** The key names field i and does not hold null. */
  predicate Gives(d: Descriptor, raw: Raw, key: string, i: nat) {
    raw.Obj? && key in raw.entries && raw.entries[key] != Null && i < |d.fields| && Resolve(d, key) == Some(i)
  }

  predicate Told(d: Descriptor, raw: Raw, key: string) {
    Resolve(d, key).Some? && Gives(d, raw, key, Resolve(d, key).value)
  }

  /** What one key makes of a message. */
  ghost predicate KeyStep(s: Schema, d: Descriptor, raw: Raw, key: string, m: Msg, m': Msg)
    decreases raw, 2, 0
  {
    if !Told(d, raw, key) then m' == m
    else
      var i := Resolve(d, key).value;
      i in m'.slots && m' == Set(d, m, i, m'.slots[i]) &&
      SlotFrom(s, d.fields[i], SlotOf(m, i), raw.entries[key], m'.slots[i])
  }

  /** What the keys in this order make of a fresh message. */
  ghost predicate Steps(s: Schema, d: Descriptor, raw: Raw, order: seq<string>, m: Msg)
    decreases raw, 3, |order|
  {
    if order == [] then m == Fresh(d)
    else
      var init, key := order[..|order| - 1], order[|order| - 1];
      exists prior :: Steps(s, d, raw, init, prior) && KeyStep(s, d, raw, key, prior, m)
  }

  ghost predicate IsOrder(order: seq<string>, keys: set<string>) {
    && (forall key :: key in order <==> key in keys)
    && forall a, b :: 0 <= a < b < |order| ==> order[a] != order[b]
  }

  /** The message is what the keys of the object, in some order, make of a fresh one. */
  ghost predicate MessageFrom(s: Schema, d: Descriptor, raw: Raw, m: Msg)
    decreases raw, 4, 0
  {
    raw.Obj? && exists order :: IsOrder(order, raw.entries.Keys) && Steps(s, d, raw, order, m)
  }

  lemma NextStep(s: Schema, d: Descriptor, raw: Raw, order: seq<string>, key: string, m: Msg, m': Msg)
    requires Steps(s, d, raw, order, m) && KeyStep(s, d, raw, key, m, m')
    ensures Steps(s, d, raw, order + [key], m')
  {
    assert (order + [key])[..|order|] == order;
  }

  // ------------------------------------------------------------------------
  // Keys that are passed over
  // ------------------------------------------------------------------------

  /** The object without its nulls and its keys that name no field. */
  function Telling(d: Descriptor, raw: Raw): Raw
    requires raw.Obj?
  {
    Obj(map key | key in raw.entries && Told(d, raw, key) :: raw.entries[key])
  }

  ghost function ToldOf(d: Descriptor, raw: Raw, order: seq<string>): seq<string> {
    if order == [] then []
    else
      var rest, key := ToldOf(d, raw, order[..|order| - 1]), order[|order| - 1];
      if Told(d, raw, key) then rest + [key] else rest
  }

  lemma {:induction false} ToldOfIsOrder(d: Descriptor, raw: Raw, order: seq<string>)
    requires forall a, b :: 0 <= a < b < |order| ==> order[a] != order[b]
    ensures IsOrder(ToldOf(d, raw, order), set key | key in order && Told(d, raw, key))
  {
    if order != [] {
      var init, key := order[..|order| - 1], order[|order| - 1];
      assert order == init + [key];
      ToldOfIsOrder(d, raw, init);
      var rest, r := ToldOf(d, raw, init), ToldOf(d, raw, order);
      assert key !in rest && forall k :: k in order <==> k in init || k == key;
      assert Told(d, raw, key) ==> r == rest + [key] && forall k :: k in r <==> k in rest || k == key;
    }
  }

  lemma {:induction false} StepsWithout(s: Schema, d: Descriptor, raw: Raw, order: seq<string>, m: Msg)
    requires raw.Obj? && Steps(s, d, raw, order, m)
    ensures Steps(s, d, Telling(d, raw), ToldOf(d, raw, order), m)
    decreases |order|
  {
    if order != [] {
      var init, key := order[..|order| - 1], order[|order| - 1];
      var prior :| Steps(s, d, raw, init, prior) && KeyStep(s, d, raw, key, prior, m);
      StepsWithout(s, d, raw, init, prior);
      if Told(d, raw, key) {
        NextStep(s, d, Telling(d, raw), ToldOf(d, raw, init), key, prior, m);
      }
    }
  }

  lemma {:induction false} StepsWith(s: Schema, d: Descriptor, raw: Raw, order: seq<string>, m: Msg)
    requires raw.Obj? && Steps(s, d, Telling(d, raw), order, m) && forall key :: key in order ==> Told(d, raw, key)
    ensures Steps(s, d, raw, order, m)
    decreases |order|
  {
    if order != [] {
      var init, key := order[..|order| - 1], order[|order| - 1];
      var prior :| Steps(s, d, Telling(d, raw), init, prior) && KeyStep(s, d, Telling(d, raw), key, prior, m);
      assert key in order;
      StepsWith(s, d, raw, init, prior);
      NextStep(s, d, raw, init, key, prior, m);
      assert order == init + [key];
    }
  }

  lemma {:induction false} PassedOver(s: Schema, d: Descriptor, raw: Raw, order: seq<string>, m: Msg,
        others: set<string>)
    returns (whole: seq<string>)
    requires Steps(s, d, raw, order, m) && forall key :: key in others ==> !Told(d, raw, key) && key !in order
    requires forall a, b :: 0 <= a < b < |order| ==> order[a] != order[b]
    ensures Steps(s, d, raw, whole, m) && IsOrder(whole, (set key | key in order) + others)
    decreases others
  {
    if others == {} {
      whole := order;
    } else {
      var key :| key in others;
      NextStep(s, d, raw, order, key, m, m);
      whole := PassedOver(s, d, raw, order + [key], m, others - {key});
      assert (set k | k in order + [key]) + (others - {key}) == (set k | k in order) + others;
    }
  }

  /** Unknown keys and nulls change nothing: the messages that an object may become are those of the
      object without them. */
  lemma UnknownAndNullChangeNothing(s: Schema, d: Descriptor, raw: Raw, m: Msg)
    requires raw.Obj?
    ensures MessageFrom(s, d, raw, m) <==> MessageFrom(s, d, Telling(d, raw), m)
  {
    if MessageFrom(s, d, raw, m) {
      var order :| IsOrder(order, raw.entries.Keys) && Steps(s, d, raw, order, m);
      StepsWithout(s, d, raw, order, m);
      ToldOfIsOrder(d, raw, order);
      assert Telling(d, raw).entries.Keys == set key | key in order && Told(d, raw, key);
    }
    if MessageFrom(s, d, Telling(d, raw), m) {
      FromTelling(s, d, raw, m);
    }
  }

  lemma FromTelling(s: Schema, d: Descriptor, raw: Raw, m: Msg)
    requires raw.Obj? && MessageFrom(s, d, Telling(d, raw), m)
    ensures MessageFrom(s, d, raw, m)
  {
    var keys := Telling(d, raw).entries.Keys;
    var order :| IsOrder(order, keys) && Steps(s, d, Telling(d, raw), order, m);
    StepsWith(s, d, raw, order, m);
    var whole := PassedOver(s, d, raw, order, m, raw.entries.Keys - keys);
    assert (set key | key in order) + (raw.entries.Keys - keys) == raw.entries.Keys;
  }

  /** Every key that names a field was accepted: nothing that a field cannot take is passed over. */
  lemma EveryGivenIsTaken(s: Schema, d: Descriptor, raw: Raw, m: Msg, key: string, i: nat)
    requires MessageFrom(s, d, raw, m) && Gives(d, raw, key, i)
    ensures exists held, slot :: SlotFrom(s, d.fields[i], held, raw.entries[key], slot)
  {
    var order :| IsOrder(order, raw.entries.Keys) && Steps(s, d, raw, order, m);
    TakenOnTheWay(s, d, raw, order, m, key, i);
  }

  lemma {:induction false} TakenOnTheWay(s: Schema, d: Descriptor, raw: Raw, order: seq<string>, m: Msg, key: string,
        i: nat)
    requires Steps(s, d, raw, order, m) && key in order && Gives(d, raw, key, i)
    ensures exists held, slot :: SlotFrom(s, d.fields[i], held, raw.entries[key], slot)
    decreases |order|
  {
    var init, last := order[..|order| - 1], order[|order| - 1];
    assert order == init + [last];
    var prior :| Steps(s, d, raw, init, prior) && KeyStep(s, d, raw, last, prior, m);
    if key == last {
      assert SlotFrom(s, d.fields[i], SlotOf(prior, i), raw.entries[key], m.slots[i]);
    } else {
      TakenOnTheWay(s, d, raw, init, prior, key, i);
    }
  }

  // ------------------------------------------------------------------------
  // Singular fields
  // ------------------------------------------------------------------------

  /** A singular field after the keys in `order`: fresh if none of them gave it, or else what one of
      them gave, unless another member of its oneof has replaced it. */
  ghost predicate SingularFrom(s: Schema, d: Descriptor, raw: Raw, order: seq<string>, m: Msg, i: nat)
    requires i < |d.fields|
  {
    var f := d.fields[i];
    if forall key :: key in order ==> !Gives(d, raw, key, i) then SlotOf(m, i) == FreshSlot(f)
    else if i !in m.slots then
      exists key, j: nat ::
        key in order && Gives(d, raw, key, j) && j != i && f.oneof.Some? && d.fields[j].oneof == f.oneof
    else m.slots[i].One? && exists key ::
      key in order && Gives(d, raw, key, i) && ValueFrom(s, f.kind, raw.entries[key], m.slots[i].value)
  }

  lemma {:induction false} SingularAfter(s: Schema, d: Descriptor, raw: Raw, order: seq<string>, m: Msg, i: nat)
    requires Steps(s, d, raw, order, m) && i < |d.fields| && d.fields[i].shape.Singular?
    requires d.fields[i].oneof.Some? ==> FreshSlot(d.fields[i]) == None
    ensures SingularFrom(s, d, raw, order, m, i)
    decreases |order|
  {
    if order != [] {
      var init, key := order[..|order| - 1], order[|order| - 1];
      assert order == init + [key];
      var prior :| Steps(s, d, raw, init, prior) && KeyStep(s, d, raw, key, prior, m);
      SingularAfter(s, d, raw, init, prior, i);
      StepKeepsSingular(s, d, raw, init, key, prior, m, i);
    }
  }

  lemma StepKeepsSingular(s: Schema, d: Descriptor, raw: Raw, order: seq<string>, key: string, m: Msg, m': Msg, i: nat)
    requires i < |d.fields| && d.fields[i].shape.Singular? &&
      (d.fields[i].oneof.Some? ==> FreshSlot(d.fields[i]) == None)
    requires SingularFrom(s, d, raw, order, m, i) && KeyStep(s, d, raw, key, m, m')
    ensures SingularFrom(s, d, raw, order + [key], m', i)
  {
    assert key in order + [key] && forall k :: k in order ==> k in order + [key];
    if Told(d, raw, key) {
      var j := Resolve(d, key).value;
      assert Gives(d, raw, key, j);
      if j != i {
        assert SlotOf(m', i) == SlotOf(m, i) || (SlotOf(m', i) == None && d.fields[i].oneof.Some?
          && d.fields[j].oneof == d.fields[i].oneof);
      }
    }
  }

  /** No integer is truncated: a singular integer field that some key gives holds exactly what one of
      these keys denotes, unless another member of its oneof was given; otherwise it is fresh. */
  lemma IntegersAreExact(s: Schema, d: Descriptor, raw: Raw, m: Msg, i: nat)
    requires WellFormed(s) && d in s.messages && MessageFrom(s, d, raw, m) && i < |d.fields|
    requires d.fields[i].shape.Singular? && d.fields[i].kind in {Int32, Int64, UInt32, UInt64}
    ensures (forall key :: !Gives(d, raw, key, i)) ==> SlotOf(m, i) == FreshSlot(d.fields[i])
    ensures (exists key :: Gives(d, raw, key, i)) && i in m.slots ==>
      exists key, n :: Gives(d, raw, key, i) && Denoted(s.floats, raw.entries[key]) == Some(n) &&
        InRange(d.fields[i].kind, n) && m.slots[i] == One(VInt(n))
    ensures (exists key :: Gives(d, raw, key, i)) && i !in m.slots ==>
      exists key, j: nat :: Gives(d, raw, key, j) && j != i && d.fields[i].oneof.Some? &&
        d.fields[j].oneof == d.fields[i].oneof
  {
    NamesOf(s, d);
    assert FieldFits(s, d, d.fields[i]);
    var order :| IsOrder(order, raw.entries.Keys) && Steps(s, d, raw, order, m);
    SingularAfter(s, d, raw, order, m, i);
    if exists key :: Gives(d, raw, key, i) {
      var key :| Gives(d, raw, key, i);
      assert key in order;
      if i in m.slots {
        var k :| k in order && Gives(d, raw, k, i) && ValueFrom(s, d.fields[i].kind, raw.entries[k], m.slots[i].value);
        assert m.slots[i] == One(VInt(m.slots[i].value.i));
      }
    }
  }
}
