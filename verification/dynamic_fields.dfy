/** Fields, names and keys for the encoding half of grpc/dynamic_codec.go, and the schemas whose
    messages survive decoding and encoding: those in which no oneof that can be set is named like
    the JSON name of a field. */
module DynamicFields {
  import opened Options
  import opened Decimals
  import opened DynamicCodec

  // ------------------------------------------------------------------------
  // Enums and keys
  // ------------------------------------------------------------------------

  function NumberNamed(values: seq<EnumValue>, name: string): Option<int> {
    if values == [] then None
    else if values[0].name == name then Some(values[0].number)
    else NumberNamed(values[1..], name)
  }

  lemma {:induction false} NamedEnum(values: seq<EnumValue>, n: int)
    requires forall i, j :: 0 <= i < j < |values| ==> values[i].name != values[j].name
    requires forall i :: 0 <= i < |values| ==> IsIdentifier(values[i].name)
    ensures NumberNamed(values, EnumText(values, n)) == Some(n) ||
      (NumberNamed(values, EnumText(values, n)) == None && EnumText(values, n) == FormatInt(n))
    ensures EnumText(values, n) == FormatInt(n) || exists i ::
      0 <= i < |values| && values[i].name == EnumText(values, n)
  {
    if values == [] {
    } else if values[0].number != n {
      var rest := values[1..];
      assert forall i :: 0 <= i < |rest| ==> rest[i] == values[i + 1];
      NamedEnum(rest, n);
      FormatIsNoIdentifier(n);
    }
  }

  lemma {:induction false} NamedInRange(values: seq<EnumValue>, name: string)
    requires forall i :: 0 <= i < |values| ==> MIN_INT32 <= values[i].number <= MAX_INT32
    ensures NumberNamed(values, name).Some? ==> MIN_INT32 <= NumberNamed(values, name).value <= MAX_INT32
  {
    if values != [] {
      NamedInRange(values[1..], name);
    }
  }

  lemma FormatIsNoIdentifier(n: int)
    ensures !IsIdentifier(FormatInt(n))
  {
    NatRoundTrip(if n < 0 then -n else n);
    assert n >= 0 ==> IsDigit(FormatInt(n)[0]);
  }

  /** encodeDynamicMapKey. */
  function EncodeKey(kind: Kind, text: string): Option<Key> {
    match kind
    case Text => Some(TextKey(text))
    case Bool =>
      if text in {"1", "t", "T", "true", "TRUE", "True"} then Some(BoolKey(true))
      else if text in {"0", "f", "F", "false", "FALSE", "False"} then Some(BoolKey(false))
      else None
    case Int32 =>
      if ParseInt(text).Some? && InRange(Int32, ParseInt(text).value) then Some(IntKey(ParseInt(text).value)) else None
    case Int64 => if ParseInt(text).Some? then Some(IntKey(ParseInt(text).value)) else None
    case UInt32 =>
      if ParseUint(text).Some? && InRange(UInt32, ParseUint(text).value) then Some(IntKey(ParseUint(text).value))
        else None
    case UInt64 => if ParseUint(text).Some? then Some(IntKey(ParseUint(text).value)) else None
    case _ => None
  }

  lemma KeyRoundTrip(kind: Kind, k: Key)
    requires KeyFits(kind, k)
    ensures EncodeKey(kind, KeyText(k)) == Some(k)
  {
    match k
    case IntKey(i) =>
      if kind == Int32 || kind == Int64 {
        IntRoundTrip(i);
      } else {
        UintRoundTrip(i);
      }
    case _ =>
  }

  lemma EncodedKeyFits(kind: Kind, text: string)
    ensures EncodeKey(kind, text).Some? ==> KeyFits(kind, EncodeKey(kind, text).value)
  {
  }

  // ------------------------------------------------------------------------
  // Slots
  // ------------------------------------------------------------------------

  function SlotOf(m: Msg, i: nat): Option<Slot> {
    if i in m.slots then Some(m.slots[i]) else None
  }

  predicate KindFits(s: Schema, kind: Kind) {
    (kind.Enum? ==> kind.id < |s.enums|) && (kind.Message? ==> kind.id < |s.messages|)
  }

  /** The slot of a fresh message, if it has one. */
  function FreshSlot(f: Field): Option<Slot> {
    match f.shape
    case Repeated => Some(Many([]))
    case MapOf(_) => Some(Entries(map[]))
    case Singular(presence) => if presence then None else Some(One(Default(f.kind)))
  }

  function Default(kind: Kind): Value {
    match kind
    case Bool => VBool(false)
    case Float => VFloat(0)
    case Double => VFloat(0)
    case Text => VText("")
    case Bytes => VBytes([])
    case Enum(_) => VEnum(0)
    case Message(_) => VMessage(Msg(map[]))
    case _ => VInt(0)
  }

  function Fresh(d: Descriptor): Msg {
    Msg(map i: nat | i < |d.fields| && FreshSlot(d.fields[i]).Some? :: FreshSlot(d.fields[i]).value)
  }

  lemma FreshSlotFits(s: Schema, d: Descriptor, f: Field)
    requires FieldFits(s, d, f) && FreshSlot(f).Some?
    ensures SlotFits(s, f, FreshSlot(f).value) && f.oneof == None
  {
  }

  lemma FreshFits(s: Schema, d: Descriptor)
    requires WellFormed(s) && d in s.messages
    ensures MessageFits(s, d, Fresh(d))
    ensures forall k :: k in Fresh(d).slots ==> k < |d.fields| && d.fields[k].oneof == None
  {
    NamesOf(s, d);
    forall k | k in Fresh(d).slots
      ensures SlotFits(s, d.fields[k], Fresh(d).slots[k]) && d.fields[k].oneof == None
    {
      FreshSlotFits(s, d, d.fields[k]);
    }
  }

  /** Message.Set: setting a member of a oneof clears the other members. */
  function Set(d: Descriptor, m: Msg, i: nat, slot: Slot): Msg
    requires i < |d.fields|
  {
    var o := d.fields[i].oneof;
    Msg((map j | j in m.slots && !(o.Some? && j < |d.fields| && d.fields[j].oneof == o) :: m.slots[j])[i := slot])
  }

  lemma SetFits(s: Schema, d: Descriptor, m: Msg, i: nat, slot: Slot)
    requires WellFormed(s) && d in s.messages && MessageFits(s, d, m) && i < |d.fields| &&
      SlotFits(s, d.fields[i], slot)
    ensures MessageFits(s, d, Set(d, m, i, slot))
  {
    NamesOf(s, d);
    var n := Set(d, m, i, slot);
    forall j | j in n.slots
      ensures j < |d.fields| && SlotFits(s, d.fields[j], n.slots[j])
    {
      assert j == i || j in m.slots;
    }
    forall j | 0 <= j < |d.fields| && d.fields[j].shape != Singular(true)
      ensures j in n.slots
    {
      assert d.fields[j].oneof == None;
    }
    OneOfEach(s, d, m, i, slot);
  }

  lemma OneOfEach(s: Schema, d: Descriptor, m: Msg, i: nat, slot: Slot)
    requires MessageFits(s, d, m) && i < |d.fields|
    ensures var n := Set(d, m, i, slot);
      forall j, k ::
        j in n.slots && k in n.slots && j != k && j < |d.fields| && k < |d.fields| && d.fields[j].oneof.Some? ==>
          d.fields[j].oneof != d.fields[k].oneof
  {
  }

  function Named(fields: seq<Field>, key: string, json: bool): Option<nat> {
    if fields == [] then None
    else if (if json then fields[0].jsonName else fields[0].name) == key then Some(0)
    else
      var rest := Named(fields[1..], key, json);
      if rest.Some? then Some(rest.value + 1) else None
  }

  lemma {:induction false} NamedIs(fields: seq<Field>, key: string, json: bool)
    ensures var r := Named(fields, key, json);
      if r.Some? then r.value < |fields| && (if json then fields[r.value].jsonName else fields[r.value].name) == key
      else forall i :: 0 <= i < |fields| ==> (if json then fields[i].jsonName else fields[i].name) != key
  {
    if fields != [] {
      NamedIs(fields[1..], key, json);
    }
  }

  /** The field that a key stands for: by name, or else the first with that JSON name. */
  function Resolve(d: Descriptor, key: string): Option<nat> {
    var byName := Named(d.fields, key, false);
    if byName.Some? then byName else Named(d.fields, key, true)
  }

  lemma ResolveIs(d: Descriptor, key: string)
    ensures var r := Resolve(d, key);
      && (r.Some? ==> r.value < |d.fields| && (d.fields[r.value].name == key || d.fields[r.value].jsonName == key))
      && (r.Some? && key in Names(d) ==> d.fields[r.value].name == key)
      && (r.None? <==> forall i :: 0 <= i < |d.fields| ==> d.fields[i].name != key && d.fields[i].jsonName != key)
  {
    NamedIs(d.fields, key, false);
    NamedIs(d.fields, key, true);
  }

  // ------------------------------------------------------------------------
  // Text
  // ------------------------------------------------------------------------

  /** The value that a text encodes to in a singular field, if it is accepted. */
  function TextValue(s: Schema, kind: Kind, text: string): Option<Value>
    requires KindFits(s, kind)
  {
    match kind
    case Text => Some(VText(text))
    case Bytes => if s.base64(text).Some? then Some(VBytes(s.base64(text).value)) else None
    case Enum(id) =>
      var named, parsed := NumberNamed(s.enums[id], text), ParseInt(text);
      if named.Some? then Some(VEnum(named.value))
      else if parsed.Some? && MIN_INT32 <= parsed.value <= MAX_INT32 then Some(VEnum(parsed.value))
      else None
    case Int32 => TextInt(kind, ParseInt(text))
    case Int64 => TextInt(kind, ParseInt(text))
    case UInt32 => TextInt(kind, ParseUint(text))
    case UInt64 => TextInt(kind, ParseUint(text))
    case _ => None
  }

  function TextInt(kind: Kind, parsed: Option<int>): Option<Value> {
    if parsed.Some? && InRange(kind, parsed.value) then Some(VInt(parsed.value)) else None
  }

  // ------------------------------------------------------------------------
  // Clashes
  // ------------------------------------------------------------------------

  /** Oneof o, which has field i as a member, is named like the JSON name of field j. */
  predicate ClashAt(d: Descriptor, o: nat, i: nat, j: nat) {
    && o < |d.oneofs| && i < |d.fields| && j < |d.fields|
    && d.fields[i].oneof == Some(o) && d.fields[j].jsonName == d.oneofs[o]
  }

  ghost predicate Clashes(d: Descriptor) {
    exists o, i, j :: ClashAt(d, o, i, j)
  }

  predicate LeadsTo(s: Schema, d: Descriptor, i: nat) {
    i < |d.fields| && d.fields[i].kind.Message? && d.fields[i].kind.id < |s.messages|
  }

  /** Following message fields by index leads from descriptor d to descriptor e. */
  predicate Reaches(s: Schema, d: Descriptor, path: seq<nat>, e: Descriptor)
    decreases path
  {
    if path == [] then e == d
    else LeadsTo(s, d, path[0]) && Reaches(s, s.messages[d.fields[path[0]].kind.id], path[1..], e)
  }

  ghost predicate ClashFree(s: Schema, d: Descriptor) {
    forall path, e :: Reaches(s, d, path, e) ==> !Clashes(e)
  }

  ghost predicate KindClashFree(s: Schema, kind: Kind) {
    kind.Message? && kind.id < |s.messages| ==> ClashFree(s, s.messages[kind.id])
  }

  lemma ClashFreeInside(s: Schema, d: Descriptor)
    requires ClashFree(s, d)
    ensures !Clashes(d)
    ensures forall i :: 0 <= i < |d.fields| ==> KindClashFree(s, d.fields[i].kind)
  {
    assert Reaches(s, d, [], d);
    forall i: nat, path, e | LeadsTo(s, d, i) && Reaches(s, s.messages[d.fields[i].kind.id], path, e)
      ensures !Clashes(e)
    {
      assert ([i] + path)[1..] == path;
      assert Reaches(s, d, [i] + path, e);
    }
    forall i | 0 <= i < |d.fields|
      ensures KindClashFree(s, d.fields[i].kind)
    {
      assert d.fields[i].kind.Message? && d.fields[i].kind.id < |s.messages| ==> LeadsTo(s, d, i);
    }
  }

  /** Oneof o is the only one set in m, with member i, and its discriminator overwrites a field
      with something other than what m holds there. */
  ghost predicate SpoiledAt(s: Schema, d: Descriptor, m: Msg, o: nat, i: nat) {
    && o < |d.oneofs| && SelectedIn(d, m, o, i)
    && (forall k :: k in m.slots && k < |d.fields| && d.fields[k].oneof.Some? ==> d.fields[k].oneof == Some(o))
    && Resolve(d, d.oneofs[o]).Some?
    && Overwrites(s, d, m, Resolve(d, d.oneofs[o]).value, d.fields[i].name)
  }

  /** Writing the text into field j never gives what m holds there. */
  ghost predicate Overwrites(s: Schema, d: Descriptor, m: Msg, j: nat, text: string) {
    j < |d.fields| && KindFits(s, d.fields[j].kind) &&
    (d.fields[j].shape.Singular? && TextValue(s, d.fields[j].kind, text).Some? ==>
      SlotOf(m, j) != Some(One(TextValue(s, d.fields[j].kind, text).value)))
  }

  /** Somewhere in m, a discriminator spoils a message. */
  ghost predicate Spoiled(s: Schema, d: Descriptor, m: Msg)
    decreases m, 2
  {
    || (exists o, i :: SpoiledAt(s, d, m, o, i))
    || (exists i :: i in m.slots && i < |d.fields| && SpoiledSlot(s, d.fields[i].kind, m.slots[i]))
  }

  ghost predicate SpoiledSlot(s: Schema, kind: Kind, slot: Slot)
    decreases slot, 1
  {
    match slot
    case One(v) => SpoiledValue(s, kind, v)
    case Many(vs) => exists j :: 0 <= j < |vs| && SpoiledValue(s, kind, vs[j])
    case Entries(es) => exists k :: k in es && SpoiledValue(s, kind, es[k])
  }

  ghost predicate SpoiledValue(s: Schema, kind: Kind, v: Value)
    decreases v, 0
  {
    v.VMessage? && kind.Message? && kind.id < |s.messages| && Spoiled(s, s.messages[kind.id], v.message)
  }

  /** Two different values of every kind: one that is not `avoid`. */
  function Other(kind: Kind, avoid: Option<Value>): Value {
    if avoid != Some(Default(kind)) then Default(kind)
    else match kind
      case Bool => VBool(true)
      case Float => VFloat(1)
      case Double => VFloat(1)
      case Text => VText("x")
      case Bytes => VBytes([0])
      case Enum(_) => VEnum(1)
      case Message(_) => VMessage(Msg(map[]))
      case _ => VInt(1)
  }

  lemma OtherFits(s: Schema, kind: Kind, avoid: Option<Value>)
    requires KindFits(s, kind) && !kind.Message?
    ensures ValueFits(s, kind, Other(kind, avoid)) && avoid != Some(Other(kind, avoid))
  {
  }

  /** A message of the type of field i, or a scalar, that is not what the text gives. */
  lemma SomeOther(s: Schema, kind: Kind, text: string) returns (v: Value)
    requires WellFormed(s) && KindFits(s, kind)
    ensures ValueFits(s, kind, v) && TextValue(s, kind, text) != Some(v)
  {
    if kind.Message? {
      FreshFits(s, s.messages[kind.id]);
      v := VMessage(Fresh(s.messages[kind.id]));
    } else {
      OtherFits(s, kind, TextValue(s, kind, text));
      v := Other(kind, TextValue(s, kind, text));
    }
  }

  lemma ClashResolves(s: Schema, d: Descriptor, o: nat, i: nat, j: nat)
    requires WellFormed(s) && d in s.messages && ClashAt(d, o, i, j)
    ensures Resolve(d, d.oneofs[o]).Some? && Resolve(d, d.oneofs[o]).value < |d.fields|
    ensures FieldFits(s, d, d.fields[Resolve(d, d.oneofs[o]).value]) && FieldFits(s, d, d.fields[i])
  {
    NamesOf(s, d);
    ResolveIs(d, d.oneofs[o]);
  }

  /** A message with no oneof set, in which field j is not what the text encodes to. */
  lemma MessageWithout(s: Schema, d: Descriptor, j: nat, text: string) returns (m: Msg)
    requires WellFormed(s) && d in s.messages && j < |d.fields| && FieldFits(s, d, d.fields[j])
    ensures MessageFits(s, d, m) && Overwrites(s, d, m, j, text)
    ensures forall k :: k in m.slots && k < |d.fields| ==> d.fields[k].oneof == None
  {
    FreshFits(s, d);
    m := Fresh(d);
    if j in m.slots && d.fields[j].shape.Singular? {
      var w := SomeOther(s, d.fields[j].kind, text);
      SetFits(s, d, m, j, One(w));
      SetOverwrites(s, d, m, j, w, text);
      m := Set(d, m, j, One(w));
    }
  }

  lemma SetOverwrites(s: Schema, d: Descriptor, m: Msg, j: nat, w: Value, text: string)
    requires j in m.slots && j < |d.fields| && KindFits(s, d.fields[j].kind) &&
      TextValue(s, d.fields[j].kind, text) != Some(w)
    ensures Overwrites(s, d, Set(d, m, j, One(w)), j, text)
    ensures Set(d, m, j, One(w)).slots.Keys <= m.slots.Keys
  {
  }

  lemma MemberSet(s: Schema, d: Descriptor, m: Msg, o: nat, i: nat, j: nat, v: Value, text: string)
    requires o < |d.oneofs| && i < |d.fields| && d.fields[i].oneof == Some(o) && Overwrites(s, d, m, j, text)
    requires forall k :: k in m.slots && k < |d.fields| ==> d.fields[k].oneof == None
    requires KindFits(s, d.fields[i].kind) && TextValue(s, d.fields[i].kind, text) != Some(v)
    ensures var n := Set(d, m, i, One(v)); SelectedIn(d, n, o, i) && Overwrites(s, d, n, j, text)
    ensures forall k :: k in Set(d, m, i, One(v)).slots && k < |d.fields| && k != i ==> d.fields[k].oneof == None
  {
  }

  /** Every descriptor with a clash has a message that the clash spoils: only the clashing oneof is
      set, and the field its discriminator reaches holds something else. */
  lemma ClashSpoils(s: Schema, d: Descriptor, o: nat, i: nat, j: nat) returns (m: Msg)
    requires WellFormed(s) && d in s.messages && ClashAt(d, o, i, j)
    ensures MessageFits(s, d, m) && Spoiled(s, d, m)
  {
    ClashResolves(s, d, o, i, j);
    var hit, text := Resolve(d, d.oneofs[o]).value, d.fields[i].name;
    var base := MessageWithout(s, d, hit, text);
    var v := SomeOther(s, d.fields[i].kind, text);
    SetFits(s, d, base, i, One(v));
    MemberSet(s, d, base, o, i, hit, v, text);
    m := Set(d, base, i, One(v));
    assert SpoiledAt(s, d, m, o, i);
  }

  function SomeKey(kind: Kind): Key {
    match kind
    case Bool => BoolKey(false)
    case Text => TextKey("")
    case _ => IntKey(0)
  }

  /** A field whose slot holds a given spoiled message. */
  lemma SpoilsOutside(s: Schema, d: Descriptor, i: nat, inner: Msg) returns (m: Msg)
    requires WellFormed(s) && d in s.messages && LeadsTo(s, d, i)
    requires MessageFits(s, s.messages[d.fields[i].kind.id], inner) &&
      Spoiled(s, s.messages[d.fields[i].kind.id], inner)
    ensures MessageFits(s, d, m) && Spoiled(s, d, m)
  {
    NamesOf(s, d);
    FreshFits(s, d);
    var f, v := d.fields[i], VMessage(inner);
    assert FieldFits(s, d, f) && ValueFits(s, f.kind, v) && SpoiledValue(s, f.kind, v);
    var slot := match f.shape
      case Singular(_) => One(v)
      case Repeated => Many([v])
      case MapOf(key) => Entries(map[SomeKey(key) := v]);
    assert SlotFits(s, f, slot);
    assert SpoiledSlot(s, f.kind, slot) by {
      assert slot.Many? ==> slot.values[0] == v;
      assert slot.Entries? ==> SomeKey(f.shape.key) in slot.entries && slot.entries[SomeKey(f.shape.key)] == v;
    }
    SetFits(s, d, Fresh(d), i, slot);
    m := Set(d, Fresh(d), i, slot);
    assert i in m.slots && m.slots[i] == slot;
  }

  lemma {:induction false} ReachedClashSpoils(s: Schema, d: Descriptor, path: seq<nat>, e: Descriptor) returns (m: Msg)
    requires WellFormed(s) && d in s.messages && Reaches(s, d, path, e) && Clashes(e)
    ensures MessageFits(s, d, m) && Spoiled(s, d, m)
    decreases path
  {
    if path == [] {
      var o, i, j :| ClashAt(e, o, i, j);
      m := ClashSpoils(s, d, o, i, j);
    } else {
      var inner := ReachedClashSpoils(s, s.messages[d.fields[path[0]].kind.id], path[1..], e);
      m := SpoilsOutside(s, d, path[0], inner);
    }
  }

  lemma ClashInside(s: Schema, d: Descriptor, i: nat)
    requires LeadsTo(s, d, i) && !ClashFree(s, s.messages[d.fields[i].kind.id])
    ensures !ClashFree(s, d)
  {
    var path, e :| Reaches(s, s.messages[d.fields[i].kind.id], path, e) && Clashes(e);
    assert ([i] + path)[1..] == path;
    assert Reaches(s, d, [i] + path, e);
  }

  lemma {:induction false} SpoiledMeansClash(s: Schema, d: Descriptor, m: Msg)
    requires WellFormed(s) && d in s.messages && Spoiled(s, d, m)
    ensures !ClashFree(s, d)
    decreases m
  {
    if exists o, i :: SpoiledAt(s, d, m, o, i) {
      var o: nat, i: nat :| SpoiledAt(s, d, m, o, i);
      NamesOf(s, d);
      ResolveIs(d, d.oneofs[o]);
      assert d.oneofs[o] in OneofNames(d) && d.fields[Resolve(d, d.oneofs[o]).value].name in Names(d);
      assert ClashAt(d, o, i, Resolve(d, d.oneofs[o]).value);
      assert Reaches(s, d, [], d);
    } else {
      var i :| i in m.slots && i < |d.fields| && SpoiledSlot(s, d.fields[i].kind, m.slots[i]);
      var v := SpoiledInside(s, d.fields[i].kind, m.slots[i]);
      SpoiledMeansClash(s, s.messages[d.fields[i].kind.id], v.message);
      ClashInside(s, d, i);
    }
  }

  lemma SpoiledInside(s: Schema, kind: Kind, slot: Slot) returns (v: Value)
    requires SpoiledSlot(s, kind, slot)
    ensures SpoiledValue(s, kind, v) && v < slot
  {
    match slot
    case One(w) => v := w;
    case Many(vs) =>
      var j :| 0 <= j < |vs| && SpoiledValue(s, kind, vs[j]);
      v := vs[j];
    case Entries(es) =>
      var k :| k in es && SpoiledValue(s, kind, es[k]);
      v := es[k];
  }

  /** A descriptor is free of clashes, in itself and in every message type it reaches, exactly when
      no discriminator spoils any of its messages. */
  lemma ClashFreeIff(s: Schema, d: Descriptor)
    requires WellFormed(s) && d in s.messages
    ensures ClashFree(s, d) <==> forall m :: MessageFits(s, d, m) ==> !Spoiled(s, d, m)
  {
    if ClashFree(s, d) {
      forall m | MessageFits(s, d, m)
        ensures !Spoiled(s, d, m)
      {
        if Spoiled(s, d, m) {
          SpoiledMeansClash(s, d, m);
        }
      }
    } else {
      var path, e :| Reaches(s, d, path, e) && Clashes(e);
      var m := ReachedClashSpoils(s, d, path, e);
      assert MessageFits(s, d, m) && Spoiled(s, d, m);
    }
  }
}
