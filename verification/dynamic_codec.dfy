/** The dynamic protobuf codec of grpc/dynamic_codec.go: messages of any descriptor to maps with
    string keys, and back. The JSON well-known types are not part of this model. */
module DynamicCodec {
  import opened Options
  import opened Decimals

  // ------------------------------------------------------------------------
  // Descriptors and messages
  // ------------------------------------------------------------------------

  datatype Kind =
    | Bool | Int32 | Int64 | UInt32 | UInt64 | Float | Double | Text | Bytes
    | Enum(id: nat)
    | Message(id: nat)

  datatype Shape = Singular(presence: bool) | Repeated | MapOf(key: Kind)

  datatype Field = Field(name: string, jsonName: string, kind: Kind, shape: Shape, oneof: Option<nat>)

  datatype Descriptor = Descriptor(fields: seq<Field>, oneofs: seq<string>)

  datatype EnumValue = EnumValue(name: string, number: int)

  /** What the codec needs to know of floats: their numbers, and the conversions between the two
      widths, from integers and from text. */
  datatype Floats = Floats(
    ofSingle: int -> Number, ofWide: int -> Number,
    widen: int -> int, narrow: int -> int, ofInt: int -> int, parse: string -> Option<int>)

  /** `base64` decodes the text of a bytes value. */
  datatype Schema = Schema(messages: seq<Descriptor>, enums: seq<seq<EnumValue>>, floats: Floats,
    base64: string -> Option<seq<int>>)

  datatype Key = BoolKey(b: bool) | IntKey(i: int) | TextKey(s: string)

  /** A float is known by its bits. */
  datatype Value =
    | VBool(b: bool)
    | VInt(i: int)
    | VFloat(bits: int)
    | VText(s: string)
    | VBytes(bytes: seq<int>)
    | VEnum(number: int)
    | VMessage(message: Msg)

  datatype Slot = One(value: Value) | Many(values: seq<Value>) | Entries(entries: map<Key, Value>)

  /** Slots by field index. A field without presence, a list and a map always have a slot. */
  datatype Msg = Msg(slots: map<nat, Slot>)

  // ------------------------------------------------------------------------
  // Dynamic values
  // ------------------------------------------------------------------------

  datatype IntType = I8 | I16 | I32 | I64 | I | U8 | U16 | U32 | U64 | U

  datatype Number = NaN | Infinite | Finite(value: real)

  datatype Raw =
    | Null
    | Boolean(b: bool)
    | Str(s: string)
    | Raws(bytes: seq<int>)            // []byte
    | Native(t: IntType, i: int)
    | Single(bits: int)                // float32
    | Wide(bits: int)                  // float64
    | Json(text: string)               // json.Number
    | Arr(items: seq<Raw>)
    | Obj(entries: map<string, Raw>)

  const MIN_INT32: int := -0x8000_0000
  const MAX_INT32: int := 0x7fff_ffff
  const MAX_UINT32: int := 0xffff_ffff

  predicate InRange(kind: Kind, i: int) {
    match kind
    case Int32 => MIN_INT32 <= i <= MAX_INT32
    case Int64 => MIN_INT64 <= i <= MAX_INT64
    case UInt32 => 0 <= i <= MAX_UINT32
    case UInt64 => 0 <= i <= MAX_UINT64
    case _ => false
  }

  // ------------------------------------------------------------------------
  // Well-formed schemas and messages
  // ------------------------------------------------------------------------

  predicate IsIdentifier(s: string) {
    s != [] && ('a' <= s[0] <= 'z' || 'A' <= s[0] <= 'Z' || s[0] == '_')
  }

  function Names(d: Descriptor): set<string> {
    set i | 0 <= i < |d.fields| :: d.fields[i].name
  }

  function OneofNames(d: Descriptor): set<string> {
    set o | 0 <= o < |d.oneofs| :: d.oneofs[o]
  }

  predicate DistinctNames(d: Descriptor) {
    && (forall i, j :: 0 <= i < j < |d.fields| ==> d.fields[i].name != d.fields[j].name)
    && (forall o, p :: 0 <= o < p < |d.oneofs| ==> d.oneofs[o] != d.oneofs[p])
    && Names(d) !! OneofNames(d)
  }

  predicate FieldFits(s: Schema, d: Descriptor, f: Field) {
    && (f.kind.Enum? ==> f.kind.id < |s.enums|)
    && (f.kind.Message? ==> f.kind.id < |s.messages|)
    && (f.oneof.Some? ==> f.oneof.value < |d.oneofs| && f.shape == Singular(true))
    && (f.kind.Message? && f.shape.Singular? ==> f.shape.presence)
    && (f.shape.MapOf? ==> f.shape.key in {Bool, Int32, Int64, UInt32, UInt64, Text})
  }

  predicate DistinctEnum(values: seq<EnumValue>) {
    && (forall i, j :: 0 <= i < j < |values| ==> values[i].name != values[j].name)
    && (forall i :: 0 <= i < |values| ==> IsIdentifier(values[i].name) && MIN_INT32 <= values[i].number <= MAX_INT32)
  }

  /** What protoc guarantees of every schema. */
  predicate WellFormed(s: Schema) {
    && (forall id :: 0 <= id < |s.messages| ==> DistinctNames(s.messages[id]))
    && (forall id, i ::
      0 <= id < |s.messages| && 0 <= i < |s.messages[id].fields| ==>
        FieldFits(s, s.messages[id], s.messages[id].fields[i]))
    && (forall id :: 0 <= id < |s.enums| ==> DistinctEnum(s.enums[id]))
  }

  predicate KeyFits(kind: Kind, k: Key) {
    match k
    case BoolKey(_) => kind == Bool
    case TextKey(_) => kind == Text
    case IntKey(i) => InRange(kind, i)
  }

  predicate ValueFits(s: Schema, kind: Kind, v: Value)
    decreases v, 0
  {
    match v
    case VBool(_) => kind == Bool
    case VInt(i) => InRange(kind, i)
    case VFloat(_) => kind == Float || kind == Double
    case VText(_) => kind == Text
    case VBytes(_) => kind == Bytes
    case VEnum(n) => kind.Enum? && kind.id < |s.enums| && MIN_INT32 <= n <= MAX_INT32
    case VMessage(m) => kind.Message? && kind.id < |s.messages| && MessageFits(s, s.messages[kind.id], m)
  }

  predicate SlotFits(s: Schema, f: Field, slot: Slot)
    decreases slot, 0
  {
    match slot
    case One(v) => f.shape.Singular? && ValueFits(s, f.kind, v)
    case Many(vs) => f.shape.Repeated? && forall i :: 0 <= i < |vs| ==> ValueFits(s, f.kind, vs[i])
    case Entries(es) => f.shape.MapOf? && forall k :: k in es ==> KeyFits(f.shape.key, k) && ValueFits(s, f.kind, es[k])
  }

  predicate MessageFits(s: Schema, d: Descriptor, m: Msg)
    decreases m, 0
  {
    && (forall i :: i in m.slots ==> i < |d.fields| && SlotFits(s, d.fields[i], m.slots[i]))
    && (forall i :: 0 <= i < |d.fields| && d.fields[i].shape != Singular(true) ==> i in m.slots)
    && (forall i, j ::
      i in m.slots && j in m.slots && i != j && d.fields[i].oneof.Some? ==> d.fields[i].oneof != d.fields[j].oneof)
  }

  // ------------------------------------------------------------------------
  // What decoding gives
  // ------------------------------------------------------------------------

  /** The first value declared with the number, or the number itself. */
  function EnumText(values: seq<EnumValue>, n: int): string {
    if values == [] then FormatInt(n)
    else if values[0].number == n then values[0].name
    else EnumText(values[1..], n)
  }

  function KeyText(k: Key): string {
    match k
    case BoolKey(b) => if b then "true" else "false"
    case IntKey(i) => FormatInt(i)
    case TextKey(s) => s
  }

  predicate DecodesInt(kind: Kind, i: int, raw: Raw) {
    match kind
    case Int32 => raw == Native(I32, i)
    case UInt32 => raw == Native(U32, i)
    case _ => raw == Str(FormatInt(i))
  }

  predicate Decodes(s: Schema, kind: Kind, v: Value, raw: Raw)
    decreases v, 0
  {
    match v
    case VBool(b) => raw == Boolean(b)
    case VInt(i) => DecodesInt(kind, i, raw)
    case VFloat(bits) => raw == if kind == Float then Single(bits) else Wide(bits)
    case VText(t) => raw == Str(t)
    case VBytes(bytes) => raw == Raws(bytes)
    case VEnum(n) => kind.Enum? && kind.id < |s.enums| && raw == Str(EnumText(s.enums[kind.id], n))
    case VMessage(m) =>
      raw.Obj? && kind.Message? && kind.id < |s.messages| && DecodesMessage(s, s.messages[kind.id], m, raw.entries)
  }

  predicate DecodesSlot(s: Schema, f: Field, slot: Slot, raw: Raw)
    decreases slot, 0
  {
    match slot
    case One(v) => Decodes(s, f.kind, v, raw)
    case Many(vs) =>
      raw.Arr? && |raw.items| == |vs| && forall i :: 0 <= i < |vs| ==> Decodes(s, f.kind, vs[i], raw.items[i])
    case Entries(es) =>
      && raw.Obj?
      && (forall k :: k in es ==> KeyText(k) in raw.entries && Decodes(s, f.kind, es[k], raw.entries[KeyText(k)]))
      && (forall n :: n in raw.entries ==> IsKeyText(es, n))
  }

  predicate IsKeyText(es: map<Key, Value>, n: string) {
    exists k :: k in es && KeyText(k) == n
  }

  /** A singular message field outside a oneof is reported even when it is not set. */
  predicate Hollow(f: Field) {
    f.oneof == None && f.kind.Message? && f.shape == Singular(true)
  }

  predicate DecodesField(s: Schema, d: Descriptor, m: Msg, i: nat, raw: map<string, Raw>)
    requires i < |d.fields|
    decreases m, 0
  {
    var f := d.fields[i];
    if i in m.slots then f.name in raw && DecodesSlot(s, f, m.slots[i], raw[f.name])
    else if Hollow(f) then f.name in raw && raw[f.name] == Null
    else f.name !in raw
  }

  predicate SelectedIn(d: Descriptor, m: Msg, o: nat, i: nat) {
    i in m.slots && i < |d.fields| && d.fields[i].oneof == Some(o)
  }

  /** The discriminator of a oneof names the field that is set. */
  predicate DecodesOneof(d: Descriptor, m: Msg, o: nat, raw: map<string, Raw>)
    requires o < |d.oneofs|
  {
    var n := d.oneofs[o];
    if exists i :: i in m.slots && SelectedIn(d, m, o, i)
    then n in raw && exists i :: i in m.slots && SelectedIn(d, m, o, i) && raw[n] == Str(d.fields[i].name)
    else n !in raw
  }

  predicate DecodesMessage(s: Schema, d: Descriptor, m: Msg, raw: map<string, Raw>)
    decreases m, 1
  {
    && (forall i :: 0 <= i < |d.fields| ==> DecodesField(s, d, m, i, raw))
    && (forall o :: 0 <= o < |d.oneofs| ==> DecodesOneof(d, m, o, raw))
    && (forall n :: n in raw ==> n in Names(d) || n in OneofNames(d))
  }

  // ------------------------------------------------------------------------
  // Decoding
  // ------------------------------------------------------------------------

  method EnumName(values: seq<EnumValue>, n: int) returns (text: string)
    ensures text == EnumText(values, n)
  {
    var i := 0;
    while i < |values|
      invariant 0 <= i <= |values| && EnumText(values, n) == EnumText(values[i..], n)
    {
      if values[i].number == n {
        return values[i].name;
      }
      assert values[i..][1..] == values[i + 1..];
      i := i + 1;
    }
    text := FormatInt(n);
  }

  /** dynamicSingularValue. */
  method DecodeValue(s: Schema, kind: Kind, v: Value) returns (raw: Raw)
    requires WellFormed(s) && ValueFits(s, kind, v)
    ensures Decodes(s, kind, v, raw)
    decreases v, 1
  {
    match v
    case VBool(b) => raw := Boolean(b);
    case VInt(i) =>
      raw := if kind == Int32 then Native(I32, i) else if kind == UInt32 then Native(U32, i) else Str(FormatInt(i));
    case VFloat(bits) => raw := if kind == Float then Single(bits) else Wide(bits);
    case VText(t) => raw := Str(t);
    case VBytes(bytes) => raw := Raws(bytes);
    case VEnum(n) =>
      var text := EnumName(s.enums[kind.id], n);
      raw := Str(text);
    case VMessage(m) =>
      var entries := DecodeMessage(s, s.messages[kind.id], m);
      raw := Obj(entries);
  }

  /** dynamicFieldValue. */
  method DecodeSlot(s: Schema, f: Field, slot: Slot) returns (raw: Raw)
    requires WellFormed(s) && SlotFits(s, f, slot)
    ensures DecodesSlot(s, f, slot, raw)
    decreases slot, 1
  {
    match slot
    case One(v) => raw := DecodeValue(s, f.kind, v);
    case Many(vs) =>
      var items: seq<Raw> := [];
      var i := 0;
      while i < |vs|
        invariant 0 <= i <= |vs| && |items| == i
        invariant forall j :: 0 <= j < i ==> Decodes(s, f.kind, vs[j], items[j])
      {
        var item := DecodeValue(s, f.kind, vs[i]);
        items := items + [item];
        i := i + 1;
      }
      raw := Arr(items);
    case Entries(es) =>
      var entries := DecodeEntries(s, f, es);
      raw := Obj(entries);
  }

  /** A map field, in whatever order it is ranged over. */
  method DecodeEntries(s: Schema, f: Field, es: map<Key, Value>) returns (entries: map<string, Raw>)
    requires WellFormed(s) && SlotFits(s, f, Entries(es))
    ensures DecodesSlot(s, f, Entries(es), Obj(entries))
    decreases Entries(es), 0
  {
    entries := map[];
    var remaining := es.Keys;
    while remaining != {}
      invariant remaining <= es.Keys
      invariant forall k ::
        k in es && k !in remaining ==> KeyText(k) in entries && Decodes(s, f.kind, es[k], entries[KeyText(k)])
      invariant forall n :: n in entries ==> exists k :: k in es && k !in remaining && KeyText(k) == n
      decreases remaining
    {
      var k :| k in remaining;
      var item := DecodeValue(s, f.kind, es[k]);
      forall other | other in es && other !in remaining
        ensures KeyText(other) != KeyText(k)
      {
        KeyTextInjective(f.shape.key, other, k);
      }
      entries, remaining := entries[KeyText(k) := item], remaining - {k};
    }
  }

  /** Keys of one kind have distinct texts. */
  lemma KeyTextInjective(kind: Kind, a: Key, b: Key)
    requires KeyFits(kind, a) && KeyFits(kind, b) && a != b
    ensures KeyText(a) != KeyText(b)
  {
    if a.IntKey? && b.IntKey? && KeyText(a) == KeyText(b) {
      FormatInjective(a.i, b.i);
    }
  }

  lemma OtherFieldKeeps(s: Schema, d: Descriptor, m: Msg, j: nat, raw: map<string, Raw>, n: string, item: Raw)
    requires j < |d.fields| && d.fields[j].name != n
    ensures DecodesField(s, d, m, j, raw[n := item]) <==> DecodesField(s, d, m, j, raw)
  {
  }

  lemma NamesOf(s: Schema, d: Descriptor)
    requires WellFormed(s) && d in s.messages
    ensures DistinctNames(d)
    ensures forall j :: 0 <= j < |d.fields| ==> d.fields[j].name in Names(d) && FieldFits(s, d, d.fields[j])
    ensures forall o :: 0 <= o < |d.oneofs| ==> d.oneofs[o] in OneofNames(d) && d.oneofs[o] !in Names(d)
  {
    var id :| 0 <= id < |s.messages| && s.messages[id] == d;
  }

  /** What holds of the raw object once the first `i` fields are in it. */
  predicate FieldsDecoded(s: Schema, d: Descriptor, m: Msg, i: nat, raw: map<string, Raw>)
    requires i <= |d.fields|
  {
    && (forall j :: 0 <= j < i ==> DecodesField(s, d, m, j, raw))
    && (forall n :: n in raw ==> exists j :: 0 <= j < i && d.fields[j].name == n)
  }

  /** ... and the first `o` oneofs. */
  predicate OneofsDecoded(s: Schema, d: Descriptor, m: Msg, o: nat, raw: map<string, Raw>)
    requires o <= |d.oneofs|
  {
    && (forall j :: 0 <= j < |d.fields| ==> DecodesField(s, d, m, j, raw))
    && (forall p :: 0 <= p < o ==> DecodesOneof(d, m, p, raw))
    && (forall n :: n in raw ==> n in Names(d) || exists p :: 0 <= p < o && d.oneofs[p] == n)
  }

  lemma NextField(s: Schema, d: Descriptor, m: Msg, i: nat, raw: map<string, Raw>, item: Raw)
    requires DistinctNames(d) && i < |d.fields| && FieldsDecoded(s, d, m, i, raw)
    requires if i in m.slots then DecodesSlot(s, d.fields[i], m.slots[i], item) else Hollow(d.fields[i]) && item == Null
    ensures FieldsDecoded(s, d, m, i + 1, raw[d.fields[i].name := item])
  {
    var raw' := raw[d.fields[i].name := item];
    forall j | 0 <= j < i
      ensures DecodesField(s, d, m, j, raw')
    {
      assert DecodesField(s, d, m, j, raw);
      OtherFieldKeeps(s, d, m, j, raw, d.fields[i].name, item);
    }
  }

  lemma NextOneof(s: Schema, d: Descriptor, m: Msg, o: nat, raw: map<string, Raw>, i: nat)
    requires DistinctNames(d) && o < |d.oneofs| && OneofsDecoded(s, d, m, o, raw)
    requires d.oneofs[o] !in Names(d) && SelectedIn(d, m, o, i)
    ensures OneofsDecoded(s, d, m, o + 1, raw[d.oneofs[o] := Str(d.fields[i].name)])
  {
    var raw' := raw[d.oneofs[o] := Str(d.fields[i].name)];
    forall j | 0 <= j < |d.fields|
      ensures DecodesField(s, d, m, j, raw')
    {
      assert d.fields[j].name in Names(d);
      OtherFieldKeeps(s, d, m, j, raw, d.oneofs[o], Str(d.fields[i].name));
    }
    forall p | 0 <= p < o
      ensures DecodesOneof(d, m, p, raw')
    {
      assert DecodesOneof(d, m, p, raw) && d.oneofs[p] != d.oneofs[o];
    }
  }

  /** dynamicMessageValue. */
  method DecodeMessage(s: Schema, d: Descriptor, m: Msg) returns (raw: map<string, Raw>)
    requires WellFormed(s) && d in s.messages && MessageFits(s, d, m)
    ensures DecodesMessage(s, d, m, raw)
    decreases m, 1
  {
    NamesOf(s, d);
    raw := map[];
    var i := 0;
    while i < |d.fields|
      invariant 0 <= i <= |d.fields| && FieldsDecoded(s, d, m, i, raw)
    {
      var f := d.fields[i];
      if i in m.slots {
        var item := DecodeSlot(s, f, m.slots[i]);
        NextField(s, d, m, i, raw, item);
        raw := raw[f.name := item];
      } else if Hollow(f) {
        NextField(s, d, m, i, raw, Null);
        raw := raw[f.name := Null];
      }
      i := i + 1;
    }
    var o := 0;
    while o < |d.oneofs|
      invariant 0 <= o <= |d.oneofs| && OneofsDecoded(s, d, m, o, raw)
    {
      var selected := WhichOneof(d, m, o);
      if selected < |d.fields| {
        NextOneof(s, d, m, o, raw, selected);
        raw := raw[d.oneofs[o] := Str(d.fields[selected].name)];
      }
      o := o + 1;
    }
  }

  method WhichOneof(d: Descriptor, m: Msg, o: nat) returns (i: nat)
    ensures i < |d.fields| ==> SelectedIn(d, m, o, i)
    ensures i >= |d.fields| ==> forall j: nat :: !SelectedIn(d, m, o, j)
  {
    i := 0;
    while i < |d.fields| && !SelectedIn(d, m, o, i)
      invariant 0 <= i <= |d.fields| && forall j :: 0 <= j < i ==> !SelectedIn(d, m, o, j)
    {
      i := i + 1;
    }
  }
}
