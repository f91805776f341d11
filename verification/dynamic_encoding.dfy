/** The encoding half of grpc/dynamic_codec.go. Every accepted message fits its descriptor and is
    what DynamicSources says its object makes of a fresh one; and what DynamicCodec decodes from a
    message encodes into an equal one, for exactly the schemas that DynamicFields finds free of
    clashes. */
module DynamicEncoding {
  import opened Options
  import opened Decimals
  import opened DynamicCodec
  import opened DynamicFields
  import opened DynamicSources

  datatype Failure = Mistyped | NotInteger | Inexact | Overflow | BadKey | UnknownEnum

  // ------------------------------------------------------------------------
  // Integers
  // ------------------------------------------------------------------------

  const EXACT: int := 0x1f_ffff_ffff_ffff    // 2^53 - 1

  /** A float is taken only up to 2^53 - 1 in magnitude. */
  method FloatInt(n: Number, signed: bool) returns (r: Result<int, Failure>)
    ensures r.Ok? <==> Equal(n).Some? && (if signed then -EXACT else 0) <= Equal(n).value <= EXACT
    ensures r.Ok? ==> Some(r.value) == Equal(n)
  {
    if !n.Finite? || !IsIntegral(n.value) || (!signed && n.value < 0.0) {
      return Err(NotInteger);
    }
    if n.value > EXACT as real || -n.value > EXACT as real {
      return Err(Inexact);
    }
    r := Ok(n.value.Floor);
  }

  /** dynamicInt64. */
  method Int64Of(fl: Floats, raw: Raw) returns (r: Result<int, Failure>)
    ensures r.Ok? ==> Denoted(fl, raw) == Some(r.value) && MIN_INT64 <= r.value <= MAX_INT64
    ensures forall i :: MIN_INT64 <= i <= MAX_INT64 && raw == Str(FormatInt(i)) ==> r == Ok(i)
    ensures forall t, i :: raw == Native(t, i) && MIN_INT64 <= i <= MAX_INT64 ==> r == Ok(i)
    ensures raw.Str? ==> if ParseInt(raw.s).Some? then r == Ok(ParseInt(raw.s).value) else r.Err?
  {
    match raw {
      case Str(t) =>
        r := ParsedInt(t);
        forall i | MIN_INT64 <= i <= MAX_INT64 && t == FormatInt(i)
          ensures r == Ok(i)
        {
          IntRoundTrip(i);
        }
      case Json(t) => r := ParsedInt(t);
      case Single(bits) => r := FloatInt(fl.ofSingle(bits), true);
      case Wide(bits) => r := FloatInt(fl.ofWide(bits), true);
      case Native(_, i) => r := if MIN_INT64 <= i <= MAX_INT64 then Ok(i) else Err(Overflow);
      case _ => r := Err(Mistyped);
    }
  }

  method ParsedInt(t: string) returns (r: Result<int, Failure>)
    ensures r == (if ParseInt(t).Some? then Ok(ParseInt(t).value) else Err(NotInteger))
    ensures r.Ok? ==> Spelled(t) == Some(r.value)
  {
    var parsed := ParseInt(t);
    r := if parsed.Some? then Ok(parsed.value) else Err(NotInteger);
  }

  /** dynamicUint64. */
  method Uint64Of(fl: Floats, raw: Raw) returns (r: Result<int, Failure>)
    ensures r.Ok? ==> Denoted(fl, raw) == Some(r.value) && 0 <= r.value <= MAX_UINT64
    ensures forall i: nat :: i <= MAX_UINT64 && raw == Str(FormatInt(i)) ==> r == Ok(i)
    ensures forall t, i :: raw == Native(t, i) && 0 <= i <= MAX_UINT64 ==> r == Ok(i)
    ensures raw.Str? ==> if ParseUint(raw.s).Some? then r == Ok(ParseUint(raw.s).value) else r.Err?
  {
    match raw {
      case Str(t) =>
        var parsed := ParseUint(t);
        r := if parsed.Some? then Ok(parsed.value) else Err(NotInteger);
        forall i: nat | i <= MAX_UINT64 && t == FormatInt(i)
          ensures r == Ok(i)
        {
          UintRoundTrip(i);
        }
      case Json(t) =>
        var parsed := ParseUint(t);
        r := if parsed.Some? then Ok(parsed.value) else Err(NotInteger);
      case Single(bits) => r := FloatInt(fl.ofSingle(bits), false);
      case Wide(bits) => r := FloatInt(fl.ofWide(bits), false);
      case Native(_, i) => r := if 0 <= i <= MAX_UINT64 then Ok(i) else Err(NotInteger);
      case _ => r := Err(Mistyped);
    }
  }

  /** The integer kinds: accepted exactly as denoted, and within the range of the field. */
  method EncodeInt(fl: Floats, kind: Kind, raw: Raw) returns (r: Result<int, Failure>)
    requires kind in {Int32, Int64, UInt32, UInt64}
    ensures r.Ok? ==> Denoted(fl, raw) == Some(r.value) && InRange(kind, r.value)
    ensures forall i :: InRange(kind, i) && DecodesInt(kind, i, raw) ==> r == Ok(i)
    ensures raw.Str? ==>
      var text := TextInt(kind, if kind == Int32 || kind == Int64 then ParseInt(raw.s) else ParseUint(raw.s));
      if text.Some? then r == Ok(text.value.i) else r.Err?
  {
    if kind == Int32 || kind == Int64 {
      r := Int64Of(fl, raw);
    } else {
      r := Uint64Of(fl, raw);
    }
    if r.Ok? && !InRange(kind, r.value) {
      r := Err(Overflow);
    }
  }

  // ------------------------------------------------------------------------
  // Enums and keys
  // ------------------------------------------------------------------------

  /** A name, a number as text, or a number. */
  method EncodeEnum(s: Schema, id: nat, raw: Raw) returns (r: Result<int, Failure>)
    requires WellFormed(s) && id < |s.enums|
    ensures r.Ok? && !raw.Str? ==> Denoted(s.floats, raw) == Some(r.value)
    ensures r.Ok? ==> MIN_INT32 <= r.value <= MAX_INT32
    ensures forall n :: MIN_INT32 <= n <= MAX_INT32 && raw == Str(EnumText(s.enums[id], n)) ==> r == Ok(n)
    ensures raw.Str? ==>
      var text := TextValue(s, Enum(id), raw.s);
      if text.Some? then r == Ok(text.value.number) else r.Err?
  {
    assert DistinctEnum(s.enums[id]);
    if raw.Str? {
      NamedInRange(s.enums[id], raw.s);
      var named := NumberNamed(s.enums[id], raw.s);
      var parsed := ParseInt(raw.s);
      r := if named.Some? then Ok(named.value)
           else if parsed.Some? && MIN_INT32 <= parsed.value <= MAX_INT32 then Ok(parsed.value)
           else Err(UnknownEnum);
      forall n | MIN_INT32 <= n <= MAX_INT32 && raw == Str(EnumText(s.enums[id], n))
        ensures r == Ok(n)
      {
        NamedEnum(s.enums[id], n);
        IntRoundTrip(n);
      }
    } else {
      r := Int64Of(s.floats, raw);
      if r.Err? || r.value < MIN_INT32 || r.value > MAX_INT32 {
        r := Err(UnknownEnum);
      }
    }
  }

  method FindField(d: Descriptor, key: string) returns (found: Option<nat>)
    ensures found == Resolve(d, key)
  {
    var i := 0;
    while i < |d.fields|
      invariant 0 <= i <= |d.fields|
      invariant Named(d.fields, key, false) == Shifted(Named(d.fields[i..], key, false), i)
    {
      if d.fields[i].name == key {
        return Some(i);
      }
      assert d.fields[i..][1..] == d.fields[i + 1..];
      i := i + 1;
    }
    i := 0;
    while i < |d.fields|
      invariant 0 <= i <= |d.fields|
      invariant Named(d.fields, key, true) == Shifted(Named(d.fields[i..], key, true), i)
    {
      if d.fields[i].jsonName == key {
        return Some(i);
      }
      assert d.fields[i..][1..] == d.fields[i + 1..];
      i := i + 1;
    }
    found := None;
  }

  function Shifted(i: Option<nat>, n: nat): Option<nat> {
    if i.Some? then Some(i.value + n) else None
  }

  // ------------------------------------------------------------------------
  // Values
  // ------------------------------------------------------------------------

  /** encodeDynamicValue. `goal`, if there is one, is a value that `raw` was decoded from. `late`
      asks for an order of map keys in which the keys of oneofs come last; without it, and among
      those keys, the order is arbitrary, as it is in Go. */
  method EncodeValue(s: Schema, kind: Kind, raw: Raw, late: bool, ghost goal: Option<Value>)
    returns (r: Result<Value, Failure>)
    requires WellFormed(s) && KindFits(s, kind)
    requires goal.Some? ==>
      FaithfulFloats(s.floats) && ValueFits(s, kind, goal.value) && Decodes(s, kind, goal.value, raw)
    ensures goal.Some? && KindClashFree(s, kind) ==> r == Ok(goal.value)
    ensures goal.Some? && late && SpoiledValue(s, kind, goal.value) ==> r != Ok(goal.value)
    ensures raw.Str? ==> if TextValue(s, kind, raw.s).Some? then r == Ok(TextValue(s, kind, raw.s).value) else r.Err?
    ensures r.Ok? ==> ValueFits(s, kind, r.value) && ValueFrom(s, kind, raw, r.value)
    decreases raw, 3
  {
    match kind {
      case Bool => r := if raw.Boolean? then Ok(VBool(raw.b)) else Err(Mistyped);
      case Text => r := if raw.Str? then Ok(VText(raw.s)) else Err(Mistyped);
      case Bytes => r := EncodeBytes(s, raw);
      case Float => r := EncodeFloat(s.floats, raw, true);
      case Double => r := EncodeFloat(s.floats, raw, false);
      case Enum(id) =>
        var number := EncodeEnum(s, id, raw);
        r := if number.Ok? then Ok(VEnum(number.value)) else Err(number.error);
      case Message(id) =>
        if raw.Obj? {
          ghost var target := if goal.Some? then Some(goal.value.message) else None;
          var message := Populate(s, s.messages[id], raw, late, target);
          r := if message.Ok? then Ok(VMessage(message.value)) else Err(message.error);
        } else {
          r := Err(Mistyped);
        }
      case _ =>
        var number := EncodeInt(s.floats, kind, raw);
        r := if number.Ok? then Ok(VInt(number.value)) else Err(number.error);
    }
  }

  /** Bytes, or their base64 text. */
  method EncodeBytes(s: Schema, raw: Raw) returns (r: Result<Value, Failure>)
    ensures raw.Raws? ==> r == Ok(VBytes(raw.bytes))
    ensures raw.Str? ==> if s.base64(raw.s).Some? then r == Ok(VBytes(s.base64(raw.s).value)) else r.Err?
    ensures r.Ok? ==> r.value.VBytes? && (raw.Raws? || raw.Str?)
  {
    match raw
    case Raws(bytes) => r := Ok(VBytes(bytes));
    case Str(t) =>
      var bytes := s.base64(t);
      r := if bytes.Some? then Ok(VBytes(bytes.value)) else Err(Mistyped);
    case _ => r := Err(Mistyped);
  }

  /** Widening a float32 and narrowing it again changes nothing. */
  ghost predicate FaithfulFloats(fl: Floats) {
    forall bits :: fl.narrow(fl.widen(bits)) == bits
  }

  /** dynamicFloat64, narrowed for a float field. */
  method EncodeFloat(fl: Floats, raw: Raw, single: bool) returns (r: Result<Value, Failure>)
    ensures r.Ok? ==> r.value.VFloat?
    ensures forall bits :: raw == Wide(bits) && !single ==> r == Ok(VFloat(bits))
    ensures forall bits :: raw == Single(bits) && single ==> r == Ok(VFloat(fl.narrow(fl.widen(bits))))
    ensures raw.Str? ==> r.Err?
  {
    var wide: Option<int> := None;
    match raw {
      case Json(t) => wide := fl.parse(t);
      case Single(bits) => wide := Some(fl.widen(bits));
      case Wide(bits) => wide := Some(bits);
      case Native(_, i) => wide := Some(fl.ofInt(i));
      case _ =>
    }
    r := if wide.None? then Err(Mistyped) else Ok(VFloat(if single then fl.narrow(wide.value) else wide.value));
  }

  /** Of the first elements of the goal, those that are spoiled did not come out. */
  ghost predicate ItemsOff(s: Schema, kind: Kind, goal: seq<Value>, values: seq<Value>) {
    |values| <= |goal| && forall j :: 0 <= j < |values| && SpoiledValue(s, kind, goal[j]) ==> values[j] != goal[j]
  }

  /** What the first elements owe the goal. */
  ghost predicate ItemsMeet(s: Schema, kind: Kind, late: bool, goal: seq<Value>, values: seq<Value>) {
    && |values| <= |goal|
    && (KindClashFree(s, kind) ==> values <= goal)
    && (late ==> ItemsOff(s, kind, goal, values))
  }

  /** What they owe the elements they come from. */
  ghost predicate FirstItems(s: Schema, f: Field, start: seq<Value>, raw: Raw, i: nat, values: seq<Value>)
    requires raw.Arr? && i <= |raw.items|
  {
    && SlotFits(s, f, Many(values)) && |values| == |start| + i && start <= values
    && forall n :: 0 <= n < i ==> ValueFrom(s, f.kind, raw.items[n], values[|start| + n])
  }

  lemma NextItem(s: Schema, f: Field, start: seq<Value>, raw: Raw, i: nat, values: seq<Value>, v: Value)
    requires raw.Arr? && i < |raw.items| && FirstItems(s, f, start, raw, i, values)
    requires ValueFits(s, f.kind, v) && ValueFrom(s, f.kind, raw.items[i], v)
    ensures FirstItems(s, f, start, raw, i + 1, values + [v])
  {
  }

  lemma NextMeets(s: Schema, kind: Kind, late: bool, goal: seq<Value>, values: seq<Value>, v: Value)
    requires ItemsMeet(s, kind, late, goal, values) && |values| < |goal|
    requires KindClashFree(s, kind) ==> v == goal[|values|]
    requires late && SpoiledValue(s, kind, goal[|values|]) ==> v != goal[|values|]
    ensures ItemsMeet(s, kind, late, goal, values + [v])
  {
  }

  lemma AllMeet(s: Schema, kind: Kind, late: bool, goal: seq<Value>, values: seq<Value>)
    requires ItemsMeet(s, kind, late, goal, values) && |values| == |goal|
    ensures KindClashFree(s, kind) ==> values == goal
    ensures late && SpoiledSlot(s, kind, Many(goal)) ==> values != goal
  {
  }

  /** The list loop: elements are appended to what the field holds. */
  method EncodeItems(s: Schema, f: Field, raw: Raw, start: seq<Value>, late: bool, ghost goal: Option<seq<Value>>)
    returns (r: Result<seq<Value>, Failure>)
    requires WellFormed(s) && KindFits(s, f.kind) && raw.Arr? && f.shape.Repeated? && SlotFits(s, f, Many(start))
    requires goal.Some? ==> start == [] && FaithfulFloats(s.floats)
    requires goal.Some? ==> SlotFits(s, f, Many(goal.value)) && DecodesSlot(s, f, Many(goal.value), raw)
    ensures goal.Some? && KindClashFree(s, f.kind) ==> r == Ok(goal.value)
    ensures goal.Some? && late && SpoiledSlot(s, f.kind, Many(goal.value)) ==> r != Ok(goal.value)
    ensures r.Ok? ==> SlotFits(s, f, Many(r.value)) && ItemsFrom(s, f.kind, start, raw, r.value)
    decreases raw, 1
  {
    var values := start;
    var i := 0;
    while i < |raw.items|
      invariant 0 <= i <= |raw.items| && FirstItems(s, f, start, raw, i, values)
      invariant goal.Some? ==> ItemsMeet(s, f.kind, late, goal.value, values)
    {
      ghost var target := if goal.Some? then Some(goal.value[i]) else None;
      var value := EncodeValue(s, f.kind, raw.items[i], late, target);
      if value.Err? {
        return Err(value.error);
      }
      if goal.Some? {
        NextMeets(s, f.kind, late, goal.value, values, value.value);
      }
      NextItem(s, f, start, raw, i, values, value.value);
      values := values + [value.value];
      i := i + 1;
    }
    if goal.Some? {
      AllMeet(s, f.kind, late, goal.value, values);
    }
    r := Ok(values);
  }

  /** With the keys in `left` still to come, the entries so far are those of the goal. */
  ghost predicate EntriesSoFar(goal: map<Key, Value>, es: map<Key, Value>, left: set<string>) {
    && (forall k :: k in es ==> k in goal && es[k] == goal[k])
    && (forall k :: k in goal && KeyText(k) !in left ==> k in es)
  }

  /** Of the keys that have come, those whose values are spoiled do not have them. */
  ghost predicate EntriesOff(s: Schema, kind: Kind, goal: map<Key, Value>, es: map<Key, Value>, left: set<string>) {
    forall k :: k in goal && k in es && KeyText(k) !in left && SpoiledValue(s, kind, goal[k]) ==> es[k] != goal[k]
  }

  lemma EntryKey(kind: Kind, goal: map<Key, Value>, text: string) returns (k: Key)
    requires IsKeyText(goal, text) && forall q :: q in goal ==> KeyFits(kind, q)
    ensures k in goal && KeyText(k) == text && EncodeKey(kind, text) == Some(k)
  {
    k :| k in goal && KeyText(k) == text;
    KeyRoundTrip(kind, k);
  }

  lemma NextEntry(s: Schema, f: Field, goal: map<Key, Value>, es: map<Key, Value>, left: set<string>, k: Key, v: Value)
    requires f.shape.MapOf? && k in goal && KeyText(k) in left && forall q :: q in goal ==> KeyFits(f.shape.key, q)
    ensures EntriesSoFar(goal, es, left) && v == goal[k] ==> EntriesSoFar(goal, es[k := v], left - {KeyText(k)})
    ensures EntriesOff(s, f.kind, goal, es, left) && (SpoiledValue(s, f.kind, goal[k]) ==> v != goal[k]) ==>
      EntriesOff(s, f.kind, goal, es[k := v], left - {KeyText(k)})
  {
    forall q | q in goal && q != k
      ensures KeyText(q) != KeyText(k)
    {
      KeyTextInjective(f.shape.key, q, k);
    }
  }

  lemma OtherEntry(s: Schema, f: Field, start: map<Key, Value>, raw: Raw, left: set<string>, text: string, q: Key,
        v: Value)
    requires raw.Obj? && EntryFrom(s, f, start, raw, left, q, v) && !KeyFrom(f, raw, text, q)
    ensures EntryFrom(s, f, start, raw, left - {text}, q, v)
  {
  }

  lemma NextFrom(s: Schema, f: Field, start: map<Key, Value>, raw: Raw, left: set<string>, es: map<Key, Value>,
        text: string, k: Key, v: Value)
    requires raw.Obj? && f.shape.MapOf? && EntriesFrom(s, f, start, raw, left, es)
    requires text in left && KeyFrom(f, raw, text, k) && ValueFrom(s, f.kind, raw.entries[text], v)
    ensures EntriesFrom(s, f, start, raw, left - {text}, es[k := v])
  {
    forall q | q in es && q != k
      ensures EntryFrom(s, f, start, raw, left - {text}, q, es[q])
    {
      OtherEntry(s, f, start, raw, left, text, q, es[q]);
    }
    assert EntryFrom(s, f, start, raw, left - {text}, k, v);
  }

  /** The map loop, in whatever order it is ranged over. */
  method EncodeEntries(s: Schema, f: Field, raw: Raw, start: map<Key, Value>, late: bool,
        ghost goal: Option<map<Key, Value>>)
    returns (r: Result<map<Key, Value>, Failure>)
    requires WellFormed(s) && KindFits(s, f.kind) && raw.Obj? && f.shape.MapOf? && SlotFits(s, f, Entries(start))
    requires goal.Some? ==> start == map[] && FaithfulFloats(s.floats)
    requires goal.Some? ==> SlotFits(s, f, Entries(goal.value)) && DecodesSlot(s, f, Entries(goal.value), raw)
    ensures goal.Some? && KindClashFree(s, f.kind) ==> r == Ok(goal.value)
    ensures goal.Some? && late && SpoiledSlot(s, f.kind, Entries(goal.value)) ==> r != Ok(goal.value)
    ensures r.Ok? ==> SlotFits(s, f, Entries(r.value)) && EntriesFrom(s, f, start, raw, {}, r.value)
    decreases raw, 1
  {
    var es := start;
    var left := raw.entries.Keys;
    while left != {}
      invariant left <= raw.entries.Keys && SlotFits(s, f, Entries(es))
      invariant EntriesFrom(s, f, start, raw, left, es)
      invariant goal.Some? && KindClashFree(s, f.kind) ==> EntriesSoFar(goal.value, es, left)
      invariant goal.Some? && late ==> EntriesOff(s, f.kind, goal.value, es, left)
      decreases left
    {
      var text :| text in left;
      ghost var target: Option<Value> := None;
      if goal.Some? {
        ghost var k := EntryKey(f.shape.key, goal.value, text);
        target := Some(goal.value[k]);
      }
      var key := EncodeKey(f.shape.key, text);
      EncodedKeyFits(f.shape.key, text);
      if key.None? {
        return Err(BadKey);
      }
      var value := EncodeValue(s, f.kind, raw.entries[text], late, target);
      if value.Err? {
        return Err(value.error);
      }
      if goal.Some? {
        NextEntry(s, f, goal.value, es, left, key.value, value.value);
      }
      NextFrom(s, f, start, raw, left, es, text, key.value, value.value);
      es, left := es[key.value := value.value], left - {text};
    }
    if goal.Some? {
      EntriesEnd(s, f.kind, goal.value, es);
    }
    r := Ok(es);
  }

  lemma EntriesEnd(s: Schema, kind: Kind, goal: map<Key, Value>, es: map<Key, Value>)
    ensures EntriesSoFar(goal, es, {}) ==> es == goal
    ensures EntriesOff(s, kind, goal, es, {}) && SpoiledSlot(s, kind, Entries(goal)) ==> es != goal
  {
    assert EntriesSoFar(goal, es, {}) ==> es.Keys == goal.Keys;
  }

  /** What setting a field from a text comes to. */
  ghost predicate SetFromText(s: Schema, d: Descriptor, m: Msg, i: nat, text: string, r: Result<Msg, Failure>)
    requires i < |d.fields| && KindFits(s, d.fields[i].kind)
  {
    var f, value := d.fields[i], TextValue(s, d.fields[i].kind, text);
    if f.shape.Singular? && value.Some? then r == Ok(Set(d, m, i, One(value.value))) else r.Err?
  }

  /** setDynamicField. */
  method SetField(s: Schema, d: Descriptor, m: Msg, i: nat, raw: Raw, late: bool, ghost goal: Option<Slot>)
    returns (r: Result<Msg, Failure>)
    requires WellFormed(s) && d in s.messages && MessageFits(s, d, m) && i < |d.fields| && KindFits(s, d.fields[i].kind)
    requires goal.Some? ==>
      FaithfulFloats(s.floats) && SlotFits(s, d.fields[i], goal.value) && DecodesSlot(s, d.fields[i], goal.value, raw)
    requires goal.Some? && !d.fields[i].shape.Singular? ==> i in m.slots && FreshSlot(d.fields[i]) == Some(m.slots[i])
    ensures goal.Some? && KindClashFree(s, d.fields[i].kind) ==> r == Ok(Set(d, m, i, goal.value))
    ensures goal.Some? && late && SpoiledSlot(s, d.fields[i].kind, goal.value) && r.Ok? ==>
      SlotOf(r.value, i) != Some(goal.value)
    ensures raw.Str? ==> SetFromText(s, d, m, i, raw.s, r)
    ensures r.Ok? ==> MessageFits(s, d, r.value) && i in r.value.slots && r.value == Set(d, m, i, r.value.slots[i])
    ensures r.Ok? ==> SlotFrom(s, d.fields[i], SlotOf(m, i), raw, r.value.slots[i])
    decreases raw, 5
  {
    var slot := EncodeSlot(s, d.fields[i], SlotOf(m, i), raw, late, goal);
    if slot.Err? {
      return Err(slot.error);
    }
    SetFits(s, d, m, i, slot.value);
    r := Ok(Set(d, m, i, slot.value));
  }

  /** The new content of a field that holds `held`. */
  method EncodeSlot(s: Schema, f: Field, held: Option<Slot>, raw: Raw, late: bool, ghost goal: Option<Slot>)
    returns (r: Result<Slot, Failure>)
    requires WellFormed(s) && KindFits(s, f.kind)
    requires !f.shape.Singular? ==> held.Some? && SlotFits(s, f, held.value)
    requires goal.Some? ==> FaithfulFloats(s.floats) && SlotFits(s, f, goal.value) && DecodesSlot(s, f, goal.value, raw)
    requires goal.Some? && !f.shape.Singular? ==> held == FreshSlot(f)
    ensures goal.Some? && KindClashFree(s, f.kind) ==> r == Ok(goal.value)
    ensures goal.Some? && late && SpoiledSlot(s, f.kind, goal.value) ==> r != Ok(goal.value)
    ensures raw.Str? ==>
      var text := TextValue(s, f.kind, raw.s);
      if f.shape.Singular? && text.Some? then r == Ok(One(text.value)) else r.Err?
    ensures r.Ok? ==> SlotFits(s, f, r.value) && SlotFrom(s, f, held, raw, r.value)
    decreases raw, 4
  {
    match f.shape {
      case Repeated =>
        if !raw.Arr? {
          return Err(Mistyped);
        }
        ghost var target := if goal.Some? then Some(goal.value.values) else None;
        var values := EncodeItems(s, f, raw, held.value.values, late, target);
        r := if values.Ok? then Ok(Many(values.value)) else Err(values.error);
      case MapOf(_) =>
        if !raw.Obj? {
          return Err(Mistyped);
        }
        ghost var target := if goal.Some? then Some(goal.value.entries) else None;
        var es := EncodeEntries(s, f, raw, held.value.entries, late, target);
        r := if es.Ok? then Ok(Entries(es.value)) else Err(es.error);
      case Singular(_) =>
        ghost var target := if goal.Some? then Some(goal.value.value) else None;
        var value := EncodeValue(s, f.kind, raw, late, target);
        r := if value.Ok? then Ok(One(value.value)) else Err(value.error);
    }
  }

  // ------------------------------------------------------------------------
  // Populating a fresh message
  // ------------------------------------------------------------------------

  /** The fields whose names have come are those of the goal, the others are fresh. */
  ghost predicate FieldSoFar(d: Descriptor, goal: Msg, m: Msg, left: set<string>, i: nat)
    requires i < |d.fields|
  {
    SlotOf(m, i) == if d.fields[i].name !in left && i in goal.slots then Some(goal.slots[i]) else FreshSlot(d.fields[i])
  }

  ghost predicate SoFar(d: Descriptor, goal: Msg, m: Msg, left: set<string>) {
    forall i :: 0 <= i < |d.fields| ==> FieldSoFar(d, goal, m, left, i)
  }

  lemma DecodedIsNotNull(s: Schema, f: Field, slot: Slot, raw: Raw)
    requires DecodesSlot(s, f, slot, raw)
    ensures raw != Null
  {
  }

  /** A key of a decoded object that names a field stands for that field of the goal. */
  lemma NameIsField(s: Schema, d: Descriptor, goal: Msg, raw: map<string, Raw>, key: string)
    requires WellFormed(s) && d in s.messages && DecodesMessage(s, d, goal, raw) && key in raw && key in Names(d)
    ensures var found := Resolve(d, key);
      && found.Some? && found.value < |d.fields| && d.fields[found.value].name == key
      && (raw[key] != Null ==>
        found.value in goal.slots && DecodesSlot(s, d.fields[found.value], goal.slots[found.value], raw[key]))
      && (raw[key] == Null ==> found.value !in goal.slots)
  {
    var found := Resolve(d, key);
    ResolveIs(d, key);
    assert DecodesField(s, d, goal, found.value, raw);
    if found.value in goal.slots {
      DecodedIsNotNull(s, d.fields[found.value], goal.slots[found.value], raw[key]);
    }
  }

  /** Any other key is the discriminator of a oneof that is set. */
  lemma OtherKeyIsDiscriminator(s: Schema, d: Descriptor, goal: Msg, raw: map<string, Raw>, key: string)
    returns (o: nat, i: nat)
    requires WellFormed(s) && d in s.messages && DecodesMessage(s, d, goal, raw) && key in raw && key !in Names(d)
    ensures o < |d.oneofs| && d.oneofs[o] == key && SelectedIn(d, goal, o, i) && raw[key] == Str(d.fields[i].name)
  {
    assert key in OneofNames(d);
    o :| 0 <= o < |d.oneofs| && d.oneofs[o] == key;
    assert DecodesOneof(d, goal, o, raw);
    i :| i in goal.slots && SelectedIn(d, goal, o, i) && raw[key] == Str(d.fields[i].name);
  }

  lemma ClashFreeDiscriminator(s: Schema, d: Descriptor, goal: Msg, raw: map<string, Raw>, key: string)
    requires WellFormed(s) && d in s.messages && DecodesMessage(s, d, goal, raw) && key in raw && key !in Names(d)
    requires !Clashes(d)
    ensures Resolve(d, key).None?
  {
    var o, i := OtherKeyIsDiscriminator(s, d, goal, raw, key);
    ResolveIs(d, key);
    if Resolve(d, key).Some? {
      NamesOf(s, d);
      assert d.fields[Resolve(d, key).value].name in Names(d);
      assert ClashAt(d, o, i, Resolve(d, key).value);
    }
  }

  lemma Skipped(s: Schema, d: Descriptor, goal: Msg, m: Msg, left: set<string>, key: string)
    requires SoFar(d, goal, m, left) && forall i :: 0 <= i < |d.fields| && d.fields[i].name == key ==> i !in goal.slots
    ensures SoFar(d, goal, m, left - {key})
  {
    forall i | 0 <= i < |d.fields|
      ensures FieldSoFar(d, goal, m, left - {key}, i)
    {
      assert FieldSoFar(d, goal, m, left, i);
    }
  }

  lemma SetSoFar(s: Schema, d: Descriptor, goal: Msg, m: Msg, left: set<string>, i: nat)
    requires WellFormed(s) && d in s.messages && MessageFits(s, d, goal) && i < |d.fields| && i in goal.slots
    requires SoFar(d, goal, m, left) && d.fields[i].name in left
    ensures SoFar(d, goal, Set(d, m, i, goal.slots[i]), left - {d.fields[i].name})
  {
    NamesOf(s, d);
    var n, key := Set(d, m, i, goal.slots[i]), d.fields[i].name;
    forall j | 0 <= j < |d.fields|
      ensures FieldSoFar(d, goal, n, left - {key}, j)
    {
      assert FieldSoFar(d, goal, m, left, j);
      assert j != i ==> d.fields[j].name != key;
      // Another member of the same oneof is neither in the goal nor in a fresh message.
      assert j != i && d.fields[i].oneof.Some? && d.fields[j].oneof == d.fields[i].oneof ==>
        j !in goal.slots && FreshSlot(d.fields[j]) == None;
    }
  }

  lemma AllSet(s: Schema, d: Descriptor, goal: Msg, m: Msg)
    requires MessageFits(s, d, goal) && MessageFits(s, d, m) && SoFar(d, goal, m, {})
    ensures m == goal
  {
    forall i | i in m.slots || i in goal.slots
      ensures SlotOf(m, i) == SlotOf(goal, i)
    {
      assert i < |d.fields| && FieldSoFar(d, goal, m, {}, i);
    }
    assert forall i :: i in m.slots <==> i in goal.slots;
    assert forall i :: i in m.slots ==> m.slots[i] == goal.slots[i];
    assert m.slots == goal.slots;
  }

  // ------------------------------------------------------------------------
  // What a populated message owes the goal
  // ------------------------------------------------------------------------

  /** Lists and maps whose names have not come are still fresh. */
  ghost predicate Untouched(d: Descriptor, m: Msg, left: set<string>) {
    forall i ::
      0 <= i < |d.fields| && !d.fields[i].shape.Singular? && d.fields[i].name in left ==>
        SlotOf(m, i) == FreshSlot(d.fields[i])
  }

  /** Spoiled fields whose names have come do not hold what the goal holds. */
  ghost predicate FieldsOff(s: Schema, d: Descriptor, goal: Msg, m: Msg, left: set<string>) {
    forall i ::
      i in goal.slots && i < |d.fields| && SpoiledSlot(s, d.fields[i].kind, goal.slots[i]) &&
        d.fields[i].name !in left ==>
      SlotOf(m, i) != Some(goal.slots[i])
  }

  /** A spoiling discriminator that has come was the last key, and its field is not the goal's. */
  ghost predicate KeysOff(s: Schema, d: Descriptor, goal: Msg, m: Msg, left: set<string>) {
    forall o: nat, i: nat :: SpoiledAt(s, d, goal, o, i) && d.oneofs[o] !in left ==>
      left == {} && SlotOf(m, Resolve(d, d.oneofs[o]).value) != SlotOf(goal, Resolve(d, d.oneofs[o]).value)
  }

  ghost predicate Tracks(s: Schema, d: Descriptor, goal: Msg, m: Msg, late: bool, left: set<string>) {
    && (ClashFree(s, d) ==> SoFar(d, goal, m, left))
    && Untouched(d, m, left)
    && (late ==> FieldsOff(s, d, goal, m, left) && KeysOff(s, d, goal, m, left))
  }

  lemma StartSoFar(s: Schema, d: Descriptor, goal: Msg, raw: map<string, Raw>)
    requires WellFormed(s) && d in s.messages && DecodesMessage(s, d, goal, raw)
    ensures SoFar(d, goal, Fresh(d), raw.Keys)
  {
    forall i | 0 <= i < |d.fields|
      ensures FieldSoFar(d, goal, Fresh(d), raw.Keys, i)
    {
      assert DecodesField(s, d, goal, i, raw);
    }
  }

  lemma StartTracks(s: Schema, d: Descriptor, goal: Msg, raw: map<string, Raw>, late: bool)
    requires WellFormed(s) && d in s.messages && DecodesMessage(s, d, goal, raw)
    ensures Tracks(s, d, goal, Fresh(d), late, raw.Keys)
  {
    StartSoFar(s, d, goal, raw);
    forall i | i in goal.slots && i < |d.fields|
      ensures d.fields[i].name in raw
    {
      assert DecodesField(s, d, goal, i, raw);
    }
    forall o: nat, i: nat | SpoiledAt(s, d, goal, o, i)
      ensures d.oneofs[o] in raw
    {
      assert DecodesOneof(d, goal, o, raw) && i in goal.slots;
    }
  }

  lemma EndTracks(s: Schema, d: Descriptor, goal: Msg, m: Msg, late: bool)
    requires MessageFits(s, d, goal) && MessageFits(s, d, m) && Tracks(s, d, goal, m, late, {})
    ensures ClashFree(s, d) ==> m == goal
    ensures late && Spoiled(s, d, goal) ==> m != goal
  {
    if ClashFree(s, d) {
      AllSet(s, d, goal, m);
    }
    if late && Spoiled(s, d, goal) {
      if exists o, i :: SpoiledAt(s, d, goal, o, i) {
        var o: nat, i: nat :| SpoiledAt(s, d, goal, o, i);
        var hit := Resolve(d, d.oneofs[o]).value;
        assert SlotOf(m, hit) != SlotOf(goal, hit);
      } else {
        var i :| i in goal.slots && i < |d.fields| && SpoiledSlot(s, d.fields[i].kind, goal.slots[i]);
        assert SlotOf(m, i) != SlotOf(goal, i);
      }
    }
  }

  /** With `late`, a key that names no field comes when no other key that does is left. */
  predicate NextKey(d: Descriptor, late: bool, left: set<string>, key: string) {
    key in left && (late && key !in Names(d) ==> left !! Names(d))
  }

  /** A spoiling discriminator comes last of all: no other oneof is set. */
  lemma SpoilerComesLast(s: Schema, d: Descriptor, goal: Msg, raw: map<string, Raw>, left: set<string>, key: string,
        o: nat, i: nat)
    requires WellFormed(s) && d in s.messages && DecodesMessage(s, d, goal, raw)
    requires left <= raw.Keys && NextKey(d, true, left, key) && SpoiledAt(s, d, goal, o, i) && key == d.oneofs[o]
    ensures left == {key}
  {
    NamesOf(s, d);
    forall other | other in left
      ensures other == key
    {
      var p, j := OtherKeyIsDiscriminator(s, d, goal, raw, other);
      assert p == o;
    }
  }

  /** A key that is passed over, a null or a name of no field, names no field of the goal. */
  lemma PassedNamesNothing(s: Schema, d: Descriptor, goal: Msg, raw: map<string, Raw>, key: string)
    requires WellFormed(s) && d in s.messages && DecodesMessage(s, d, goal, raw) && key in raw
    requires Resolve(d, key).None? || raw[key] == Null
    ensures forall i :: 0 <= i < |d.fields| && d.fields[i].name == key ==> i !in goal.slots
    ensures key !in Names(d) ==> Resolve(d, key).None?
  {
    NamesOf(s, d);
    if key in Names(d) {
      NameIsField(s, d, goal, raw, key);
    } else {
      var o, i := OtherKeyIsDiscriminator(s, d, goal, raw, key);
    }
  }

  lemma PassTracks(s: Schema, d: Descriptor, goal: Msg, m: Msg, raw: map<string, Raw>, late: bool, left: set<string>,
        key: string)
    requires WellFormed(s) && d in s.messages && DecodesMessage(s, d, goal, raw) && Tracks(s, d, goal, m, late, left)
    requires left <= raw.Keys && NextKey(d, late, left, key) && (Resolve(d, key).None? || raw[key] == Null)
    ensures Tracks(s, d, goal, m, late, left - {key})
  {
    PassedNamesNothing(s, d, goal, raw, key);
    if ClashFree(s, d) {
      Skipped(s, d, goal, m, left, key);
    }
    if late {
      PassKeepsKeysOff(s, d, goal, m, left, key);
    }
  }

  lemma PassKeepsKeysOff(s: Schema, d: Descriptor, goal: Msg, m: Msg, left: set<string>, key: string)
    requires WellFormed(s) && d in s.messages && KeysOff(s, d, goal, m, left) && key in left
    requires key !in Names(d) ==> Resolve(d, key).None?
    ensures KeysOff(s, d, goal, m, left - {key})
  {
    NamesOf(s, d);
    forall o: nat, i: nat | SpoiledAt(s, d, goal, o, i)
      ensures d.oneofs[o] != key
    {
      assert d.oneofs[o] in OneofNames(d);
    }
  }

  /** The target of a key: the goal's slot, if the key names its field. */
  ghost function Target(d: Descriptor, goal: Option<Msg>, key: string, i: nat): Option<Slot> {
    if goal.Some? && key in Names(d) && i in goal.value.slots then Some(goal.value.slots[i]) else None
  }

  ghost predicate SlotMeets(s: Schema, kind: Kind, late: bool, goal: Slot, slot: Slot) {
    && (KindClashFree(s, kind) ==> slot == goal)
    && (late && SpoiledSlot(s, kind, goal) ==> slot != goal)
  }

  predicate IsTextSlot(s: Schema, kind: Kind, text: string, slot: Slot)
    requires KindFits(s, kind)
  {
    TextValue(s, kind, text).Some? && slot == One(TextValue(s, kind, text).value)
  }

  /** What the key writes: the goal's slot, or something else where that slot is spoiled; for a
      discriminator, what its text encodes to in a singular field. */
  ghost predicate Writes(s: Schema, d: Descriptor, goal: Msg, raw: Raw, late: bool, key: string, i: nat, slot: Slot)
    requires i < |d.fields|
  {
    var f := d.fields[i];
    if key in Names(d) then
      i in goal.slots && SlotMeets(s, f.kind, late, goal.slots[i], slot)
    else
      raw.Str? && f.shape.Singular? && KindFits(s, f.kind) && IsTextSlot(s, f.kind, raw.s, slot)
  }

  lemma SetTracks(s: Schema, d: Descriptor, goal: Msg, m: Msg, raw: map<string, Raw>, late: bool, left: set<string>,
        key: string, i: nat, slot: Slot)
    requires WellFormed(s) && d in s.messages && MessageFits(s, d, goal) && DecodesMessage(s, d, goal, raw)
    requires Tracks(s, d, goal, m, late, left) && left <= raw.Keys && NextKey(d, late, left, key)
    requires Resolve(d, key) == Some(i) && i < |d.fields| && Writes(s, d, goal, raw[key], late, key, i, slot)
    ensures Tracks(s, d, goal, Set(d, m, i, slot), late, left - {key})
  {
    if ClashFree(s, d) {
      SetKeepsSoFar(s, d, goal, m, raw, late, left, key, i, slot);
    }
    SetKeepsUntouched(s, d, goal, m, raw, late, left, key, i, slot);
    if late {
      SetKeepsFieldsOff(s, d, goal, m, raw, left, key, i, slot);
      SetKeepsKeysOff(s, d, goal, m, raw, left, key, i, slot);
    }
  }

  lemma SetKeepsSoFar(s: Schema, d: Descriptor, goal: Msg, m: Msg, raw: map<string, Raw>, late: bool, left: set<string>,
        key: string, i: nat, slot: Slot)
    requires WellFormed(s) && d in s.messages && MessageFits(s, d, goal) && DecodesMessage(s, d, goal, raw)
    requires ClashFree(s, d) && SoFar(d, goal, m, left) && left <= raw.Keys && key in left
    requires Resolve(d, key) == Some(i) && i < |d.fields| && Writes(s, d, goal, raw[key], late, key, i, slot)
    ensures SoFar(d, goal, Set(d, m, i, slot), left - {key})
  {
    ClashFreeInside(s, d);
    if key !in Names(d) {
      ClashFreeDiscriminator(s, d, goal, raw, key);
    } else {
      ResolveIs(d, key);
      assert KindClashFree(s, d.fields[i].kind);
      SetSoFar(s, d, goal, m, left, i);
    }
  }

  lemma SetKeepsUntouched(s: Schema, d: Descriptor, goal: Msg, m: Msg, raw: map<string, Raw>, late: bool,
        left: set<string>, key: string, i: nat, slot: Slot)
    requires WellFormed(s) && d in s.messages && Untouched(d, m, left) && key in left && key in raw
    requires Resolve(d, key) == Some(i) && i < |d.fields| && Writes(s, d, goal, raw[key], late, key, i, slot)
    ensures Untouched(d, Set(d, m, i, slot), left - {key})
  {
    NamesOf(s, d);
    ResolveIs(d, key);
    forall j | 0 <= j < |d.fields| && !d.fields[j].shape.Singular? && d.fields[j].name in left - {key}
      ensures SlotOf(Set(d, m, i, slot), j) == FreshSlot(d.fields[j])
    {
      assert j != i && FieldFits(s, d, d.fields[j]) && d.fields[j].oneof == None;
      assert SlotOf(Set(d, m, i, slot), j) == SlotOf(m, j);
    }
  }

  lemma SetKeepsFieldsOff(s: Schema, d: Descriptor, goal: Msg, m: Msg, raw: map<string, Raw>, left: set<string>,
        key: string, i: nat, slot: Slot)
    requires WellFormed(s) && d in s.messages && FieldsOff(s, d, goal, m, left) && key in left && key in raw
    requires Resolve(d, key) == Some(i) && i < |d.fields| && Writes(s, d, goal, raw[key], true, key, i, slot)
    ensures FieldsOff(s, d, goal, Set(d, m, i, slot), left - {key})
  {
    forall j | j in goal.slots && j < |d.fields| && SpoiledSlot(s, d.fields[j].kind, goal.slots[j]) &&
      d.fields[j].name !in left - {key}
      ensures SlotOf(Set(d, m, i, slot), j) != Some(goal.slots[j])
    {
      if j == i {
        SpoiledIsNotWritten(s, d, goal, raw[key], key, i, slot);
      } else {
        NameResolves(s, d, key, i, j);
        assert SlotOf(Set(d, m, i, slot), j) in {SlotOf(m, j), None};
      }
    }
  }

  lemma NameResolves(s: Schema, d: Descriptor, key: string, i: nat, j: nat)
    requires WellFormed(s) && d in s.messages && Resolve(d, key) == Some(i) && j < |d.fields| && j != i
    ensures d.fields[j].name != key
  {
    NamesOf(s, d);
    ResolveIs(d, key);
    assert d.fields[j].name in Names(d);
  }

  lemma SpoiledIsNotWritten(s: Schema, d: Descriptor, goal: Msg, raw: Raw, key: string, i: nat, slot: Slot)
    requires i < |d.fields| && Writes(s, d, goal, raw, true, key, i, slot)
    requires i in goal.slots && SpoiledSlot(s, d.fields[i].kind, goal.slots[i])
    ensures slot != goal.slots[i]
  {
    var inner := SpoiledInside(s, d.fields[i].kind, goal.slots[i]);
  }

  lemma SetKeepsKeysOff(s: Schema, d: Descriptor, goal: Msg, m: Msg, raw: map<string, Raw>, left: set<string>,
        key: string, i: nat, slot: Slot)
    requires WellFormed(s) && d in s.messages && MessageFits(s, d, goal) && DecodesMessage(s, d, goal, raw)
    requires KeysOff(s, d, goal, m, left) && left <= raw.Keys && NextKey(d, true, left, key)
    requires Resolve(d, key) == Some(i) && i < |d.fields| && Writes(s, d, goal, raw[key], true, key, i, slot)
    ensures KeysOff(s, d, goal, Set(d, m, i, slot), left - {key})
  {
    NamesOf(s, d);
    forall o: nat, k: nat | SpoiledAt(s, d, goal, o, k) && d.oneofs[o] !in left - {key}
      ensures left - {key} == {} && SlotOf(Set(d, m, i, slot), i) != SlotOf(goal, i) &&
        Resolve(d, d.oneofs[o]) == Some(i)
    {
      assert d.oneofs[o] == key;
      SpoilerComesLast(s, d, goal, raw, left, key, o, k);
      assert d.oneofs[o] in OneofNames(d);
      var p, q := OtherKeyIsDiscriminator(s, d, goal, raw, key);
      assert p == o;
      assert q == k;
    }
  }

  // ------------------------------------------------------------------------
  // Populating a fresh message, key by key
  // ------------------------------------------------------------------------

  /** populateDynamicMessage, for a fresh message, with the keys in whatever order they are ranged
      over. Unknown keys and nulls are passed over. */
  method Populate(s: Schema, d: Descriptor, raw: Raw, late: bool, ghost goal: Option<Msg>)
    returns (r: Result<Msg, Failure>)
    requires WellFormed(s) && d in s.messages && raw.Obj?
    requires goal.Some? ==>
      FaithfulFloats(s.floats) && MessageFits(s, d, goal.value) && DecodesMessage(s, d, goal.value, raw.entries)
    ensures goal.Some? && ClashFree(s, d) ==> r == Ok(goal.value)
    ensures goal.Some? && late && Spoiled(s, d, goal.value) ==> r != Ok(goal.value)
    ensures r.Ok? ==> MessageFits(s, d, r.value) && MessageFrom(s, d, raw, r.value)
    ensures r.Err? ==> exists key :: Told(d, raw, key)
    decreases raw, 2
  {
    FreshFits(s, d);
    var m := Fresh(d);
    var left := raw.entries.Keys;
    ghost var order: seq<string> := [];
    if goal.Some? {
      StartTracks(s, d, goal.value, raw.entries, late);
    }
    while left != {}
      invariant left <= raw.entries.Keys && MessageFits(s, d, m)
      invariant IsOrder(order, raw.entries.Keys - left) && Steps(s, d, raw, order, m)
      invariant goal.Some? ==> Tracks(s, d, goal.value, m, late, left)
      decreases left
    {
      SomeNextKey(d, late, left);
      var key :| NextKey(d, late, left, key);
      ghost var prior := m;
      var found := FindField(d, key);
      if found.None? || raw.entries[key] == Null {
        if goal.Some? {
          PassTracks(s, d, goal.value, m, raw.entries, late, left, key);
        }
      } else {
        r := PopulateKey(s, d, m, raw, late, left, key, found.value, goal);
        if r.Err? {
          return;
        }
        m := r.value;
      }
      NextStep(s, d, raw, order, key, prior, m);
      order, left := order + [key], left - {key};
    }
    if goal.Some? {
      EndTracks(s, d, goal.value, m, late);
    }
    r := Ok(m);
  }

  lemma SomeNextKey(d: Descriptor, late: bool, left: set<string>)
    requires left != {}
    ensures exists key :: NextKey(d, late, left, key)
  {
    if left !! Names(d) {
      var key :| key in left;
      assert NextKey(d, late, left, key);
    } else {
      var key :| key in left && key in Names(d);
      assert NextKey(d, late, left, key);
    }
  }

  /** One key of the range over the object. */
  method PopulateKey(s: Schema, d: Descriptor, m: Msg, raw: Raw, late: bool, ghost left: set<string>, key: string,
        i: nat, ghost goal: Option<Msg>)
    returns (r: Result<Msg, Failure>)
    requires WellFormed(s) && d in s.messages && raw.Obj? && MessageFits(s, d, m) && left <= raw.entries.Keys
    requires NextKey(d, late, left, key) && Resolve(d, key) == Some(i) && raw.entries[key] != Null
    requires goal.Some? ==>
      FaithfulFloats(s.floats) && MessageFits(s, d, goal.value) && DecodesMessage(s, d, goal.value, raw.entries)
    requires goal.Some? ==> Tracks(s, d, goal.value, m, late, left)
    ensures goal.Some? && ClashFree(s, d) ==> r.Ok?
    ensures goal.Some? && r.Ok? ==> Tracks(s, d, goal.value, r.value, late, left - {key})
    ensures Told(d, raw, key)
    ensures r.Ok? ==> MessageFits(s, d, r.value) && KeyStep(s, d, raw, key, m, r.value)
    decreases raw, 1
  {
    ResolveIs(d, key);
    NamesOf(s, d);
    ghost var target := Target(d, goal, key, i);
    if goal.Some? {
      TargetIsDecoded(s, d, goal.value, m, raw.entries, late, left, key, i);
    }
    r := SetField(s, d, m, i, raw.entries[key], late, target);
    if goal.Some? && r.Ok? {
      SetTracks(s, d, goal.value, m, raw.entries, late, left, key, i, r.value.slots[i]);
    }
  }

  lemma TargetIsDecoded(s: Schema, d: Descriptor, goal: Msg, m: Msg, raw: map<string, Raw>, late: bool,
        left: set<string>, key: string, i: nat)
    requires WellFormed(s) && d in s.messages && MessageFits(s, d, goal) && DecodesMessage(s, d, goal, raw)
    requires Tracks(s, d, goal, m, late, left) && key in left && key in raw && Resolve(d, key) == Some(i) &&
      raw[key] != Null
    ensures i < |d.fields|
    ensures key in Names(d) ==>
      i in goal.slots && SlotFits(s, d.fields[i], goal.slots[i]) && DecodesSlot(s, d.fields[i], goal.slots[i], raw[key])
    ensures key in Names(d) && !d.fields[i].shape.Singular? ==>
      i in m.slots && FreshSlot(d.fields[i]) == Some(m.slots[i])
    ensures key !in Names(d) ==> raw[key].Str?
    ensures ClashFree(s, d) ==> key in Names(d) && KindClashFree(s, d.fields[i].kind)
  {
    ResolveIs(d, key);
    if key in Names(d) {
      NameIsField(s, d, goal, raw, key);
    } else {
      var o, j := OtherKeyIsDiscriminator(s, d, goal, raw, key);
    }
    if ClashFree(s, d) {
      ClashFreeInside(s, d);
      if key !in Names(d) {
        ClashFreeDiscriminator(s, d, goal, raw, key);
      }
    }
  }

  // ------------------------------------------------------------------------
  // The round trip
  // ------------------------------------------------------------------------

  /** Decoding a message to a map and encoding the map into a fresh message gives an equal message,
      in whatever order maps are ranged over, if the message type is free of clashes. */
  method RoundTrip(s: Schema, d: Descriptor, m: Msg) returns (r: Result<Msg, Failure>)
    requires WellFormed(s) && ClashFree(s, d) && FaithfulFloats(s.floats) && d in s.messages && MessageFits(s, d, m)
    ensures r == Ok(m)
  {
    var entries := DecodeMessage(s, d, m);
    r := Populate(s, d, Obj(entries), false, Some(m));
  }

  /** A spoiled message does not survive, once the keys of oneofs are ranged over last. A message type
      has one exactly when it is not free of clashes (DynamicFields.ClashFreeIff). */
  method SpoiledRoundTrip(s: Schema, d: Descriptor, m: Msg) returns (r: Result<Msg, Failure>)
    requires WellFormed(s) && Spoiled(s, d, m) && FaithfulFloats(s.floats) && d in s.messages && MessageFits(s, d, m)
    ensures r != Ok(m)
  {
    var entries := DecodeMessage(s, d, m);
    r := Populate(s, d, Obj(entries), true, Some(m));
  }

  function ClashingSchema(fl: Floats, base64: string -> Option<seq<int>>): Schema {
    Schema([Descriptor([Field("x", "x", Bool, Singular(true), Some(0)),
      Field("foo_bar", "fooBar", Int32, Singular(false), None)], ["fooBar"])], [], fl, base64)
  }

  const CLASHING := Msg(map[0 := One(VBool(true)), 1 := One(VInt(0))])

  lemma ClashingFits(fl: Floats, base64: string -> Option<seq<int>>)
    ensures var s := ClashingSchema(fl, base64);
      WellFormed(s) && s.messages[0] in s.messages && MessageFits(s, s.messages[0], CLASHING)
  {
    ClashingIsWellFormed(fl, base64);
    var d := ClashingSchema(fl, base64).messages[0];
    assert d.fields[0].shape == Singular(true) && d.fields[1].shape == Singular(false) && d.fields[1].oneof == None;
  }

  lemma ClashingIsWellFormed(fl: Floats, base64: string -> Option<seq<int>>)
    ensures WellFormed(ClashingSchema(fl, base64))
  {
  }

  /** With such a oneof the round trip fails: the discriminator reaches an integer field. */
  method ClashBreaksRoundTrip(fl: Floats, base64: string -> Option<seq<int>>) returns (r: Result<Msg, Failure>)
    ensures r.Err?
  {
    var s := ClashingSchema(fl, base64);
    var d := s.messages[0];
    ClashingFits(fl, base64);
    var entries := DecodeMessage(s, d, CLASHING);
    ClashingText(fl, base64, entries);
    r := Populate(s, d, Obj(entries), false, None);
    if r.Ok? {
      ClashingIsRefused(s, Obj(entries), r.value);
    }
  }

  lemma ClashingIsRefused(s: Schema, raw: Raw, m: Msg)
    requires s == ClashingSchema(s.floats, s.base64) && Gives(s.messages[0], raw, "fooBar", 1)
    requires raw.entries["fooBar"] == Str("x")
    ensures !MessageFrom(s, s.messages[0], raw, m)
  {
    assert Denoted(s.floats, Str("x")) == None;
    if MessageFrom(s, s.messages[0], raw, m) {
      EveryGivenIsTaken(s, s.messages[0], raw, m, "fooBar", 1);
    }
  }

  lemma ClashingText(fl: Floats, base64: string -> Option<seq<int>>, entries: map<string, Raw>)
    requires DecodesMessage(ClashingSchema(fl, base64), ClashingSchema(fl, base64).messages[0], CLASHING, entries)
    ensures var s := ClashingSchema(fl, base64);
      Gives(s.messages[0], Obj(entries), "fooBar", 1) && entries["fooBar"] == Str("x")
  {
    var d := ClashingSchema(fl, base64).messages[0];
    assert DecodesOneof(d, CLASHING, 0, entries) && SelectedIn(d, CLASHING, 0, 0);
    assert !SelectedIn(d, CLASHING, 0, 1);
    ResolveIs(d, "fooBar");
    assert d.fields[1].jsonName == "fooBar";
  }
}
