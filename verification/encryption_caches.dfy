/** The two mutually populated caches of encryption/encryption.go. Sealing and opening are abstract;
    all that is assumed of them is that opening a freshly sealed text returns its message. */
module EncryptionCaches {
  import opened Options
  import opened LruCache

  /** AES-GCM with base64 framing, under one key and nonce. */
  datatype Codec = Codec(seal: string -> string, open: string -> Result<string, nat>)

  ghost predicate Sound(c: Codec) {
    forall m :: c.open(c.seal(m)) == Ok(m)
  }

  datatype Limits = Limits(max: int, maxSize: int)

  datatype Caches = Caches(enc: seq<Entry>, dec: seq<Entry>)

  /** One critical section of some goroutine. The sections of one Encrypt or Decrypt call are
      separate, so that those of other calls may come between them. */
  datatype Event =
    | LookUpMessage(message: string)
    | LookUpText(text: string)
    | StoreSealedForEncrypt(message: string)
    | StoreSealedForDecrypt(message: string)
    | StoreOpenedForDecrypt(text: string)
    | StoreOpenedForEncrypt(text: string)

  /** Decrypt stores only what it has opened. */
  predicate Enabled(c: Codec, e: Event) {
    e.StoreOpenedForDecrypt? || e.StoreOpenedForEncrypt? ==> c.open(e.text).Ok?
  }

  function Apply(c: Codec, l: Limits, s: Caches, e: Event): Caches
    requires Enabled(c, e)
  {
    match e
    case LookUpMessage(m) => s.(enc := Touched(s.enc, m))
    case LookUpText(t) => s.(dec := Touched(s.dec, t))
    case StoreSealedForEncrypt(m) => s.(enc := Stored(s.enc, m, c.seal(m), l.max, l.maxSize))
    case StoreSealedForDecrypt(m) => s.(dec := Stored(s.dec, c.seal(m), m, l.max, l.maxSize))
    case StoreOpenedForDecrypt(t) => s.(dec := Stored(s.dec, t, c.open(t).value, l.max, l.maxSize))
    case StoreOpenedForEncrypt(t) => s.(enc := Stored(s.enc, c.open(t).value, t, l.max, l.maxSize))
  }

  predicate Enableds(c: Codec, events: seq<Event>) {
    forall e :: e in events ==> Enabled(c, e)
  }

  function Run(c: Codec, l: Limits, events: seq<Event>): Caches
    requires Enableds(c, events)
  {
    if events == [] then Caches([], [])
    else Apply(c, l, Run(c, l, events[..|events| - 1]), events[|events| - 1])
  }

  /** What Encrypt returns in a state: the cached text, or a fresh one. */
  function EncryptResult(c: Codec, s: Caches, message: string): string {
    match Find(s.enc, message)
    case Some(text) => text
    case None => c.seal(message)
  }

  function DecryptResult(c: Codec, s: Caches, text: string): Result<string, nat> {
    match Find(s.dec, text)
    case Some(message) => Ok(message)
    case None => c.open(text)
  }

  /** Every cached pair is a text that opens to the message. */
  predicate Coherent(c: Codec, s: Caches) {
    && (forall e :: e in s.enc ==> c.open(e.value) == Ok(e.key))
    && (forall e :: e in s.dec ==> c.open(e.key) == Ok(e.value))
  }

  lemma {:induction false} FoundIsEntry(entries: seq<Entry>, key: string)
    requires Find(entries, key).Some?
    ensures Entry(key, Find(entries, key).value) in entries
  {
    if entries[0].key != key {
      FoundIsEntry(entries[1..], key);
    } else {
      assert entries[0] == Entry(key, Find(entries, key).value);
    }
  }

  lemma {:induction false} WithoutMembers(entries: seq<Entry>, key: string)
    ensures forall e :: e in Without(entries, key) ==> e in entries
  {
    if entries != [] && entries[0].key != key {
      WithoutMembers(entries[1..], key);
    }
  }

  lemma TouchedMembers(entries: seq<Entry>, key: string)
    ensures forall e :: e in Touched(entries, key) ==> e in entries
  {
    if Find(entries, key).Some? {
      FoundIsEntry(entries, key);
      WithoutMembers(entries, key);
    }
  }

  lemma StoredMembers(entries: seq<Entry>, key: string, value: string, max: int, maxSize: int)
    ensures forall e :: e in Stored(entries, key, value, max, maxSize) ==> e in entries || e == Entry(key, value)
  {
    WithoutMembers(entries, key);
    TrimIsLongestPrefix([Entry(key, value)] + Without(entries, key), max, maxSize);
  }

  lemma StepKeepsCoherent(c: Codec, l: Limits, s: Caches, e: Event)
    requires Sound(c) && Coherent(c, s) && Enabled(c, e)
    ensures Coherent(c, Apply(c, l, s, e))
  {
    match e
    case LookUpMessage(m) => TouchedMembers(s.enc, m);
    case LookUpText(t) => TouchedMembers(s.dec, t);
    case StoreSealedForEncrypt(m) => StoredMembers(s.enc, m, c.seal(m), l.max, l.maxSize);
    case StoreSealedForDecrypt(m) => StoredMembers(s.dec, c.seal(m), m, l.max, l.maxSize);
    case StoreOpenedForDecrypt(t) => StoredMembers(s.dec, t, c.open(t).value, l.max, l.maxSize);
    case StoreOpenedForEncrypt(t) => StoredMembers(s.enc, c.open(t).value, t, l.max, l.maxSize);
  }

  lemma {:induction false} RunIsCoherent(c: Codec, l: Limits, events: seq<Event>)
    requires Sound(c) && Enableds(c, events)
    ensures Coherent(c, Run(c, l, events))
  {
    if events != [] {
      RunIsCoherent(c, l, events[..|events| - 1]);
      StepKeepsCoherent(c, l, Run(c, l, events[..|events| - 1]), events[|events| - 1]);
    }
  }

  /** In every reachable state, whatever was evicted and however calls interleave, Decrypt answers
      as it would without a cache, errors included, and Encrypt answers with a text that opens to
      its message, though not always the text that sealing would give. */
  lemma CachesAreTransparent(c: Codec, l: Limits, events: seq<Event>, message: string, text: string)
    requires Sound(c) && Enableds(c, events)
    ensures DecryptResult(c, Run(c, l, events), text) == c.open(text)
    ensures c.open(EncryptResult(c, Run(c, l, events), message)) == Ok(message)
  {
    var s := Run(c, l, events);
    RunIsCoherent(c, l, events);
    LookUpKeepsCoherent(c, s, message, text);
  }

  /** Decrypt gives back what Encrypt was given, with any number of other calls in between. */
  lemma RoundTrip(c: Codec, l: Limits, before: seq<Event>, between: seq<Event>, message: string)
    requires Sound(c) && Enableds(c, before) && Enableds(c, before + between)
    ensures DecryptResult(c, Run(c, l, before + between), EncryptResult(c, Run(c, l, before), message)) == Ok(message)
  {
    var text := EncryptResult(c, Run(c, l, before), message);
    CachesAreTransparent(c, l, before, message, text);
    CachesAreTransparent(c, l, before + between, message, text);
  }

  // ------------------------------------------------------------------------
  // Encrypt is not a function of its message
  // ------------------------------------------------------------------------

  /** An entry that the limits admit on its own. */
  predicate FitsAlone(l: Limits, e: Entry) {
    1 <= l.max && e.Size() <= l.maxSize
  }

  lemma {:induction false} MemberSize(entries: seq<Entry>, e: Entry)
    requires e in entries
    ensures e.Size() <= Sum(entries)
  {
    if e in entries[..|entries| - 1] {
      MemberSize(entries[..|entries| - 1], e);
    }
  }

  /** Nothing is kept that does not fit on its own. */
  lemma StoredFits(entries: seq<Entry>, key: string, value: string, l: Limits)
    ensures forall e :: e in Stored(entries, key, value, l.max, l.maxSize) ==> FitsAlone(l, e)
  {
    var after := Stored(entries, key, value, l.max, l.maxSize);
    TrimIsLongestPrefix([Entry(key, value)] + Without(entries, key), l.max, l.maxSize);
    forall e | e in after
      ensures FitsAlone(l, e)
    {
      MemberSize(after, e);
    }
  }

  lemma {:induction false} RunFits(c: Codec, l: Limits, events: seq<Event>)
    requires Enableds(c, events)
    ensures forall e :: e in Run(c, l, events).enc ==> FitsAlone(l, e)
  {
    if events != [] {
      var s, last := Run(c, l, events[..|events| - 1]), events[|events| - 1];
      RunFits(c, l, events[..|events| - 1]);
      assert Enabled(c, last);
      match last
      case LookUpMessage(m) => TouchedMembers(s.enc, m);
      case StoreSealedForEncrypt(m) => StoredFits(s.enc, m, c.seal(m), l);
      case StoreOpenedForEncrypt(t) => StoredFits(s.enc, c.open(t).value, t, l);
      case _ =>
    }
  }

  /** A decrypted text that fits becomes the answer of Encrypt for its message. */
  lemma EncryptReturnsTheDecryptedText(c: Codec, l: Limits, text: string)
    requires c.open(text).Ok? && FitsAlone(l, Entry(c.open(text).value, text))
    ensures EncryptResult(c, Run(c, l, [StoreOpenedForEncrypt(text)]), c.open(text).value) == text
  {
    var e := StoreOpenedForEncrypt(text);
    assert [e][..0] == [];
    assert Run(c, l, [e]) == Apply(c, l, Run(c, l, []), e);
    StoredContents([], c.open(text).value, text, l.max, l.maxSize);
  }

  /** Another text for the message, which the encryption cache can hold. */
  predicate OtherText(c: Codec, l: Limits, message: string, text: string) {
    text != c.seal(message) && c.open(text) == Ok(message) && FitsAlone(l, Entry(message, text))
  }

  /** Encrypt answers with the freshly sealed text in every reachable state. */
  ghost predicate AlwaysSeals(c: Codec, l: Limits, message: string) {
    forall events :: Enableds(c, events) ==> EncryptResult(c, Run(c, l, events), message) == c.seal(message)
  }

  /** Encrypt is a function of its message exactly where no other text that opens to it fits. */
  lemma EncryptSealsIff(c: Codec, l: Limits, message: string)
    requires Sound(c)
    ensures AlwaysSeals(c, l, message) <==> !exists text :: OtherText(c, l, message, text)
  {
    if text :| OtherText(c, l, message, text) {
      EncryptReturnsTheDecryptedText(c, l, text);
      assert Enableds(c, [StoreOpenedForEncrypt(text)]);
    } else {
      forall events | Enableds(c, events)
        ensures EncryptResult(c, Run(c, l, events), message) == c.seal(message)
      {
        var s := Run(c, l, events);
        if Find(s.enc, message).Some? {
          RunIsCoherent(c, l, events);
          RunFits(c, l, events);
          FoundIsEntry(s.enc, message);
          assert !OtherText(c, l, message, Find(s.enc, message).value);
        }
      }
    }
  }

  // ------------------------------------------------------------------------
  // The manager
  // ------------------------------------------------------------------------

  lemma LookUpKeepsCoherent(c: Codec, s: Caches, message: string, text: string)
    requires Coherent(c, s)
    ensures Coherent(c, s.(enc := Touched(s.enc, message))) && Coherent(c, s.(dec := Touched(s.dec, text)))
    ensures Find(s.enc, message).Some? ==> c.open(Find(s.enc, message).value) == Ok(message)
    ensures Find(s.dec, text).Some? ==> c.open(text) == Ok(Find(s.dec, text).value)
  {
    TouchedMembers(s.enc, message);
    TouchedMembers(s.dec, text);
    if Find(s.enc, message).Some? {
      FoundIsEntry(s.enc, message);
    }
    if Find(s.dec, text).Some? {
      FoundIsEntry(s.dec, text);
    }
  }

  ghost predicate Disjoint(a: seq<Node>, b: seq<Node>) {
    forall i, j :: 0 <= i < |a| && 0 <= j < |b| ==> a[i] != b[j]
  }

  lemma StillDisjoint(a: seq<Node>, a': seq<Node>, b: seq<Node>)
    requires (Disjoint(a, b) || Disjoint(b, a)) && forall i :: 0 <= i < |a'| ==> a'[i] in a
    ensures Disjoint(a', b) && Disjoint(b, a')
  {
    forall i, j | 0 <= i < |a'| && 0 <= j < |b|
      ensures a'[i] != b[j]
    {
      var k :| 0 <= k < |a| && a[k] == a'[i];
      assert a[k] != b[j];
    }
  }

  /** Get leaves another cache alone. */
  method GetApart(cache: Cache, other: Cache, key: string) returns (value: Option<string>)
    requires cache != other && cache.Valid() && other.Valid() &&
      (Disjoint(cache.nodes, other.nodes) || Disjoint(other.nodes, cache.nodes))
    modifies cache, cache.nodes
    ensures cache.Valid() && other.Valid() && other.entries == old(other.entries)
    ensures Disjoint(cache.nodes, other.nodes) && Disjoint(other.nodes, cache.nodes)
    ensures cache.entries == Touched(old(cache.entries), key) && value == Find(old(cache.entries), key)
    ensures forall i :: 0 <= i < |cache.nodes| ==> cache.nodes[i] in old(cache.nodes)
  {
    ghost var nodes := cache.nodes;
    value := cache.Get(key);
    StillDisjoint(nodes, cache.nodes, other.nodes);
  }

  class Manager {
    const codec: Codec
    const encryptionCache: Cache
    const decryptionCache: Cache

    ghost predicate Valid()
      reads this, encryptionCache, decryptionCache, encryptionCache.nodes, decryptionCache.nodes
    {
      && encryptionCache != decryptionCache && encryptionCache.Valid() && decryptionCache.Valid()
      && Disjoint(encryptionCache.nodes, decryptionCache.nodes)
      && Coherent(codec, Caches(encryptionCache.entries, decryptionCache.entries))
    }

    constructor (codec: Codec, max: int, maxSize: int)
      ensures Valid() && this.codec == codec && encryptionCache.entries == [] && decryptionCache.entries == []
    {
      this.codec := codec;
      encryptionCache := new Cache(max, maxSize);
      decryptionCache := new Cache(max, maxSize);
    }

    method StoreMessage(message: string, text: string)
      requires Valid() && codec.open(text) == Ok(message)
      modifies encryptionCache, encryptionCache.nodes
      ensures Valid()
      ensures forall i ::
        0 <= i < |encryptionCache.nodes| ==>
          encryptionCache.nodes[i] in old(encryptionCache.nodes) || fresh(encryptionCache.nodes[i])
    {
      StoredMembers(encryptionCache.entries, message, text, encryptionCache.max, encryptionCache.maxSize);
      encryptionCache.Set(message, text);
    }

    method StoreText(text: string, message: string)
      requires Valid() && codec.open(text) == Ok(message)
      modifies decryptionCache, decryptionCache.nodes
      ensures Valid()
      ensures forall i ::
        0 <= i < |decryptionCache.nodes| ==>
          decryptionCache.nodes[i] in old(decryptionCache.nodes) || fresh(decryptionCache.nodes[i])
    {
      StoredMembers(decryptionCache.entries, text, message, decryptionCache.max, decryptionCache.maxSize);
      decryptionCache.Set(text, message);
    }

    method LookUp(message: string) returns (cached: Option<string>)
      requires Valid()
      modifies encryptionCache, encryptionCache.nodes
      ensures Valid() && cached == Find(old(encryptionCache.entries), message)
      ensures cached.Some? ==> codec.open(cached.value) == Ok(message)
      ensures forall i :: 0 <= i < |encryptionCache.nodes| ==> encryptionCache.nodes[i] in old(encryptionCache.nodes)
    {
      ghost var s := Caches(encryptionCache.entries, decryptionCache.entries);
      cached := GetApart(encryptionCache, decryptionCache, message);
      LookUpKeepsCoherent(codec, s, message, "");
    }

    method LookUpDecrypted(text: string) returns (cached: Option<string>)
      requires Valid()
      modifies decryptionCache, decryptionCache.nodes
      ensures Valid() && cached == Find(old(decryptionCache.entries), text)
      ensures cached.Some? ==> codec.open(text) == Ok(cached.value)
      ensures forall i :: 0 <= i < |decryptionCache.nodes| ==> decryptionCache.nodes[i] in old(decryptionCache.nodes)
    {
      LookUpKeepsCoherent(codec, Caches(encryptionCache.entries, decryptionCache.entries), "", text);
      cached := GetApart(decryptionCache, encryptionCache, text);
    }

    method Encrypt(message: string) returns (text: string)
      requires Valid() && Sound(codec)
      modifies encryptionCache, decryptionCache, encryptionCache.nodes, decryptionCache.nodes
      ensures Valid() && codec.open(text) == Ok(message)
      ensures text == EncryptResult(codec, Caches(old(encryptionCache.entries), old(decryptionCache.entries)), message)
    {
      var cached := LookUp(message);
      if cached.Some? {
        return cached.value;
      }
      text := codec.seal(message);
      StoreMessage(message, text);
      StoreText(text, message);
    }

    method Decrypt(text: string) returns (r: Result<string, nat>)
      requires Valid()
      modifies encryptionCache, decryptionCache, encryptionCache.nodes, decryptionCache.nodes
      ensures Valid() && r == codec.open(text)
    {
      var cached := LookUpDecrypted(text);
      if cached.Some? {
        return Ok(cached.value);
      }
      r := codec.open(text);
      if r.Ok? {
        StoreText(text, r.value);
        StoreMessage(r.value, text);
      }
    }
  }
}
