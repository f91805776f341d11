/** The token bucket of logging/ratelimit.go and the handlers that share buckets. Time and balances
    are reals: rounding is not part of this model. */
module TokenBuckets {
  import opened Options

  /** One call of Allow. */
  datatype Call = Call(time: real, allowed: bool)

  /** How many of the calls from `from` to before `k` were allowed. */
  function Allowed(log: seq<Call>, from: nat, k: nat): real
    requires from <= k <= |log|
  {
    if from == k then 0.0 else Allowed(log, from, k - 1) + if log[k - 1].allowed then 1.0 else 0.0
  }

  /** What flows in between two moments. */
  function Flow(rate: real, since: real, until: real): real {
    rate * (until - since)
  }

  lemma FlowAdds(rate: real, a: real, b: real, c: real)
    ensures Flow(rate, a, c) == Flow(rate, a, b) + Flow(rate, b, c)
  {
    assert c - a == (b - a) + (c - b);
  }

  lemma FlowIsPositive(rate: real, a: real, b: real)
    requires rate >= 0.0 && a <= b
    ensures Flow(rate, a, b) >= 0.0
  {
  }

  /** Between any two calls, both included, no more than a full bucket and what has flowed in. */
  ghost predicate WindowBound(log: seq<Call>, rate: real, max: real) {
    forall i, j :: 0 <= i <= j < |log| ==> Window(log, rate, max, i, j)
  }

  ghost predicate Window(log: seq<Call>, rate: real, max: real, i: nat, j: nat)
    requires i <= j < |log|
  {
    Allowed(log, i, j + 1) <= max + Flow(rate, log[i].time, log[j].time)
  }

  /** What the balance still allows, for a window that started at any call. */
  ghost predicate Reserve(log: seq<Call>, rate: real, max: real, balance: real, last: real, i: nat)
    requires i < |log|
  {
    Allowed(log, i, |log|) + balance <= max + Flow(rate, log[i].time, last)
  }

  ghost predicate Accounts(log: seq<Call>, rate: real, max: real, balance: real, last: real) {
    && (forall i :: 0 <= i < |log| ==> Reserve(log, rate, max, balance, last, i))
    && (forall i :: 0 <= i < |log| ==> log[i].time <= last)
    && (balance >= 0.0 || forall i :: 0 <= i < |log| ==> !log[i].allowed)
  }

  lemma {:induction false} AllowedAppend(log: seq<Call>, c: Call, from: nat, k: nat)
    requires from <= k <= |log|
    ensures Allowed(log + [c], from, k) == Allowed(log, from, k)
  {
    if from < k {
      AllowedAppend(log, c, from, k - 1);
    }
  }

  lemma {:induction false} NoneAllowed(log: seq<Call>, from: nat, k: nat)
    requires from <= k <= |log| && forall i :: from <= i < k ==> !log[i].allowed
    ensures Allowed(log, from, k) == 0.0
  {
    if from < k {
      NoneAllowed(log, from, k - 1);
    }
  }

  /** The balance after refilling for the time passed, up to the cap. */
  function Refilled(balance: real, rate: real, max: Option<real>, last: real, now: real): real {
    var refilled := balance + Flow(rate, last, now);
    if max.Some? && refilled > max.value then max.value else refilled
  }

  function Left(refilled: real): real {
    if refilled >= 1.0 then refilled - 1.0 else refilled
  }

  lemma ReserveNext(log: seq<Call>, rate: real, max: real, balance: real, last: real, now: real, refilled: real, i: nat)
    requires i < |log| && Reserve(log, rate, max, balance, last, i)
    requires refilled <= balance + Flow(rate, last, now)
    ensures Reserve(log + [Call(now, refilled >= 1.0)], rate, max, Left(refilled), now, i)
  {
    AllowedAppend(log, Call(now, refilled >= 1.0), i, |log|);
    FlowAdds(rate, log[i].time, last, now);
  }

  lemma ReserveNew(log: seq<Call>, rate: real, max: real, now: real, refilled: real)
    requires refilled <= max
    ensures Reserve(log + [Call(now, refilled >= 1.0)], rate, max, Left(refilled), now, |log|)
  {
    var more := log + [Call(now, refilled >= 1.0)];
    assert Allowed(more, |log|, |log|) == 0.0;
    assert Flow(rate, now, now) == 0.0;
  }

  /** The window that ends with the newest call. */
  lemma WindowNext(more: seq<Call>, rate: real, max: real, left: real, i: nat)
    requires rate >= 0.0 && max > 0.0 && i < |more|
    requires Accounts(more, rate, max, left, more[|more| - 1].time)
    ensures Window(more, rate, max, i, |more| - 1)
  {
    assert Reserve(more, rate, max, left, more[|more| - 1].time, i);
    if left < 0.0 {
      NoneAllowed(more, i, |more|);
      FlowIsPositive(rate, more[i].time, more[|more| - 1].time);
    }
  }

  /** One call keeps the accounts and the bound. */
  lemma CallKeepsAccounts(log: seq<Call>, rate: real, max: real, balance: real, last: real, now: real)
    requires rate >= 0.0 && max > 0.0 && last <= now
    requires Accounts(log, rate, max, balance, last) && WindowBound(log, rate, max)
    ensures var refilled := Refilled(balance, rate, Some(max), last, now);
      var more := log + [Call(now, refilled >= 1.0)];
      Accounts(more, rate, max, Left(refilled), now) && WindowBound(more, rate, max)
  {
    var refilled := Refilled(balance, rate, Some(max), last, now);
    var more := log + [Call(now, refilled >= 1.0)];
    FlowIsPositive(rate, last, now);
    forall i | 0 <= i < |more|
      ensures Reserve(more, rate, max, Left(refilled), now, i)
    {
      if i < |log| {
        ReserveNext(log, rate, max, balance, last, now, refilled, i);
      } else {
        ReserveNew(log, rate, max, now, refilled);
      }
    }
    assert Accounts(more, rate, max, Left(refilled), now);
    forall i, j | 0 <= i <= j < |more|
      ensures Window(more, rate, max, i, j)
    {
      if j < |log| {
        AllowedAppend(log, Call(now, refilled >= 1.0), i, j + 1);
        assert Window(log, rate, max, i, j);
      } else {
        WindowNext(more, rate, max, Left(refilled), i);
      }
    }
  }

  class TokenBucket {
    const rate: real
    const max: Option<real>        // None: unbounded
    var balance: real
    var lastCheck: real
    ghost var log: seq<Call>       // every call, whichever handler made it

    ghost predicate Valid()
      reads this
    {
      rate >= 0.0 && max.Some? && max.value > 0.0 ==>
        Accounts(log, rate, max.value, balance, lastCheck) && WindowBound(log, rate, max.value)
    }

    /** NewTokenBucket: a maximum of zero or less means none. */
    constructor (rate: real, starting: real, maximum: real, now: real)
      ensures Valid() && log == [] && lastCheck == now && balance == starting
      ensures this.rate == rate && max == if maximum <= 0.0 then None else Some(maximum)
    {
      this.rate := rate;
      max := if maximum <= 0.0 then None else Some(maximum);
      balance, lastCheck, log := starting, now, [];
    }

    method Allow(now: real) returns (allowed: bool)
      requires Valid() && lastCheck <= now
      modifies this
      ensures Valid() && lastCheck == now && log == old(log) + [Call(now, allowed)]
      ensures var refilled := Refilled(old(balance), rate, max, old(lastCheck), now);
        allowed == (refilled >= 1.0) && balance == Left(refilled)
    {
      if rate >= 0.0 && max.Some? && max.value > 0.0 {
        CallKeepsAccounts(log, rate, max.value, balance, lastCheck, now);
      }
      balance := balance + Flow(rate, lastCheck, now);
      lastCheck := now;
      if max.Some? && balance > max.value {
        balance := max.value;
      }
      allowed := balance >= 1.0;
      if allowed {
        balance := balance - 1.0;
      }
      log := log + [Call(now, allowed)];
    }
  }

  /** In every run of a bucket with a rate that is not negative and a positive maximum, on a clock
      that does not run backwards: between any two calls, both included, at most the maximum and
      what flowed in were allowed. */
  lemma BucketIsBounded(b: TokenBucket, i: nat, j: nat)
    requires b.Valid() && b.rate >= 0.0 && b.max.Some? && b.max.value > 0.0 && i <= j < |b.log|
    ensures Allowed(b.log, i, j + 1) <= b.max.value + b.rate * (b.log[j].time - b.log[i].time)
  {
    assert Window(b.log, b.rate, b.max.value, i, j);
  }

  // ------------------------------------------------------------------------
  // Handlers
  // ------------------------------------------------------------------------

  class Handler {
    const buckets: map<int, TokenBucket>
    const def: TokenBucket?

    constructor (buckets: map<int, TokenBucket>, def: TokenBucket?)
      ensures this.buckets == buckets && this.def == def
    {
      this.buckets, this.def := buckets, def;
    }

    /** The bucket a level is charged to. */
    function BucketOf(level: int): TokenBucket? {
      if level in buckets then buckets[level] else def
    }

    /** allow: the record costs its level's bucket one call, and no other bucket anything. */
    method Allow(level: int, now: real) returns (allowed: bool)
      requires BucketOf(level) != null ==> BucketOf(level).Valid() && BucketOf(level).lastCheck <= now
      modifies BucketOf(level)
      ensures BucketOf(level) == null ==> allowed
      ensures BucketOf(level) != null ==> BucketOf(level).Valid() && BucketOf(level).lastCheck == now
      ensures BucketOf(level) != null ==> BucketOf(level).log == old(BucketOf(level).log) + [Call(now, allowed)]
    {
      var bucket := BucketOf(level);
      allowed := true;
      if bucket != null {
        allowed := bucket.Allow(now);
      }
    }

    /** WithAttrs and WithGroup: a handler that draws on the same buckets. */
    method Derive() returns (h: Handler)
      ensures fresh(h) && h.buckets == buckets && h.def == def
    {
      h := new Handler(buckets, def);
    }
  }

  /** What a program does with a handler and those derived from it, numbered in order of creation. */
  datatype Op = Derived(parent: nat) | Emitted(handler: nat, level: int, now: real)

  /** How many handlers there are after these operations on one. */
  function Handlers(ops: seq<Op>): nat {
    if ops == [] then 1 else Handlers(ops[..|ops| - 1]) + if ops[|ops| - 1].Derived? then 1 else 0
  }

  /** Operation i is on a handler that exists by then. */
  predicate InScope(ops: seq<Op>, i: nat)
    requires i < |ops|
  {
    match ops[i]
    case Derived(parent) => parent < Handlers(ops[..i])
    case Emitted(handler, _, _) => handler < Handlers(ops[..i])
  }

  /** The clock does not run backwards. */
  predicate InOrder(ops: seq<Op>, start: real) {
    && (forall i :: 0 <= i < |ops| && ops[i].Emitted? ==> start <= ops[i].now)
    && (forall i, j :: 0 <= i < j < |ops| && ops[i].Emitted? && ops[j].Emitted? ==> ops[i].now <= ops[j].now)
  }

  /** The calls charged to bucket b: every record of one of its levels, through whichever handler. */
  function Charged(h: Handler, b: TokenBucket, ops: seq<Op>, outcomes: seq<bool>): seq<Call>
    requires |outcomes| == |ops|
  {
    if ops == [] then []
    else
      var n := |ops| - 1;
      Charged(h, b, ops[..n], outcomes[..n])
      + Charge(h, b, ops[n], outcomes[n])
  }

  /** The buckets have kept their accounts, up to a moment. */
  ghost predicate Kept(buckets: set<TokenBucket>, until: real)
    reads buckets
  {
    forall b :: b in buckets ==> b.Valid() && b.lastCheck <= until
  }

  /** The handlers all draw on the first one's buckets. */
  predicate Family(h: Handler, handlers: seq<Handler>) {
    forall i :: 0 <= i < |handlers| ==> SameBuckets(h, handlers[i])
  }

  predicate SameBuckets(h: Handler, d: Handler) {
    d.buckets == h.buckets && d.def == h.def
  }

  /** At most the maximum and what flowed in, between any two calls of any of the buckets. */
  ghost predicate AllBounded(buckets: set<TokenBucket>)
    reads buckets
  {
    forall b, i, j :: b in buckets && b.rate >= 0.0 && b.max.Some? && b.max.value > 0.0 && 0 <= i <= j < |b.log| ==>
      Allowed(b.log, i, j + 1) <= b.max.value + b.rate * (b.log[j].time - b.log[i].time)
  }

  lemma KeptIsBounded(buckets: set<TokenBucket>, until: real)
    requires Kept(buckets, until)
    ensures AllBounded(buckets)
  {
    forall b, i, j | b in buckets && b.rate >= 0.0 && b.max.Some? && b.max.value > 0.0 && 0 <= i <= j < |b.log|
      ensures Allowed(b.log, i, j + 1) <= b.max.value + b.rate * (b.log[j].time - b.log[i].time)
    {
      BucketIsBounded(b, i, j);
    }
  }

  lemma HandlersNext(ops: seq<Op>, n: nat)
    requires n < |ops| && InScope(ops, n)
    ensures Handlers(ops[..n + 1]) == Handlers(ops[..n]) + if ops[n].Derived? then 1 else 0
    ensures ops[n].Derived? ==> ops[n].parent < Handlers(ops[..n])
    ensures ops[n].Emitted? ==> ops[n].handler < Handlers(ops[..n])
  {
    assert ops[..n + 1][..n] == ops[..n];
  }

  lemma ChargedNext(h: Handler, b: TokenBucket, ops: seq<Op>, n: nat, outcomes: seq<bool>, allowed: bool)
    requires n < |ops| && |outcomes| == n
    ensures Charged(h, b, ops[..n + 1], outcomes + [allowed]) == Charged(h, b, ops[..n], outcomes)
      + Charge(h, b, ops[n], allowed)
  {
    assert ops[..n + 1][..n] == ops[..n];
    assert (outcomes + [allowed])[..n] == outcomes;
  }

  /** The time after an operation. */
  function After(op: Op, clock: real): real {
    if op.Emitted? then op.now else clock
  }

  /** The call an operation charges to bucket b, if any. */
  function Charge(h: Handler, b: TokenBucket, op: Op, allowed: bool): seq<Call> {
    if op.Emitted? && h.BucketOf(op.level) == b then [Call(op.now, allowed)] else []
  }

  /** One operation of the family: a record charges its level's bucket, and no other. */
  method Perform(h: Handler, handlers: seq<Handler>, op: Op, ghost buckets: set<TokenBucket>, ghost clock: real)
    returns (family: seq<Handler>, allowed: bool)
    requires Family(h, handlers) && Kept(buckets, clock) && clock <= After(op, clock)
    requires (if op.Derived? then op.parent else op.handler) < |handlers|
    requires op.Emitted? && h.BucketOf(op.level) != null ==> h.BucketOf(op.level) in buckets
    modifies buckets
    ensures Family(h, family) && |family| == |handlers| + if op.Derived? then 1 else 0
    ensures Kept(buckets, After(op, clock)) && (op.Emitted? && h.BucketOf(op.level) == null ==> allowed)
    ensures forall b :: b in buckets ==> b.log == old(b.log) + Charge(h, b, op, allowed)
  {
    family, allowed := handlers, true;
    match op
    case Derived(parent) =>
      var child := handlers[parent].Derive();
      family := handlers + [child];
    case Emitted(handler, level, now) =>
      assert SameBuckets(h, handlers[handler]) && handlers[handler].BucketOf(level) == h.BucketOf(level);
      allowed := handlers[handler].Allow(level, now);
  }

  /** Each bucket has its first calls and those charged to it by operations with these outcomes. */
  ghost predicate Tracks(h: Handler, logs: map<TokenBucket, seq<Call>>, ops: seq<Op>, outcomes: seq<bool>)
    requires |outcomes| == |ops|
    reads logs.Keys
  {
    forall b :: b in logs ==> b.log == logs[b] + Charged(h, b, ops, outcomes)
  }

  /** Operation n of a run. */
  method Turn(h: Handler, handlers: seq<Handler>, ops: seq<Op>, n: nat, outcomes: seq<bool>,
        ghost logs: map<TokenBucket, seq<Call>>, ghost clock: real)
    returns (family: seq<Handler>, allowed: bool)
    requires n < |ops| && |outcomes| == n && InScope(ops, n) && |handlers| == Handlers(ops[..n])
    requires Family(h, handlers) && Kept(logs.Keys, clock) && clock <= After(ops[n], clock)
    requires ops[n].Emitted? && h.BucketOf(ops[n].level) != null ==> h.BucketOf(ops[n].level) in logs
    requires Tracks(h, logs, ops[..n], outcomes)
    modifies logs.Keys
    ensures Family(h, family) && |family| == Handlers(ops[..n + 1])
    ensures Kept(logs.Keys, After(ops[n], clock))
    ensures ops[n].Emitted? && h.BucketOf(ops[n].level) == null ==> allowed
    ensures Tracks(h, logs, ops[..n + 1], outcomes + [allowed])
  {
    HandlersNext(ops, n);
    family, allowed := Perform(h, handlers, ops[n], logs.Keys, clock);
    forall b | b in logs
      ensures b.log == logs[b] + Charged(h, b, ops[..n + 1], outcomes + [allowed])
    {
      ChargedNext(h, b, ops, n, outcomes, allowed);
    }
  }

  predicate NullAllows(h: Handler, ops: seq<Op>, outcomes: seq<bool>)
    requires |outcomes| <= |ops|
  {
    forall i :: 0 <= i < |outcomes| && ops[i].Emitted? && h.BucketOf(ops[i].level) == null ==> outcomes[i]
  }

  /** Any number of handlers, derived from each other in any order and used in turn: each bucket is
      charged with every record of its levels, and between any two of all its calls, both included,
      at most its maximum and what flowed in were allowed. A level without a bucket is unlimited. */
  method SharedBuckets(h: Handler, ops: seq<Op>, start: real, ghost logs: map<TokenBucket, seq<Call>>)
    returns (outcomes: seq<bool>)
    requires forall i :: 0 <= i < |ops| ==> InScope(ops, i)
    requires forall level :: h.BucketOf(level) != null ==> h.BucketOf(level) in logs
    requires Kept(logs.Keys, start) && InOrder(ops, start) && forall b :: b in logs ==> b.log == logs[b]
    modifies logs.Keys
    ensures |outcomes| == |ops| && NullAllows(h, ops, outcomes)
    ensures Tracks(h, logs, ops, outcomes) && AllBounded(logs.Keys)
  {
    var handlers := [h];
    outcomes := [];
    ghost var clock := start;
    var n := 0;
    while n < |ops|
      invariant 0 <= n <= |ops| && |outcomes| == n && |handlers| == Handlers(ops[..n]) && Family(h, handlers)
      invariant Kept(logs.Keys, clock) && Tracks(h, logs, ops[..n], outcomes) && NullAllows(h, ops, outcomes)
      invariant forall i :: n <= i < |ops| && ops[i].Emitted? ==> clock <= ops[i].now
    {
      ghost var before := clock;
      var allowed;
      handlers, allowed := Turn(h, handlers, ops, n, outcomes, logs, before);
      clock := After(ops[n], before);
      outcomes := outcomes + [allowed];
      n := n + 1;
    }
    assert ops[..n] == ops;
    KeptIsBounded(logs.Keys, clock);
  }
}
