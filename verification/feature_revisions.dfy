/** The revision protocol of the server-evaluated FeatureHub client (feature/flags.go), as a step
    system over the context setters, the stream loop, event application and WaitReady. A step is
    one critical section or one atomic access. */
module FeatureRevisions {
  import opened Options

  type Attributes = map<string, seq<string>>

  datatype Feature = Feature(key: string, id: string, version: Option<int>, value: int)

  /** A stored feature with the revision of the event that brought it. */
  datatype Stored = Stored(feature: Feature, revision: nat)

  datatype Stream =
    | Between
    | Loaded(revision: nat)
    | Requested(revision: nat, sent: Attributes)

  datatype Waiter = Waiter(target: nat, sawReady: bool, returned: bool)

  /** An accepted event: its stream's revision, what the request carried, and what was current. */
  datatype Acceptance = Acceptance(revision: nat, sent: Attributes, current: Attributes)

  datatype State = State(
    attributes: Attributes,
    revision: nat,                     // contextRevision
    ready: bool,
    readyRevision: nat,
    features: map<string, Stored>,
    namespace: nat,                    // featureContextRevision
    applying: bool,                    // a full set is between its readyRevision and its ready
    stream: Stream,
    waiters: map<nat, Waiter>,
    full: set<nat>,                    // revisions for which a full set was accepted
    accepted: seq<Acceptance>)

  function Start(defaults: Attributes): State {
    State(defaults, 1, false, 0, map[], 0, false, Between, map[], {}, [])
  }

  datatype Event =
    | SetAttribute(key: string, values: seq<string>)
    | ClearContext
    | LoadRevision
    | BuildRequest
    | ApplyFull(list: seq<Option<Feature>>)
    | PublishReady
    | ApplyOne(feature: Feature)
    | Delete(feature: Feature)
    | StreamEnds(retained: bool)
    | Expire
    | StartWaiting(w: nat)
    | SeeReady(w: nat)
    | SeeRevision(w: nat)

  // ------------------------------------------------------------------------
  // Attributes
  // ------------------------------------------------------------------------

  function ValuesOf(a: Attributes, key: string): seq<string> {
    if key in a then a[key] else []
  }

  function WithValues(a: Attributes, key: string, values: seq<string>): Attributes {
    if values == [] then a - {key} else a[key := values]
  }

  /** attributeMapsEqual: as many keys, and equal values for each key of the left map. */
  predicate MapsEqual(a: Attributes, b: Attributes) {
    |a| == |b| && forall k :: k in a ==> a[k] == ValuesOf(b, k)
  }

  /** Attributes without the keys that hold no value. */
  function Norm(a: Attributes): Attributes {
    map k | k in a && a[k] != [] :: a[k]
  }

  /** The comparison is wrong exactly when an empty list stands against a key that is missing. */
  lemma MapsEqualIff(a: Attributes, b: Attributes)
    ensures a == b ==> MapsEqual(a, b)
    ensures MapsEqual(a, b) && a != b <==>
      |a| == |b| && (forall k :: k in a ==> a[k] == ValuesOf(b, k)) && exists k :: k in a && a[k] == [] && k !in b
  {
    if MapsEqual(a, b) && forall k :: k in a && a[k] == [] ==> k in b {
      assert a.Keys <= b.Keys;
      SameKeys(a.Keys, b.Keys);
    }
  }

  /** The smallest maps it is wrong about. */
  lemma EmptyListPassesForMissing()
    ensures var a: Attributes, b: Attributes := map["k" := []], map["x" := []]; MapsEqual(a, b) && a != b
  {
    var a: Attributes, b: Attributes := map["k" := []], map["x" := []];
    assert "k" in a && "k" !in b;
  }

  lemma {:induction false} SameKeys(a: set<string>, b: set<string>)
    requires a <= b && |a| == |b|
    ensures a == b
  {
    assert |b - a| == |b| - |a|;
  }

  // ------------------------------------------------------------------------
  // Feature sets
  // ------------------------------------------------------------------------

  function VersionOf(f: Feature): int {
    if f.version.Some? then f.version.value else 0
  }

  predicate IdentityChanged(current: Feature, incoming: Feature) {
    current.id != "" && incoming.id != "" && current.id != incoming.id
  }

  /** An event of another revision does not see the values of this one. */
  function Prepared(s: State, revision: nat): map<string, Stored> {
    if s.namespace != revision then map[] else s.features
  }

  predicate Replaces(features: map<string, Stored>, f: Feature) {
    f.key !in features || IdentityChanged(features[f.key].feature, f) ||
      VersionOf(f) >= VersionOf(features[f.key].feature)
  }

  function Merged(features: map<string, Stored>, f: Feature, revision: nat): map<string, Stored> {
    if Replaces(features, f) then features[f.key := Stored(f, revision)] else features
  }

  /** Null entries and entries without a key are passed over. */
  predicate Counts(f: Option<Feature>) {
    f.Some? && f.value.key != ""
  }

  function MergedAll(features: map<string, Stored>, list: seq<Option<Feature>>, n: nat, revision: nat): map<string,
        Stored>
    requires n <= |list|
  {
    if n == 0 then features
    else
      var before := MergedAll(features, list, n - 1, revision);
      if Counts(list[n - 1]) then Merged(before, list[n - 1].value, revision) else before
  }

  function IncomingKeys(list: seq<Option<Feature>>): set<string> {
    set i | 0 <= i < |list| && Counts(list[i]) :: list[i].value.key
  }

  function Restricted(features: map<string, Stored>, keys: set<string>): map<string, Stored> {
    map k | k in features && k in keys :: features[k]
  }

  function FullSet(s: State, list: seq<Option<Feature>>, revision: nat): map<string, Stored> {
    Restricted(MergedAll(Prepared(s, revision), list, |list|, revision), IncomingKeys(list))
  }

  predicate Removes(features: map<string, Stored>, f: Feature) {
    f.key in features ==>
      var current := features[f.key].feature;
      && (f.id == "" || current.id == "" || f.id == current.id)
      && (f.version == None || f.version.value == 0 || f.version.value >= VersionOf(current))
  }

  function Deleted(features: map<string, Stored>, f: Feature): map<string, Stored> {
    if Removes(features, f) then features - {f.key} else features
  }

  // ------------------------------------------------------------------------
  // Steps
  // ------------------------------------------------------------------------

  /** The event of the current stream belongs to the current context. */
  predicate Accepts(s: State) {
    s.stream.Requested? && s.stream.revision == s.revision
  }

  predicate Enabled(s: State, e: Event) {
    match e
    case SetAttribute(_, _) => !s.applying
    case ClearContext => !s.applying
    case LoadRevision => s.stream.Between?
    case BuildRequest => s.stream.Loaded? && !s.applying
    case ApplyFull(_) => s.stream.Requested? && !s.applying
    case PublishReady => s.applying
    case ApplyOne(f) => s.stream.Requested? && !s.applying && f.key != ""
    case Delete(f) => s.stream.Requested? && !s.applying && f.key != ""
    case StreamEnds(_) => !s.stream.Between? && !s.applying
    case Expire => true
    case StartWaiting(w) => w !in s.waiters
    case SeeReady(w) => w in s.waiters && !s.waiters[w].returned
    case SeeRevision(w) => w in s.waiters && !s.waiters[w].returned && s.waiters[w].sawReady
  }

  function Accepted(s: State): State
    requires s.stream.Requested?
  {
    s.(accepted := s.accepted + [Acceptance(s.stream.revision, s.stream.sent, s.attributes)],
      namespace := s.stream.revision)
  }

  function Changed(s: State, attributes: Attributes): State {
    s.(attributes := attributes, revision := s.revision + 1, ready := false)
  }

  function Apply(defaults: Attributes, s: State, e: Event): State
    requires Enabled(s, e)
  {
    match e
    case SetAttribute(key, values) =>
      var next := WithValues(s.attributes, key, values);
      if ValuesOf(s.attributes, key) == values then s.(attributes := next) else Changed(s, next)
    case ClearContext => if MapsEqual(s.attributes, defaults) then s else Changed(s, defaults)
    case LoadRevision => s.(stream := Loaded(s.revision))
    case BuildRequest => s.(stream := Requested(s.stream.revision, s.attributes))
    case ApplyFull(list) =>
      if !Accepts(s) then s
      else Accepted(s).(features := FullSet(s, list, s.revision), readyRevision := s.revision, applying := true,
        full := s.full + {s.revision})
    case PublishReady => s.(ready := true, applying := false)
    case ApplyOne(f) =>
      if !Accepts(s) then s else Accepted(s).(features := Merged(Prepared(s, s.revision), f, s.revision))
    case Delete(f) => if !Accepts(s) then s else Accepted(s).(features := Deleted(Prepared(s, s.revision), f))
    case StreamEnds(retained) => s.(stream := Between, ready := s.ready && retained)
    case Expire => s.(ready := false)
    case StartWaiting(w) => s.(waiters := s.waiters[w := Waiter(s.revision, false, false)])
    case SeeReady(w) => s.(waiters := s.waiters[w := s.waiters[w].(sawReady := s.ready)])
    case SeeRevision(w) =>
      s.(waiters := s.waiters[w := s.waiters[w].(sawReady := false,
        returned := s.readyRevision >= s.waiters[w].target)])
  }

  predicate Step(defaults: Attributes, s: State, e: Event, s': State) {
    Enabled(s, e) && s' == Apply(defaults, s, e)
  }

  predicate IsRun(defaults: Attributes, states: seq<State>, events: seq<Event>) {
    && |states| == |events| + 1 && states[0] == Start(defaults)
    && forall i :: 0 <= i < |events| ==> Step(defaults, states[i], events[i], states[i + 1])
  }

  // ------------------------------------------------------------------------
  // Invariants
  // ------------------------------------------------------------------------

  /** Keys without values only come from the defaults. */
  predicate EmptyFromDefaults(defaults: Attributes, a: Attributes) {
    forall k :: k in a && a[k] == [] ==> k in defaults && defaults[k] == []
  }

  predicate SameContext(defaults: Attributes, sent: Attributes, current: Attributes) {
    Norm(sent) == Norm(current) && ((forall k :: k in defaults ==> defaults[k] != []) ==> sent == current)
  }

  predicate StreamHolds(defaults: Attributes, s: State) {
    match s.stream
    case Between => true
    case Loaded(r) => r <= s.revision
    case Requested(r, sent) =>
      r <= s.revision && EmptyFromDefaults(defaults, sent) &&
        (r == s.revision ==> SameContext(defaults, sent, s.attributes))
  }

  predicate WaiterHolds(s: State, w: Waiter) {
    && w.target <= s.revision
    && (w.sawReady ==> s.full != {})
    && (w.returned ==> exists r :: r in s.full && r >= w.target)
  }

  predicate Invariant(defaults: Attributes, s: State) {
    && EmptyFromDefaults(defaults, s.attributes)
    && StreamHolds(defaults, s)
    && (forall k :: k in s.features ==> s.features[k].revision == s.namespace)
    && (s.ready || s.applying ==> s.readyRevision == s.revision == s.namespace && s.revision in s.full)
    && (s.readyRevision > 0 ==> s.readyRevision in s.full)
    && (forall w :: w in s.waiters ==> WaiterHolds(s, s.waiters[w]))
    && (forall i :: 0 <= i < |s.accepted| ==> SameContext(defaults, s.accepted[i].sent, s.accepted[i].current))
  }

  lemma SettersKeep(defaults: Attributes, s: State, e: Event)
    requires Invariant(defaults, s) && Enabled(s, e) && (e.SetAttribute? || e.ClearContext?)
    ensures Invariant(defaults, Apply(defaults, s, e))
  {
    var s' := Apply(defaults, s, e);
    forall w | w in s'.waiters
      ensures WaiterHolds(s', s'.waiters[w])
    {
      assert WaiterHolds(s, s.waiters[w]);
    }
    if e.SetAttribute? && s'.revision == s.revision {
      UnchangedNorm(s.attributes, e.key, e.values);
      assert s'.attributes == s.attributes || e.values == [];
    }
  }

  /** A setter that changes no value leaves the attributes as they are, except that a key without
      values disappears. */
  lemma UnchangedNorm(a: Attributes, key: string, values: seq<string>)
    requires ValuesOf(a, key) == values
    ensures Norm(WithValues(a, key, values)) == Norm(a)
    ensures (key in a ==> a[key] != []) ==> WithValues(a, key, values) == a
  {
  }

  lemma EventsKeep(defaults: Attributes, s: State, e: Event)
    requires Invariant(defaults, s) && Enabled(s, e) && (e.ApplyFull? || e.ApplyOne? || e.Delete?)
    ensures Invariant(defaults, Apply(defaults, s, e))
  {
    var s' := Apply(defaults, s, e);
    if Accepts(s) && e.ApplyFull? {
      MergedRevisions(Prepared(s, s.revision), e.list, |e.list|, s.revision);
    }
    forall w | w in s'.waiters
      ensures WaiterHolds(s', s'.waiters[w])
    {
      assert WaiterHolds(s, s.waiters[w]);
    }
  }

  lemma {:induction false} MergedRevisions(features: map<string, Stored>, list: seq<Option<Feature>>, n: nat,
        revision: nat)
    requires n <= |list| && forall k :: k in features ==> features[k].revision == revision
    ensures forall k ::
      k in MergedAll(features, list, n, revision) ==> MergedAll(features, list, n, revision)[k].revision == revision
  {
    if n > 0 {
      MergedRevisions(features, list, n - 1, revision);
    }
  }

  lemma OthersKeep(defaults: Attributes, s: State, e: Event)
    requires Invariant(defaults, s) && Enabled(s, e)
    requires !e.SetAttribute? && !e.ClearContext? && !e.ApplyFull? && !e.ApplyOne? && !e.Delete?
    ensures Invariant(defaults, Apply(defaults, s, e))
  {
    var s' := Apply(defaults, s, e);
    forall w | w in s'.waiters
      ensures WaiterHolds(s', s'.waiters[w])
    {
      assert w in s.waiters ==> WaiterHolds(s, s.waiters[w]);
    }
  }

  lemma {:induction false} RunKeeps(defaults: Attributes, states: seq<State>, events: seq<Event>, n: nat)
    requires IsRun(defaults, states, events) && n < |states|
    ensures Invariant(defaults, states[n])
  {
    if n > 0 {
      RunKeeps(defaults, states, events, n - 1);
      var s, e := states[n - 1], events[n - 1];
      assert Step(defaults, s, e, states[n]);
      if e.SetAttribute? || e.ClearContext? {
        SettersKeep(defaults, s, e);
      } else if e.ApplyFull? || e.ApplyOne? || e.Delete? {
        EventsKeep(defaults, s, e);
      } else {
        OthersKeep(defaults, s, e);
      }
    }
  }

  // ------------------------------------------------------------------------
  // Over every run
  // ------------------------------------------------------------------------

  /** Every accepted event came from a request that carried the attributes current when it was
      accepted: the same map, or, if the defaults have keys without values, one that differs in
      such keys alone. */
  lemma AcceptedIsCurrent(defaults: Attributes, states: seq<State>, events: seq<Event>, n: nat, i: nat)
    requires IsRun(defaults, states, events) && n < |states| && i < |states[n].accepted|
    ensures var a := states[n].accepted[i];
      Norm(a.sent) == Norm(a.current) && ((forall k :: k in defaults ==> defaults[k] != []) ==> a.sent == a.current)
  {
    RunKeeps(defaults, states, events, n);
    assert SameContext(defaults, states[n].accepted[i].sent, states[n].accepted[i].current);
  }

  /** Every accepted event of every run came from a request that carried exactly the attributes
      current at acceptance. */
  ghost predicate AlwaysExact(defaults: Attributes) {
    forall states: seq<State>, events: seq<Event>, n, i ::
      IsRun(defaults, states, events) && 0 <= n < |states| && 0 <= i < |states[n].accepted| ==>
      states[n].accepted[i].sent == states[n].accepted[i].current
  }

  /** A default key without values can disappear between a request and its answer without the
      revision changing: setting it to no values again is not a change. */
  lemma EmptyDefaultRun(defaults: Attributes, key: string) returns (states: seq<State>, events: seq<Event>)
    requires key in defaults && defaults[key] == []
    ensures IsRun(defaults, states, events) && |states| == 5 && |states[4].accepted| == 1
    ensures states[4].accepted[0] == Acceptance(1, defaults, defaults - {key})
  {
    var s0 := Start(defaults);
    events := [LoadRevision, BuildRequest, SetAttribute(key, []), ApplyFull([])];
    var s1 := Apply(defaults, s0, LoadRevision);
    var s2 := Apply(defaults, s1, BuildRequest);
    var s3 := Apply(defaults, s2, SetAttribute(key, []));
    var s4 := Apply(defaults, s3, ApplyFull([]));
    states := [s0, s1, s2, s3, s4];
  }

  /** That is so exactly when no default key is without values. */
  lemma AlwaysExactIff(defaults: Attributes)
    ensures AlwaysExact(defaults) <==> forall k :: k in defaults ==> defaults[k] != []
  {
    if forall k :: k in defaults ==> defaults[k] != [] {
      forall states: seq<State>, events: seq<Event>, n, i |
          IsRun(defaults, states, events) && 0 <= n < |states| && 0 <= i < |states[n].accepted|
        ensures states[n].accepted[i].sent == states[n].accepted[i].current
      {
        AcceptedIsCurrent(defaults, states, events, n, i);
      }
    } else {
      var key :| key in defaults && defaults[key] == [];
      var states, events := EmptyDefaultRun(defaults, key);
      assert key !in states[4].accepted[0].current;
      assert states[4].accepted[0].sent != states[4].accepted[0].current;
    }
  }

  /** All stored values share one revision; while the client is ready it is the current one, and a
      full set was accepted for it. */
  lemma ReadyIsCurrent(defaults: Attributes, states: seq<State>, events: seq<Event>, n: nat)
    requires IsRun(defaults, states, events) && n < |states|
    ensures forall k :: k in states[n].features ==> states[n].features[k].revision == states[n].namespace
    ensures states[n].ready ==> states[n].namespace == states[n].revision && states[n].revision in states[n].full
  {
    RunKeeps(defaults, states, events, n);
  }

  /** WaitReady returns without error only after a full set was accepted for a revision at least
      the one current at its call. */
  lemma WaitReadyMeansFullSet(defaults: Attributes, states: seq<State>, events: seq<Event>, n: nat, w: nat)
    requires IsRun(defaults, states, events) && n < |states| && w in states[n].waiters && states[n].waiters[w].returned
    ensures exists r :: r in states[n].full && r >= states[n].waiters[w].target
  {
    RunKeeps(defaults, states, events, n);
    assert WaiterHolds(states[n], states[n].waiters[w]);
  }

  /** Clearing the context always ends with the defaults, though the comparison it uses can be wrong. */
  lemma ClearContextRestoresDefaults(defaults: Attributes, states: seq<State>, events: seq<Event>, n: nat)
    requires IsRun(defaults, states, events) && n < |events| && events[n] == ClearContext
    ensures states[n + 1].attributes == defaults
  {
    RunKeeps(defaults, states, events, n);
    assert Step(defaults, states[n], events[n], states[n + 1]);
    MapsEqualIff(states[n].attributes, defaults);
  }

  /** A full set leaves exactly its own keys; in a context that has no values yet each is there as
      it came. */
  lemma FullSetMeans(s: State, list: seq<Option<Feature>>, revision: nat)
    ensures FullSet(s, list, revision).Keys == IncomingKeys(list)
    ensures s.namespace != revision && DistinctKeys(list) ==>
      forall i ::
        0 <= i < |list| && Counts(list[i]) ==>
          list[i].value.key in FullSet(s, list, revision) &&
            FullSet(s, list, revision)[list[i].value.key] == Stored(list[i].value, revision)
  {
    MergedHasAll(Prepared(s, revision), list, |list|, revision);
    if s.namespace != revision && DistinctKeys(list) {
      MergedFresh(list, |list|, revision);
    }
  }

  predicate DistinctKeys(list: seq<Option<Feature>>) {
    forall i, j :: 0 <= i < j < |list| && Counts(list[i]) && Counts(list[j]) ==> list[i].value.key != list[j].value.key
  }

  lemma {:induction false} MergedHasAll(features: map<string, Stored>, list: seq<Option<Feature>>, n: nat,
        revision: nat)
    requires n <= |list|
    ensures forall i :: 0 <= i < n && Counts(list[i]) ==> list[i].value.key in MergedAll(features, list, n, revision)
  {
    if n > 0 {
      MergedHasAll(features, list, n - 1, revision);
    }
  }

  lemma {:induction false} MergedFresh(list: seq<Option<Feature>>, n: nat, revision: nat)
    requires n <= |list| && DistinctKeys(list)
    ensures var m := MergedAll(map[], list, n, revision);
      && (forall i ::
        0 <= i < n && Counts(list[i]) ==>
          list[i].value.key in m && m[list[i].value.key] == Stored(list[i].value, revision))
      && (forall k :: k in m ==> exists i :: 0 <= i < n && Counts(list[i]) && list[i].value.key == k)
  {
    if n > 0 {
      MergedFresh(list, n - 1, revision);
    }
  }
}
