/** The producer of kafka/confluent.go: admission, per-acks drivers, accepted-report draining,
    metadata refreshes, and Close under its three policies, as a step system.

    Each step is one critical section, one counter update or one driver call. Drivers are numbered
    in order of creation. A call goes on after its caller has stopped waiting, so that a caller
    that returns early is not a step. */
module ProducerShutdown {
  import opened Options

  datatype Policy = FlushFirst | AwaitDelivery | Disconnect

  datatype Config = Config(policy: Policy, configuredAcks: int, idempotent: bool)

  datatype Stage = Building | Enqueuing | Draining | Over

  /** A metadata refresh: in the refresh map, counted and running, out of the map again, or ended. */
  datatype Phase = Listed | Running | Unlisted | Ended

  datatype Refresh = Refresh(topic: string, driver: nat, starter: nat, phase: Phase)

  /** One produceWithMetadata or produceBatch call that was admitted. */
  datatype Call = Call(driver: nat, total: nat, stage: Stage, accepted: nat, counted: nat, delivered: nat,
    consumed: nat)

  /** Where the goroutine that shuts the drivers down is. */
  datatype Closer =
    | NotStarted
    | Flushing(unique: set<nat>, left: set<nat>)
    | Waiting(unique: set<nat>)                    // inFlight.Wait
    | Closing(unique: set<nat>, left: set<nat>)
    | Cleared

  datatype CloseResult = Pending | Succeeded | Undelivered | Unresolved | TimedOut

  datatype State = State(
    closed: bool,
    producer: Option<nat>,
    producers: map<int, nat>,
    closes: seq<nat>,               // how often each driver ever created was closed
    inFlight: int,
    pendingReports: int,
    calls: seq<Call>,
    refreshes: seq<Refresh>,
    closer: Closer,
    remaining: nat,                 // messages the flushes left
    result: CloseResult)            // closeErr; Pending until closeDone is closed

  const INITIAL := State(false, None, map[], [], 0, 0, [], [], NotStarted, 0, Pending)

  datatype Event =
    | Connect(creates: bool, brokerAnswers: bool)
    | Begin(acks: int, creates: bool, total: nat)
    | ListRefresh(c: nat, topic: string)
    | StartRefresh(r: nat)
    | UnlistRefresh(r: nat)
    | EndRefresh(r: nat)
    | BuildFails(c: nat)
    | StartEnqueuing(c: nat)
    | Accept(c: nat)
    | Count(c: nat)
    | StopEnqueuing(c: nat)
    | Deliver(c: nat)
    | Consume(c: nat)
    | EndDrain(c: nat)
    | Close
    | Flushed(d: nat, left: nat)
    | WaitOver
    | CloseDriver(d: nat)
    | Finish
    | CloseTimesOut

  // ------------------------------------------------------------------------
  // Admission
  // ------------------------------------------------------------------------

  predicate SupportedAcks(acks: int) {
    acks == -1 || acks == 0 || acks == 1
  }

  datatype Grant = Refused | Existing(driver: nat) | Fresh(driver: nat)

  /** producerForAcksLocked. */
  function Admit(config: Config, s: State, acks: int, creates: bool): Grant {
    if s.closed || s.producer.None? || (config.idempotent && acks != -1) then Refused
    else if acks in s.producers then Existing(s.producers[acks])
    else if !SupportedAcks(acks) || !creates then Refused
    else Fresh(|s.closes|)
  }

  function Drivers(s: State): set<nat> {
    (set acks | acks in s.producers :: s.producers[acks]) + if s.producer.Some? then {s.producer.value} else {}
  }

  // ------------------------------------------------------------------------
  // Steps
  // ------------------------------------------------------------------------

  predicate InStage(s: State, c: nat, stage: Stage) {
    c < |s.calls| && s.calls[c].stage == stage
  }

  predicate InPhase(s: State, r: nat, phase: Phase) {
    r < |s.refreshes| && s.refreshes[r].phase == phase
  }

  predicate InMap(r: Refresh) {
    r.phase == Listed || r.phase == Running
  }

  /** Whether the refresh map has an entry for the topic. */
  predicate IsListed(s: State, topic: string) {
    exists r :: 0 <= r < |s.refreshes| && InMap(s.refreshes[r]) && s.refreshes[r].topic == topic
  }

  /** Call c has no refresh in the map that it has not counted yet. */
  predicate Free(s: State, c: nat) {
    forall r :: 0 <= r < |s.refreshes| && s.refreshes[r].phase == Listed ==> s.refreshes[r].starter != c
  }

  predicate Enabled(s: State, e: Event) {
    match e
    case Connect(_, _) => true
    case Begin(_, _, _) => true
    case ListRefresh(c, topic) => InStage(s, c, Building) && Free(s, c) && !IsListed(s, topic)
    case StartRefresh(r) => InPhase(s, r, Listed)
    case UnlistRefresh(r) => InPhase(s, r, Running)
    case EndRefresh(r) => InPhase(s, r, Unlisted)
    case BuildFails(c) => InStage(s, c, Building) && Free(s, c)
    case StartEnqueuing(c) => InStage(s, c, Building) && Free(s, c)
    case Accept(c) => InStage(s, c, Enqueuing) && s.calls[c].counted == s.calls[c].accepted < s.calls[c].total
    case Count(c) => InStage(s, c, Enqueuing) && s.calls[c].counted < s.calls[c].accepted
    case StopEnqueuing(c) => InStage(s, c, Enqueuing) && s.calls[c].counted == s.calls[c].accepted
    case Deliver(c) => c < |s.calls| && s.calls[c].delivered < s.calls[c].accepted
    case Consume(c) => InStage(s, c, Draining) && s.calls[c].consumed < s.calls[c].delivered
    case EndDrain(c) => InStage(s, c, Draining) && s.calls[c].consumed == s.calls[c].accepted
    case Close => true
    case Flushed(d, _) => s.closer.Flushing? && d in s.closer.left
    case WaitOver => s.closer.Waiting? && s.inFlight == 0
    case CloseDriver(d) => s.closer.Closing? && d in s.closer.left && d < |s.closes|
    case Finish => s.closer.Closing? && s.closer.left == {}
    case CloseTimesOut => s.closed && s.result == Pending
  }

  function Started(config: Config, unique: set<nat>): Closer {
    if config.policy == AwaitDelivery || unique == {} then Waiting(unique) else Flushing(unique, unique)
  }

  function Leave(s: State, c: nat): State
    requires c < |s.calls|
  {
    s.(calls := s.calls[c := s.calls[c].(stage := Over)], inFlight := s.inFlight - 1)
  }

  function InNewPhase(s: State, r: nat, phase: Phase): seq<Refresh>
    requires r < |s.refreshes|
  {
    s.refreshes[r := s.refreshes[r].(phase := phase)]
  }

  function Apply(config: Config, s: State, e: Event): State
    requires Enabled(s, e)
  {
    match e
    case Connect(creates, brokerAnswers) =>
      if s.closed || s.producer.Some? || !creates then s
      else if !brokerAnswers then s.(closes := s.closes + [1])
      else s.(closes := s.closes + [0], producer := Some(|s.closes|),
        producers := s.producers[config.configuredAcks := |s.closes|])
    case Begin(acks, creates, total) => (
      match Admit(config, s, acks, creates)
      case Refused => s
      case Existing(d) => s.(inFlight := s.inFlight + 1, calls := s.calls + [Call(d, total, Building, 0, 0, 0, 0)])
      case Fresh(d) => s.(inFlight := s.inFlight + 1, calls := s.calls + [Call(d, total, Building, 0, 0, 0, 0)],
                          closes := s.closes + [0], producers := s.producers[acks := d]))
    case ListRefresh(c, topic) => s.(refreshes := s.refreshes + [Refresh(topic, s.calls[c].driver, c, Listed)])
    case StartRefresh(r) => s.(inFlight := s.inFlight + 1, refreshes := InNewPhase(s, r, Running))
    case UnlistRefresh(r) => s.(refreshes := InNewPhase(s, r, Unlisted))
    case EndRefresh(r) => s.(inFlight := s.inFlight - 1, refreshes := InNewPhase(s, r, Ended))
    case BuildFails(c) => Leave(s, c)
    case StartEnqueuing(c) =>
      if s.calls[c].total == 0 then Leave(s, c) else s.(calls := s.calls[c := s.calls[c].(stage := Enqueuing)])
    case Accept(c) => s.(calls := s.calls[c := s.calls[c].(accepted := s.calls[c].accepted + 1)])
    case Count(c) =>
      s.(calls := s.calls[c := s.calls[c].(counted := s.calls[c].counted + 1)], pendingReports := s.pendingReports + 1)
    case StopEnqueuing(c) =>
      if s.calls[c].accepted == 0 then Leave(s, c) else s.(calls := s.calls[c := s.calls[c].(stage := Draining)])
    case Deliver(c) => s.(calls := s.calls[c := s.calls[c].(delivered := s.calls[c].delivered + 1)])
    case Consume(c) =>
      s.(calls := s.calls[c := s.calls[c].(consumed := s.calls[c].consumed + 1)],
        pendingReports := s.pendingReports - 1)
    case EndDrain(c) => Leave(s, c)
    case Close =>
      if s.closed then s
      else s.(closed := true, closer := Started(config, Drivers(s)),
        result := if config.policy == Disconnect then Succeeded else Pending)
    case Flushed(d, left) =>
      var left' := s.closer.left - {d};
      s.(remaining := s.remaining + left,
         closer := if left' == {} then Waiting(s.closer.unique) else Flushing(s.closer.unique, left'))
    case WaitOver => s.(closer := Closing(s.closer.unique, s.closer.unique))
    case CloseDriver(d) =>
      s.(closes := s.closes[d := s.closes[d] + 1], closer := Closing(s.closer.unique, s.closer.left - {d}))
    case Finish =>
      s.(closer := Cleared, producer := None, producers := map[],
         result := if s.result != Pending then s.result
                   else if config.policy == AwaitDelivery then (if s.pendingReports != 0 then Unresolved else Succeeded)
                   else if s.remaining > 0 then Undelivered else Succeeded)
    case CloseTimesOut => s.(result := TimedOut)
  }

  predicate Step(config: Config, s: State, e: Event, s': State) {
    Enabled(s, e) && s' == Apply(config, s, e)
  }

  predicate IsRun(config: Config, states: seq<State>, events: seq<Event>) {
    && |states| == |events| + 1 && states[0] == INITIAL
    && forall i :: 0 <= i < |events| ==> Step(config, states[i], events[i], states[i + 1])
  }

  // ------------------------------------------------------------------------
  // Counting
  // ------------------------------------------------------------------------

  function Active(calls: seq<Call>): nat {
    if calls == [] then 0
    else Active(calls[..|calls| - 1]) + if calls[|calls| - 1].stage == Over then 0 else 1
  }

  predicate IsLive(r: Refresh) {
    r.phase == Running || r.phase == Unlisted
  }

  /** Refreshes that are counted in flight. */
  function Live(refreshes: seq<Refresh>): nat {
    if refreshes == [] then 0
    else Live(refreshes[..|refreshes| - 1]) + if IsLive(refreshes[|refreshes| - 1]) then 1 else 0
  }

  lemma {:induction false} SetRefresh(refreshes: seq<Refresh>, r: nat, refresh: Refresh)
    requires r < |refreshes|
    ensures Live(refreshes[r := refresh]) == Live(refreshes) - (if IsLive(refreshes[r]) then 1 else 0) +
      (if IsLive(refresh) then 1 else 0)
  {
    var front := refreshes[..|refreshes| - 1];
    if r == |refreshes| - 1 {
      assert refreshes[r := refresh][..|refreshes| - 1] == front;
    } else {
      SetRefresh(front, r, refresh);
      assert refreshes[r := refresh][..|refreshes| - 1] == front[r := refresh];
    }
  }

  lemma {:induction false} NoneLive(refreshes: seq<Refresh>)
    requires Live(refreshes) == 0
    ensures forall r :: 0 <= r < |refreshes| ==> !IsLive(refreshes[r])
  {
    if refreshes != [] {
      NoneLive(refreshes[..|refreshes| - 1]);
    }
  }

  lemma {:induction false} SomeLive(refreshes: seq<Refresh>) returns (r: nat)
    requires Live(refreshes) > 0
    ensures r < |refreshes| && IsLive(refreshes[r])
  {
    r := |refreshes| - 1;
    if !IsLive(refreshes[r]) {
      r := SomeLive(refreshes[..|refreshes| - 1]);
    }
  }

  /** Reports counted and not yet consumed. */
  function Outstanding(calls: seq<Call>): int {
    if calls == [] then 0
    else Outstanding(calls[..|calls| - 1]) + calls[|calls| - 1].counted - calls[|calls| - 1].consumed
  }

  /** Records that a driver has accepted and whose report nobody has consumed. */
  function Unreported(calls: seq<Call>): int {
    if calls == [] then 0
    else Unreported(calls[..|calls| - 1]) + calls[|calls| - 1].accepted - calls[|calls| - 1].consumed
  }

  /** Calls between the driver's acceptance of a record and the counter update. */
  function Uncounted(calls: seq<Call>): nat {
    if calls == [] then 0
    else Uncounted(calls[..|calls| - 1]) + if calls[|calls| - 1].counted < calls[|calls| - 1].accepted then 1 else 0
  }

  lemma {:induction false} SetCall(calls: seq<Call>, c: nat, call: Call)
    requires c < |calls|
    ensures Active(calls[c := call]) == Active(calls) - (if calls[c].stage == Over then 0 else 1) +
      (if call.stage == Over then 0 else 1)
    ensures Outstanding(calls[c := call]) == Outstanding(calls) - calls[c].counted + calls[c].consumed +
      call.counted - call.consumed
  {
    var front := calls[..|calls| - 1];
    if c == |calls| - 1 {
      assert calls[c := call][..|calls| - 1] == front;
    } else {
      SetCall(front, c, call);
      assert calls[c := call][..|calls| - 1] == front[c := call];
    }
  }

  lemma {:induction false} IdleCounts(calls: seq<Call>)
    requires Active(calls) == 0 && forall c :: 0 <= c < |calls| ==> CallHolds(calls[c])
    ensures forall c :: 0 <= c < |calls| ==> calls[c].stage == Over
    ensures Outstanding(calls) == 0
  {
    if calls != [] {
      assert CallHolds(calls[|calls| - 1]);
      IdleCounts(calls[..|calls| - 1]);
    }
  }

  lemma {:induction false} ReportsAreCounted(calls: seq<Call>)
    requires forall c :: 0 <= c < |calls| ==> CallHolds(calls[c])
    ensures Unreported(calls) == Outstanding(calls) + Uncounted(calls)
  {
    if calls != [] {
      assert CallHolds(calls[|calls| - 1]);
      ReportsAreCounted(calls[..|calls| - 1]);
    }
  }

  lemma {:induction false} SomeActive(calls: seq<Call>) returns (c: nat)
    requires Active(calls) > 0
    ensures c < |calls| && calls[c].stage != Over
  {
    c := |calls| - 1;
    if calls[c].stage == Over {
      c := SomeActive(calls[..|calls| - 1]);
    }
  }

  // ------------------------------------------------------------------------
  // Invariant
  // ------------------------------------------------------------------------

  predicate CallHolds(call: Call) {
    && call.consumed <= call.delivered <= call.accepted <= call.total
    && call.counted <= call.accepted <= call.counted + 1
    && (call.stage == Building ==> call.accepted == 0)
    && (call.stage == Building || call.stage == Enqueuing ==> call.consumed == 0)
    && (call.stage == Draining || call.stage == Over ==> call.counted == call.accepted)
    && (call.stage == Over ==> call.consumed == call.accepted)
  }

  /** The drivers the shutdown is responsible for, and how far it has got. */
  predicate CloserHolds(s: State) {
    match s.closer
    case NotStarted => !s.closed && forall d :: d in Drivers(s) ==> d < |s.closes| && s.closes[d] == 0
    case Flushing(unique, left) =>
      s.closed && unique == Drivers(s) && left <= unique && forall d ::
        d in unique ==> d < |s.closes| && s.closes[d] == 0
    case Waiting(unique) =>
      s.closed && unique == Drivers(s) && forall d :: d in unique ==> d < |s.closes| && s.closes[d] == 0
    case Closing(unique, left) =>
      && s.closed && unique == Drivers(s) && left <= unique && s.inFlight == 0
      && forall d :: d in unique ==> d < |s.closes| && s.closes[d] == if d in left then 0 else 1
    case Cleared =>
      s.closed && s.inFlight == 0 && Drivers(s) == {} && forall d :: 0 <= d < |s.closes| ==> s.closes[d] == 1
  }

  predicate Counted(s: State) {
    && (forall c :: 0 <= c < |s.calls| ==> CallHolds(s.calls[c]))
    && s.inFlight == Active(s.calls) + Live(s.refreshes)
    && s.pendingReports == Outstanding(s.calls)
  }

  /** A refresh that is not counted yet is covered by the call that lists it. */
  predicate ListedHolds(s: State, r: Refresh) {
    r.phase == Listed ==> InStage(s, r.starter, Building) && s.calls[r.starter].driver == r.driver
  }

  /** The refresh map holds one refresh for a topic at most, and a call lists one at a time. */
  predicate MapHolds(s: State) {
    && (forall i, j :: 0 <= i < j < |s.refreshes| && InMap(s.refreshes[i]) && InMap(s.refreshes[j]) ==>
      s.refreshes[i].topic != s.refreshes[j].topic)
    && (forall r :: 0 <= r < |s.refreshes| ==> ListedHolds(s, s.refreshes[r]))
  }

  /** A driver in use belongs to the producer. */
  predicate InUseOwned(s: State) {
    && (forall c :: 0 <= c < |s.calls| && s.calls[c].stage != Over ==> s.calls[c].driver in Drivers(s))
    && (forall r :: 0 <= r < |s.refreshes| && s.refreshes[r].phase != Ended ==> s.refreshes[r].driver in Drivers(s))
  }

  /** A driver that does not belong to the producer is closed, once. */
  predicate StrangersClosed(s: State) {
    && (s.producer.None? ==> s.producers == map[])
    && (forall d :: 0 <= d < |s.closes| && d !in Drivers(s) ==> s.closes[d] == 1)
  }

  predicate Invariant(s: State) {
    Counted(s) && MapHolds(s) && InUseOwned(s) && StrangersClosed(s) && CloserHolds(s)
  }

  /** Steps that change one call. */
  predicate CallStep(e: Event) {
    e.BuildFails? || e.StartEnqueuing? || e.Accept? || e.Count? || e.StopEnqueuing? || e.Deliver? || e.Consume? ||
      e.EndDrain?
  }

  lemma ActiveCallCounts(calls: seq<Call>, c: nat)
    requires forall i :: 0 <= i < |calls| ==> CallHolds(calls[i])
    requires c < |calls| && calls[c].stage != Over
    ensures Active(calls) >= 1
  {
    SetCall(calls, c, calls[c].(stage := Over));
  }

  /** What a step of a call changes. */
  predicate OneCall(s: State, s': State, c: nat) {
    && c < |s.calls| == |s'.calls| && s.calls[c].stage != Over && s'.calls == s.calls[c := s'.calls[c]]
    && s'.calls[c].driver == s.calls[c].driver
    && CallHolds(s'.calls[c])
    && s' == s.(calls := s'.calls, inFlight := s'.inFlight, pendingReports := s'.pendingReports)
    && s'.inFlight == s.inFlight - (if s'.calls[c].stage == Over then 1 else 0)
    && s'.pendingReports - s.pendingReports == s'.calls[c].counted - s'.calls[c].consumed - s.calls[c].counted +
      s.calls[c].consumed
  }

  lemma CallChangesOne(config: Config, s: State, e: Event)
    requires Counted(s) && Enabled(s, e) && CallStep(e)
    ensures OneCall(s, Apply(config, s, e), e.c)
  {
    assert CallHolds(s.calls[e.c]);
  }

  lemma CallIsFree(s: State, e: Event)
    requires Invariant(s) && Enabled(s, e) && CallStep(e)
    ensures Free(s, e.c)
  {
    forall r | 0 <= r < |s.refreshes| && s.refreshes[r].phase == Listed
      ensures s.refreshes[r].starter != e.c
    {
      assert ListedHolds(s, s.refreshes[r]) && CallHolds(s.calls[s.refreshes[r].starter]);
    }
  }

  lemma CallKeepsMap(s: State, s': State, c: nat)
    requires MapHolds(s) && OneCall(s, s', c) && Free(s, c)
    ensures MapHolds(s')
  {
    forall r | 0 <= r < |s'.refreshes|
      ensures ListedHolds(s', s'.refreshes[r])
    {
      assert ListedHolds(s, s.refreshes[r]);
    }
  }

  lemma CallKeeps(s: State, s': State, c: nat)
    requires Invariant(s) && OneCall(s, s', c) && Free(s, c)
    ensures Invariant(s')
  {
    CallKeepsMap(s, s', c);
    SetCall(s.calls, c, s'.calls[c]);
    ActiveCallCounts(s.calls, c);
    assert Drivers(s') == Drivers(s);
    assert Counted(s') && InUseOwned(s') && StrangersClosed(s');
    assert !s.closer.Closing? && !s.closer.Cleared?;
  }

  lemma ConnectKeeps(config: Config, s: State, e: Event)
    requires Invariant(s) && e.Connect?
    ensures Invariant(Apply(config, s, e))
  {
    var s' := Apply(config, s, e);
    assert Counted(s');
    SameMap(s, s');
    if s' != s {
      assert s.producers == map[];
      assert Drivers(s) == {} && Drivers(s') <= {|s.closes|};
      assert CloserHolds(s');
    }
  }

  lemma BeginKeepsCounts(config: Config, s: State, e: Event)
    requires Invariant(s) && e.Begin?
    ensures Counted(Apply(config, s, e))
  {
    var s' := Apply(config, s, e);
    assert s'.calls[..|s.calls|] == s.calls;
  }

  lemma BeginKeeps(config: Config, s: State, e: Event)
    requires Invariant(s) && e.Begin?
    ensures Invariant(Apply(config, s, e))
  {
    var s' := Apply(config, s, e);
    BeginKeepsCounts(config, s, e);
    if s' != s {
      assert s.closer == NotStarted && s.producer.Some?;
      var d := s'.calls[|s.calls|].driver;
      GrantedKeeps(s, s', e.acks, d);
    }
  }

  /** A granted call uses a driver of the producer, old or new. */
  predicate Granted(s: State, s': State, acks: int, d: nat) {
    && |s'.calls| == |s.calls| + 1 && s'.calls[..|s.calls|] == s.calls && s'.calls[|s.calls|].driver == d
    && s'.closed == s.closed && s'.producer == s.producer && s'.refreshes == s.refreshes && s'.closer == s.closer
    && (|| (d in Drivers(s) && s'.closes == s.closes && s'.producers == s.producers)
        || (d == |s.closes| && s'.closes == s.closes + [0] && acks !in s.producers &&
          s'.producers == s.producers[acks := d]))
  }

  lemma GrantedKeeps(s: State, s': State, acks: int, d: nat)
    requires Invariant(s) && Counted(s') && s.closer == NotStarted && s.producer.Some? && Granted(s, s', acks, d)
    ensures Invariant(s')
  {
    GrownDrivers(s, s', acks, d);
    GrantedIsOwned(s, s', acks, d);
    GrantedKeepsMap(s, s', acks, d);
  }

  lemma GrantedKeepsMap(s: State, s': State, acks: int, d: nat)
    requires MapHolds(s) && Granted(s, s', acks, d)
    ensures MapHolds(s')
  {
    forall r | 0 <= r < |s'.refreshes|
      ensures ListedHolds(s', s'.refreshes[r])
    {
      assert ListedHolds(s, s.refreshes[r]);
      assert forall c :: 0 <= c < |s.calls| ==> s'.calls[..|s.calls|][c] == s.calls[c];
    }
  }

  lemma GrantedIsOwned(s: State, s': State, acks: int, d: nat)
    requires InUseOwned(s) && Granted(s, s', acks, d) && Drivers(s') == Drivers(s) + {d}
    ensures InUseOwned(s')
  {
    forall c | 0 <= c < |s'.calls| && s'.calls[c].stage != Over
      ensures s'.calls[c].driver in Drivers(s')
    {
      if c < |s.calls| {
        assert s'.calls[..|s.calls|][c] == s.calls[c];
      }
    }
  }

  lemma GrownDrivers(s: State, s': State, acks: int, d: nat)
    requires Granted(s, s', acks, d)
    ensures Drivers(s') == Drivers(s) + {d}
  {
    if s'.closes != s.closes {
      assert forall a :: a in s.producers ==> s'.producers[a] == s.producers[a];
      assert s'.producers[acks] == d;
    }
  }

  predicate RefreshStep(e: Event) {
    e.ListRefresh? || e.StartRefresh? || e.UnlistRefresh? || e.EndRefresh?
  }

  /** A refresh starts under a call in flight and stays in flight until it ends. */
  lemma RefreshCounts(config: Config, s: State, e: Event)
    requires Invariant(s) && Enabled(s, e) && RefreshStep(e)
    ensures Counted(Apply(config, s, e)) && s.inFlight > 0
  {
    var s' := Apply(config, s, e);
    if e.ListRefresh? {
      ActiveCallCounts(s.calls, e.c);
      assert s'.refreshes[..|s.refreshes|] == s.refreshes;
    } else {
      SetRefresh(s.refreshes, e.r, s'.refreshes[e.r]);
      SetRefresh(s.refreshes, e.r, s.refreshes[e.r].(phase := Ended));
      if e.StartRefresh? {
        assert ListedHolds(s, s.refreshes[e.r]);
        ActiveCallCounts(s.calls, s.refreshes[e.r].starter);
      }
    }
  }

  lemma RefreshKeepsMap(config: Config, s: State, e: Event)
    requires Invariant(s) && Enabled(s, e) && RefreshStep(e)
    ensures MapHolds(Apply(config, s, e))
  {
    var s' := Apply(config, s, e);
    forall r | 0 <= r < |s'.refreshes|
      ensures ListedHolds(s', s'.refreshes[r])
    {
      assert r < |s.refreshes| ==> ListedHolds(s, s.refreshes[r]);
    }
  }

  lemma RefreshIsOwned(config: Config, s: State, e: Event)
    requires Invariant(s) && Enabled(s, e) && RefreshStep(e)
    ensures var s' := Apply(config, s, e);
      forall r :: 0 <= r < |s'.refreshes| && s'.refreshes[r].phase != Ended ==> s'.refreshes[r].driver in Drivers(s)
  {
  }

  lemma RefreshKeeps(config: Config, s: State, e: Event)
    requires Invariant(s) && Enabled(s, e) && RefreshStep(e)
    ensures Invariant(Apply(config, s, e))
  {
    RefreshCounts(config, s, e);
    RefreshKeepsMap(config, s, e);
    RefreshIsOwned(config, s, e);
    SameDriversKeep(s, Apply(config, s, e));
  }

  /** While a refresh goes on, the count is above zero, so nothing that waits for it has moved. */
  lemma SameDriversKeep(s: State, s': State)
    requires Invariant(s) && Counted(s') && MapHolds(s') && s.inFlight > 0
    requires s' == s.(inFlight := s'.inFlight, refreshes := s'.refreshes)
    requires forall r ::
      0 <= r < |s'.refreshes| && s'.refreshes[r].phase != Ended ==> s'.refreshes[r].driver in Drivers(s)
    ensures Invariant(s')
  {
    assert Drivers(s') == Drivers(s);
    assert InUseOwned(s') && StrangersClosed(s') && CloserHolds(s');
  }

  lemma SameUseKeeps(s: State, s': State)
    requires Invariant(s) && CloserHolds(s') && Drivers(s') == Drivers(s)
    requires s'.calls == s.calls && s'.refreshes == s.refreshes && s'.inFlight == s.inFlight &&
      s'.pendingReports == s.pendingReports
    requires s'.producer == s.producer && s'.producers == s.producers && |s'.closes| == |s.closes|
    requires forall d :: 0 <= d < |s.closes| && d !in Drivers(s) ==> s'.closes[d] == s.closes[d]
    ensures Invariant(s')
  {
    SameMap(s, s');
    assert Counted(s') && InUseOwned(s') && StrangersClosed(s');
  }

  lemma SameMap(s: State, s': State)
    requires MapHolds(s) && s'.calls == s.calls && s'.refreshes == s.refreshes
    ensures MapHolds(s')
  {
    forall r | 0 <= r < |s'.refreshes|
      ensures ListedHolds(s', s'.refreshes[r])
    {
      assert ListedHolds(s, s.refreshes[r]);
    }
  }

  lemma CloseKeeps(config: Config, s: State, e: Event)
    requires Invariant(s) && Enabled(s, e) && (e.Close? || e.CloseTimesOut?)
    ensures Invariant(Apply(config, s, e))
  {
    var s' := Apply(config, s, e);
    assert Drivers(s') == Drivers(s);
    assert CloserHolds(s');
    SameUseKeeps(s, s');
  }

  lemma ShutdownKeeps(config: Config, s: State, e: Event)
    requires Invariant(s) && Enabled(s, e) && (e.Flushed? || e.WaitOver? || e.CloseDriver?)
    ensures Invariant(Apply(config, s, e))
  {
    var s' := Apply(config, s, e);
    assert Drivers(s') == Drivers(s);
    assert CloserHolds(s');
    SameUseKeeps(s, s');
  }

  lemma NothingInUse(s: State)
    requires Counted(s) && MapHolds(s) && s.inFlight == 0
    ensures forall c :: 0 <= c < |s.calls| ==> s.calls[c].stage == Over
    ensures forall r :: 0 <= r < |s.refreshes| ==> s.refreshes[r].phase == Ended
    ensures s.pendingReports == 0 && Unreported(s.calls) == 0
  {
    IdleCounts(s.calls);
    AllOverReported(s.calls);
    NoneLive(s.refreshes);
    forall r | 0 <= r < |s.refreshes|
      ensures s.refreshes[r].phase == Ended
    {
      assert ListedHolds(s, s.refreshes[r]) && !IsLive(s.refreshes[r]);
    }
  }

  lemma {:induction false} AllOverReported(calls: seq<Call>)
    requires forall c :: 0 <= c < |calls| ==> CallHolds(calls[c]) && calls[c].stage == Over
    ensures Unreported(calls) == 0
  {
    if calls != [] {
      assert CallHolds(calls[|calls| - 1]);
      AllOverReported(calls[..|calls| - 1]);
    }
  }

  lemma FinishKeeps(config: Config, s: State, e: Event)
    requires Invariant(s) && Enabled(s, e) && e.Finish?
    ensures Invariant(Apply(config, s, e))
  {
    var s' := Apply(config, s, e);
    NothingInUse(s);
    assert Drivers(s') == {};
    SameMap(s, s');
    assert Counted(s') && InUseOwned(s');
  }

  lemma StepKeeps(config: Config, s: State, e: Event)
    requires Invariant(s) && Enabled(s, e)
    ensures Invariant(Apply(config, s, e))
  {
    if CallStep(e) {
      CallChangesOne(config, s, e);
      CallIsFree(s, e);
      CallKeeps(s, Apply(config, s, e), e.c);
    } else if e.Connect? {
      ConnectKeeps(config, s, e);
    } else if e.Begin? {
      BeginKeeps(config, s, e);
    } else if RefreshStep(e) {
      RefreshKeeps(config, s, e);
    } else if e.Finish? {
      FinishKeeps(config, s, e);
    } else if e.Close? || e.CloseTimesOut? {
      CloseKeeps(config, s, e);
    } else {
      ShutdownKeeps(config, s, e);
    }
  }

  lemma StartHolds(s: State)
    requires |s.calls| == 0 && |s.refreshes| == 0 && |s.closes| == 0 && s.inFlight == 0 && s.pendingReports == 0
    requires s.producer == None && s.producers == map[] && s.closer == NotStarted && !s.closed
    ensures Invariant(s)
  {
    assert Drivers(s) == {};
  }

  lemma {:induction false} RunKeeps(config: Config, states: seq<State>, events: seq<Event>, n: nat)
    requires IsRun(config, states, events) && n < |states|
    ensures Invariant(states[n])
  {
    if n == 0 {
      StartHolds(states[0]);
    } else {
      RunKeeps(config, states, events, n - 1);
      assert Step(config, states[n - 1], events[n - 1], states[n]);
      StepKeeps(config, states[n - 1], events[n - 1]);
    }
  }

  // ------------------------------------------------------------------------
  // Over every run, under every policy
  // ------------------------------------------------------------------------

  /** Work that still needs a driver: a call that is not over, an accepted record whose report
      nobody has consumed, or a metadata refresh that has not ended. */
  predicate InUse(s: State, d: nat) {
    || (exists c ::
      0 <= c < |s.calls| && s.calls[c].driver == d &&
        (s.calls[c].stage != Over || s.calls[c].consumed < s.calls[c].accepted))
    || (exists r :: 0 <= r < |s.refreshes| && s.refreshes[r].phase != Ended && s.refreshes[r].driver == d)
  }

  lemma NoDriverClosedInUse(config: Config, states: seq<State>, events: seq<Event>, n: nat, d: nat)
    requires IsRun(config, states, events) && n < |states|
    requires d < |states[n].closes| && states[n].closes[d] > 0
    ensures !InUse(states[n], d)
  {
    RunKeeps(config, states, events, n);
    var s := states[n];
    if s.closer.Closing? || s.closer.Cleared? {
      NothingInUse(s);
    }
    assert forall c :: 0 <= c < |s.calls| ==> CallHolds(s.calls[c]);
    assert s.closer.Closing? || s.closer.Cleared? || d !in Drivers(s);
  }

  /** A driver is closed at most once; when the shutdown is over, every driver ever created has
      been closed exactly once. */
  lemma EveryDriverClosedOnce(config: Config, states: seq<State>, events: seq<Event>, n: nat, d: nat)
    requires IsRun(config, states, events) && n < |states| && d < |states[n].closes|
    ensures states[n].closes[d] <= 1
    ensures states[n].closer == Cleared ==> states[n].closes[d] == 1
  {
    RunKeeps(config, states, events, n);
  }

  /** The two counters say what they are meant to say at every moment. */
  lemma CountersAreExact(config: Config, states: seq<State>, events: seq<Event>, n: nat)
    requires IsRun(config, states, events) && n < |states|
    ensures states[n].inFlight == Active(states[n].calls) + Live(states[n].refreshes)
    ensures Unreported(states[n].calls) == states[n].pendingReports + Uncounted(states[n].calls)
  {
    RunKeeps(config, states, events, n);
    ReportsAreCounted(states[n].calls);
  }

  /** Once Close has begun no call is admitted and no driver created, whatever Connect and the
      producing calls try. */
  lemma NothingAdmittedAfterClose(config: Config, states: seq<State>, events: seq<Event>, i: nat, j: nat)
    requires IsRun(config, states, events) && i <= j < |states| && states[i].closed
    ensures states[j].closed && |states[j].calls| == |states[i].calls| && |states[j].closes| == |states[i].closes|
  {
    if i < j {
      NothingAdmittedAfterClose(config, states, events, i, j - 1);
      assert Step(config, states[j - 1], events[j - 1], states[j]);
    }
  }

  /** Wait has returned for good: nothing raises inFlight from zero after Close has begun. */
  lemma NoRevival(config: Config, states: seq<State>, events: seq<Event>, n: nat)
    requires IsRun(config, states, events) && n < |events| && states[n].closed && states[n].inFlight == 0
    ensures states[n + 1].inFlight == 0
  {
    RunKeeps(config, states, events, n);
    NothingInUse(states[n]);
    assert Step(config, states[n], events[n], states[n + 1]);
    assert forall c :: 0 <= c < |states[n].calls| ==> CallHolds(states[n].calls[c]);
  }

  /** Under AwaitDelivery the error for reports left after the drain is never returned: whenever
      Wait returns, no report is outstanding. */
  lemma AwaitedDrainLeavesNothing(config: Config, states: seq<State>, events: seq<Event>, n: nat)
    requires IsRun(config, states, events) && n < |states|
    ensures states[n].closer.Closing? ==> states[n].pendingReports == 0 && Unreported(states[n].calls) == 0
    ensures states[n].result != Unresolved
  {
    RunKeeps(config, states, events, n);
    if states[n].closer.Closing? {
      NothingInUse(states[n]);
    }
    NeverUnresolved(config, states, events, n);
  }

  lemma {:induction false} NeverUnresolved(config: Config, states: seq<State>, events: seq<Event>, n: nat)
    requires IsRun(config, states, events) && n < |states|
    ensures states[n].result != Unresolved
  {
    if n > 0 {
      NeverUnresolved(config, states, events, n - 1);
      RunKeeps(config, states, events, n - 1);
      assert Step(config, states[n - 1], events[n - 1], states[n]);
      ResultStaysResolved(config, states[n - 1], events[n - 1]);
    }
  }

  lemma ResultStaysResolved(config: Config, s: State, e: Event)
    requires Invariant(s) && Enabled(s, e) && s.result != Unresolved
    ensures Apply(config, s, e).result != Unresolved
  {
    if e.Finish? {
      NothingInUse(s);
    }
  }

  /** Steps of the producer's own goroutines and of the drivers. */
  predicate Progress(s: State, e: Event) {
    Enabled(s, e) && (e.StartRefresh? || e.UnlistRefresh? || e.EndRefresh? || e.BuildFails? || e.Count? ||
      e.StopEnqueuing? || e.Deliver? || e.Consume? || e.EndDrain?
                      || e.Flushed? || e.WaitOver? || e.CloseDriver? || e.Finish?)
  }

  lemma CallCanMove(s: State, c: nat) returns (e: Event)
    requires c < |s.calls| && CallHolds(s.calls[c]) && s.calls[c].stage != Over
    ensures Progress(s, e)
  {
    var call := s.calls[c];
    match call.stage
    case Building =>
      if Free(s, c) {
        e := BuildFails(c);
      } else {
        var r :| 0 <= r < |s.refreshes| && s.refreshes[r].phase == Listed && s.refreshes[r].starter == c;
        e := StartRefresh(r);
      }
    case Enqueuing => e := if call.counted < call.accepted then Count(c) else StopEnqueuing(c);
    case Draining =>
      e := if call.consumed == call.accepted then EndDrain(c)
        else if call.consumed < call.delivered then Consume(c) else Deliver(c);
  }

  /** Until the shutdown is over there is always a step to take that needs no caller. */
  lemma ShutdownNeverSticks(config: Config, states: seq<State>, events: seq<Event>, n: nat) returns (e: Event)
    requires IsRun(config, states, events) && n < |states| && states[n].closed && states[n].closer != Cleared
    ensures Progress(states[n], e)
  {
    RunKeeps(config, states, events, n);
    var s := states[n];
    ReachedCloser(config, states, events, n);
    match s.closer
    case Flushing(_, left) =>
      var d :| d in left;
      e := Flushed(d, 0);
    case Waiting(_) =>
      if s.inFlight == 0 {
        e := WaitOver;
      } else if Live(s.refreshes) > 0 {
        var r := SomeLive(s.refreshes);
        e := if s.refreshes[r].phase == Running then UnlistRefresh(r) else EndRefresh(r);
      } else {
        var c := SomeActive(s.calls);
        e := CallCanMove(s, c);
      }
    case Closing(_, left) =>
      if left == {} {
        e := Finish;
      } else {
        var d :| d in left;
        e := CloseDriver(d);
      }
  }

  lemma {:induction false} ReachedCloser(config: Config, states: seq<State>, events: seq<Event>, n: nat)
    requires IsRun(config, states, events) && n < |states|
    ensures states[n].closed <==> states[n].closer != NotStarted
    ensures states[n].closer.Flushing? ==> states[n].closer.left != {}
  {
    if n > 0 {
      ReachedCloser(config, states, events, n - 1);
      assert Step(config, states[n - 1], events[n - 1], states[n]);
    }
  }
}
