/** When the consumer of FranzConsumer does lose a record: a step loses one exactly when it gives
    up a partition whose next reader nothing takes back far enough, and a fatal poll when it
    came with a record still due. Each loss comes with a run that shows it. */
module FranzLosses {
  import opened Options
  import opened RewindPlans
  import opened PositionLists
  import opened PartitionWorkers
  import opened FranzConsumer
  import opened FranzSafety

  // ------------------------------------------------------------------------
  // Partitions given up
  // ------------------------------------------------------------------------

  /** Step e ends this member's hold on partition k: a revocation, a loss, or a transient poll
      error without records, which replaces the client. */
  predicate GivesUp(s: State, e: Event, k: Partition) {
    k in s.positions && match e
      case Revoke(j, _) => j == k
      case Lose(j) => j == k
      case Poll(fetched, _, err, _) => IsTransient(err) && fetched == map[]
      case _ => false
  }

  /** Giving partition k up still commits its mark. */
  predicate FlushesAtEnd(s: State, e: Event, k: Partition) {
    k in s.marked && k !in s.evicted && match e
      case Revoke(_, final) => final
      case Poll(_, _, _, flushed) => k in flushed
      case _ => false
  }

  predicate Reached(s: State, k: Partition, o: int) {
    NextFetch(s, k).Some? && NextFetch(s, k).value <= o
  }

  lemma GivenUp(log: Log, cfg: Config, s: State, e: Event, k: Partition)
    requires Shape(log, cfg, s) && Enabled(log, cfg, s, e)
    ensures GivesUp(s, e, k) <==> k in s.positions && k !in Apply(cfg, s, e).positions
  {
    if e.Poll? {
      GivenUpByPoll(log, cfg, s, e, k);
    } else if e.EndWave? {
      EndWaveIsRewind(log, cfg, s, e);
    } else if e.Work? {
    } else {
      GivenUpByCoordination(cfg, s, e, k);
    }
  }

  lemma GivenUpByPoll(log: Log, cfg: Config, s: State, e: Event, k: Partition)
    requires Enabled(log, cfg, s, e) && e.Poll?
    ensures GivesUp(s, e, k) <==> k in s.positions && k !in Apply(cfg, s, e).positions
  {
    if e.err.Nil? {
      CleanPollReturns(cfg, s, e);
    } else if !IsTransient(e.err) {
      FatalPollReturns(cfg, s, e);
    } else if e.fetched == map[] {
      EmptyTransientPollDrops(log, cfg, s, e);
    } else {
      TransientPollIsRewind(log, cfg, s, e);
    }
  }

  lemma CleanPollReturns(cfg: Config, s: State, e: Event)
    requires e.Poll? && e.err.Nil? && forall k :: k in e.fetched ==> e.fetched[k] != []
    ensures Apply(cfg, s, e) == Returned(s, e.fetched).(wave := Apply(cfg, s, e).wave)
    ensures Apply(cfg, s, e).wave == map k | k in e.fetched :: Group(e.fetched[k], 0, Nil)
  {
  }

  lemma FatalPollReturns(cfg: Config, s: State, e: Event)
    requires FatalPoll(e) && !Decided(e.err) && forall k :: k in e.fetched ==> e.fetched[k] != []
    ensures Apply(cfg, s, e) == Returned(s, e.fetched)
  {
  }

  lemma GivenUpByCoordination(cfg: Config, s: State, e: Event, k: Partition)
    requires Coordination(e) && (e.Flush? ==> e.k in s.marked)
    ensures GivesUp(s, e, k) <==> k in s.positions && k !in Apply(cfg, s, e).positions
  {
  }

  // ------------------------------------------------------------------------
  // Partitions held by nobody here
  // ------------------------------------------------------------------------

  /** While a partition is away, nothing this member does moves its next fetch past a record,
      and another member only does so by a commit that takes the record over. */
  lemma AbsentStaysReached(log: Log, cfg: Config, s: State, e: Event, k: Partition, o: int)
    requires Shape(log, cfg, s) && Enabled(log, cfg, s, e)
    requires k !in s.positions && k !in Apply(cfg, s, e).positions && Reached(s, k, o)
    requires !(k in Apply(cfg, s, e).ceded && o < Apply(cfg, s, e).ceded[k])
    ensures Reached(Apply(cfg, s, e), k, o)
  {
    match e
    case Poll(_, _, _, _) => AbsentThroughPoll(log, cfg, s, e, k, o);
    case Work(_, _, _) => AbsentThroughWork(log, cfg, s, e, k, o);
    case EndWave(_, _) =>
      EndWaveIsRewind(log, cfg, s, e);
      AbsentThroughRewind(s.(wave := map[]), PlanOf(Joined(Reports(s.wave, e.order))), k, o);
    case _ => AbsentThroughCoordination(log, cfg, s, e, k, o);
  }

  lemma AbsentThroughCoordination(log: Log, cfg: Config, s: State, e: Event, k: Partition, o: int)
    requires Shape(log, cfg, s) && Enabled(log, cfg, s, e) && Coordination(e)
    requires k !in s.positions && k !in Apply(cfg, s, e).positions && Reached(s, k, o)
    requires !(k in Apply(cfg, s, e).ceded && o < Apply(cfg, s, e).ceded[k])
    ensures Reached(Apply(cfg, s, e), k, o)
  {
  }

  lemma AbsentThroughRewind(t: State, plan: Plan, k: Partition, o: int)
    requires k !in t.positions && Reached(t, k, o)
    ensures Reached(t.(pending := Remember(t.pending, plan), positions := Rewound(t.positions, plan)), k, o)
  {
  }

  lemma AbsentThroughDrop(s: State, flushed: set<Partition>, k: Partition, o: int)
    requires s.marked.Keys <= s.positions.Keys && k !in s.positions && Reached(s, k, o)
    ensures Reached(DropClient(s, flushed), k, o)
  {
  }

  lemma AbsentThroughPoll(log: Log, cfg: Config, s: State, e: Event, k: Partition, o: int)
    requires Shape(log, cfg, s) && Enabled(log, cfg, s, e) && e.Poll?
    requires k !in s.positions && Reached(s, k, o)
    ensures Reached(Apply(cfg, s, e), k, o)
  {
    var t := Returned(s, e.fetched);
    assert Reached(t, k, o) && k !in t.positions;
    if e.err.Nil? {
      CleanPollReturns(cfg, s, e);
    } else if !IsTransient(e.err) {
      FatalPollReturns(cfg, s, e);
    } else if e.fetched == map[] {
      EmptyTransientPollDrops(log, cfg, s, e);
      AbsentThroughDrop(s, e.flushed, k, o);
    } else {
      TransientPollIsRewind(log, cfg, s, e);
      AbsentThroughRewind(t, Collect(map[], e.listing), k, o);
    }
  }

  lemma AbsentThroughWork(log: Log, cfg: Config, s: State, e: Event, k: Partition, o: int)
    requires Shape(log, cfg, s) && Enabled(log, cfg, s, e) && e.Work?
    requires k !in s.positions && Reached(s, k, o)
    ensures Reached(Apply(cfg, s, e), k, o)
  {
    var unit := Unit(cfg, s.wave[e.k]);
    UnitKey(log, cfg, s, e.k);
    assert k !in Apply(cfg, s, e).positions && k != e.k;
    assert k in s.pending ==> k in Complete(s.pending, unit[|unit| - 1].position);
  }

  lemma UnitKey(log: Log, cfg: Config, s: State, k: Partition)
    requires Shape(log, cfg, s) && k in s.wave && s.wave[k].settled < |s.wave[k].records|
    ensures var unit := Unit(cfg, s.wave[k]); unit[|unit| - 1].position.Key() == k
  {
    assert GroupOk(log, cfg, k, s.positions[k], s.polled, s.wave[k]);
  }

  // ------------------------------------------------------------------------
  // Losses happen where partitions are given up
  // ------------------------------------------------------------------------

  /** What is owed on a partition the member does not hold was owed before the step. */
  lemma AbsentWasOwed(log: Log, cfg: Config, s: State, e: Event, settled: set<(Partition, int)>,
        settled': set<(Partition, int)>, k: Partition, o: int)
    requires Shape(log, cfg, s) && Enabled(log, cfg, s, e) && k !in s.positions
    requires settled <= settled'
    requires Owed(log, Apply(cfg, s, e).(settled := settled'), k, o)
    ensures Owed(log, s.(settled := settled), k, o)
    ensures !(k in Apply(cfg, s, e).ceded && o < Apply(cfg, s, e).ceded[k])
  {
    var s' := Apply(cfg, s, e);
    CededOnlyGrows(log, cfg, s, e, k, o);
    if e.Poll? {
      PolledByPoll(log, cfg, s, e);
      assert k !in e.fetched;
    } else {
      PolledOnlyByPolls(log, cfg, s, e);
    }
  }

  lemma CededOnlyGrows(log: Log, cfg: Config, s: State, e: Event, k: Partition, o: int)
    requires Enabled(log, cfg, s, e)
    ensures k in s.ceded && o < s.ceded[k] ==> k in Apply(cfg, s, e).ceded && o < Apply(cfg, s, e).ceded[k]
  {
  }

  lemma PolledByPoll(log: Log, cfg: Config, s: State, e: Event)
    requires Enabled(log, cfg, s, e) && e.Poll?
    ensures Apply(cfg, s, e).polled == s.polled + AllOffsets(e.fetched)
    ensures Apply(cfg, s, e).settled == s.settled && Apply(cfg, s, e).crossed == s.crossed
  {
    if e.err.Nil? {
      CleanPollReturns(cfg, s, e);
    } else if !IsTransient(e.err) {
      FatalPollReturns(cfg, s, e);
    } else if e.fetched == map[] {
      EmptyTransientPollDrops(log, cfg, s, e);
      assert AllOffsets(e.fetched) == {};
    } else {
      TransientPollIsRewind(log, cfg, s, e);
    }
  }

  lemma PolledOnlyByPolls(log: Log, cfg: Config, s: State, e: Event)
    requires Enabled(log, cfg, s, e) && !e.Poll?
    ensures Apply(cfg, s, e).polled == s.polled
  {
  }

  /** A step that gives a partition up changes neither what is settled nor what is polled. */
  lemma GivingUpOwes(log: Log, cfg: Config, s: State, e: Event, settled: set<(Partition, int)>, k: Partition, o: int)
    requires Shape(log, cfg, s) && Enabled(log, cfg, s, e) && GivesUp(s, e, k)
    ensures Owed(log, Apply(cfg, s, e).(settled := settled), k, o) <==> Owed(log, s.(settled := settled), k, o)
    ensures k !in Apply(cfg, s, e).wave && k !in s.wave
  {
    if e.Poll? {
      EmptyTransientPollDrops(log, cfg, s, e);
    }
  }

  lemma KeptIsReached(log: Log, cfg: Config, s: State, e: Event, settled: set<(Partition, int)>,
        settled': set<(Partition, int)>, k: Partition, o: int)
    requires Shape(log, cfg, s) && Enabled(log, cfg, s, e)
    requires settled <= settled' && NoRecordLost(log, s.(settled := settled))
    requires PositionsCover(log, Apply(cfg, s, e).(settled := settled'))
    requires Owed(log, Apply(cfg, s, e).(settled := settled'), k, o) && !InWave(Apply(cfg, s, e), k, o) &&
      !GivesUp(s, e, k)
    ensures Reached(Apply(cfg, s, e), k, o)
  {
    var x, x' := s.(settled := settled), Apply(cfg, s, e).(settled := settled');
    GivenUp(log, cfg, s, e, k);
    if k in x'.positions {
      assert !InWave(x', k, o);
    } else {
      AbsentWasOwed(log, cfg, s, e, settled, settled', k, o);
      assert !InWave(x, k, o);
      assert NextFetch(x, k) == NextFetch(s, k);
      AbsentStaysReached(log, cfg, s, e, k, o);
    }
  }

  /** Whichever records count as settled: if the positions cover what is owed after the step, only
      partitions it gives up can lose a record. */
  lemma LossIsGivenUp(log: Log, cfg: Config, s: State, e: Event, settled: set<(Partition, int)>,
        settled': set<(Partition, int)>)
    requires Shape(log, cfg, s) && Enabled(log, cfg, s, e)
    requires settled <= settled' && (!e.Work? ==> settled == settled')
    requires NoRecordLost(log, s.(settled := settled))
    requires PositionsCover(log, Apply(cfg, s, e).(settled := settled'))
    ensures NoRecordLost(log, Apply(cfg, s, e).(settled := settled')) <==>
      forall k, o :: GivesUp(s, e, k) && Owed(log, s.(settled := settled), k, o) ==> Reached(Apply(cfg, s, e), k, o)
  {
    var s' := Apply(cfg, s, e);
    forall k, o | GivesUp(s, e, k)
      ensures Owed(log, s'.(settled := settled'), k, o) <==> Owed(log, s.(settled := settled), k, o)
      ensures !InWave(s', k, o)
    {
      GivingUpOwes(log, cfg, s, e, settled, k, o);
    }
    forall k, o | Owed(log, s'.(settled := settled'), k, o) && !InWave(s', k, o) && !GivesUp(s, e, k)
      ensures Reached(s', k, o)
    {
      KeptIsReached(log, cfg, s, e, settled, settled', k, o);
    }
    LostIn(log, s', settled');
  }

  lemma LostIn(log: Log, s: State, settled: set<(Partition, int)>)
    ensures NoRecordLost(log, s.(settled := settled)) <==>
      forall k, o :: Owed(log, s.(settled := settled), k, o) ==> InWave(s, k, o) || Reached(s, k, o)
  {
    var x := s.(settled := settled);
    forall k, o
      ensures InWave(x, k, o) == InWave(s, k, o) && Reached(x, k, o) == Reached(s, k, o)
    {
    }
  }

  // ------------------------------------------------------------------------
  // Every commit mode
  // ------------------------------------------------------------------------

  /** Every record owed on a partition the step gives up has a committed offset, a remembered
      position at or below it, or a mark that is committed on the way out. */
  ghost predicate GivesUpCovered(log: Log, s: State, e: Event) {
    forall k, o :: GivesUp(s, e, k) && Owed(log, s, k, o) ==> BoundaryKept(s, k, o) || FlushesAtEnd(s, e, k)
  }

  lemma ReachedAfterGivingUp(log: Log, cfg: Config, s: State, e: Event, k: Partition, o: int)
    requires Base(log, cfg, s) && Enabled(log, cfg, s, e) && GivesUp(s, e, k) && Owed(log, s, k, o)
    ensures Reached(Apply(cfg, s, e), k, o) <==> BoundaryKept(s, k, o) || FlushesAtEnd(s, e, k)
  {
    if e.Poll? {
      EmptyTransientPollDrops(log, cfg, s, e);
    }
  }

  /** In every commit mode a step that is not a fatal poll loses a record exactly when it gives
      up a partition on which an owed record is not covered. */
  lemma StepLosesExactlyUncovered(log: Log, cfg: Config, s: State, e: Event)
    requires Base(log, cfg, s) && NoRecordLost(log, s) && Enabled(log, cfg, s, e) && !FatalPoll(e)
    ensures NoRecordLost(log, Apply(cfg, s, e)) <==> GivesUpCovered(log, s, e)
  {
    var s' := Apply(cfg, s, e);
    StepKeepsBase(log, cfg, s, e);
    SettledOnlyGrows(log, cfg, s, e);
    assert s == s.(settled := s.settled) && s' == s'.(settled := s'.settled);
    LossIsGivenUp(log, cfg, s, e, s.settled, s'.settled);
    forall k, o | GivesUp(s, e, k) && Owed(log, s, k, o)
      ensures Reached(s', k, o) <==> BoundaryKept(s, k, o) || FlushesAtEnd(s, e, k)
    {
      ReachedAfterGivingUp(log, cfg, s, e, k, o);
    }
  }

  lemma SettledOnlyGrows(log: Log, cfg: Config, s: State, e: Event)
    requires Enabled(log, cfg, s, e)
    ensures s.settled <= Apply(cfg, s, e).settled && s.crossed <= Apply(cfg, s, e).crossed
    ensures !e.Work? ==> Apply(cfg, s, e).settled == s.settled && Apply(cfg, s, e).crossed == s.crossed
  {
    if e.Poll? {
      PolledByPoll(log, cfg, s, e);
    } else if e.Work? {
    } else if e.EndWave? {
      EndWaveSettlesNothing(log, cfg, s, e);
    }
  }

  lemma EndWaveSettlesNothing(log: Log, cfg: Config, s: State, e: Event)
    requires Enabled(log, cfg, s, e) && e.EndWave?
    ensures Apply(cfg, s, e).settled == s.settled && Apply(cfg, s, e).crossed == s.crossed
  {
  }

  /** Whether a step can be taken without losing a record, read from the state before it. */
  ghost predicate Harmless(log: Log, s: State, e: Event) {
    if FatalPoll(e) then ReturnsNothingDue(log, s, e) else GivesUpCovered(log, s, e)
  }

  lemma StepLosesExactlyWhenHarmful(log: Log, cfg: Config, s: State, e: Event)
    requires Base(log, cfg, s) && NoRecordLost(log, s) && Enabled(log, cfg, s, e)
    ensures NoRecordLost(log, Apply(cfg, s, e)) <==> Harmless(log, s, e)
    ensures Harmless(log, s, e) ==> Base(log, cfg, Apply(cfg, s, e))
  {
    if FatalPoll(e) {
      FatalPollLosesExactlyWhatWasDue(log, cfg, s, e);
      if Harmless(log, s, e) {
        FatalPollOwes(log, cfg, s, e);
      }
    } else {
      StepLosesExactlyUncovered(log, cfg, s, e);
      StepKeepsBase(log, cfg, s, e);
    }
  }

  ghost predicate AllHarmless(log: Log, states: seq<State>, events: seq<Event>, n: nat)
    requires n <= |events| && |states| == |events| + 1
  {
    forall i :: 0 <= i < n ==> Harmless(log, states[i], events[i])
  }

  ghost predicate NothingLost(log: Log, states: seq<State>, n: nat)
    requires n < |states|
  {
    forall i :: 0 <= i <= n ==> NoRecordLost(log, states[i])
  }

  lemma OneMoreHarmless(log: Log, states: seq<State>, events: seq<Event>, n: nat)
    requires 0 < n <= |events| && |states| == |events| + 1
    ensures AllHarmless(log, states, events, n) <==>
      AllHarmless(log, states, events, n - 1) && Harmless(log, states[n - 1], events[n - 1])
    ensures NothingLost(log, states, n) <==> NothingLost(log, states, n - 1) && NoRecordLost(log, states[n])
    ensures NothingLost(log, states, n - 1) ==> NoRecordLost(log, states[n - 1])
  {
  }

  /** Over every run, in every commit mode: no state has lost a record exactly when every step
      before it was harmless. */
  lemma {:induction false} RunLosesNothingIff(log: Log, cfg: Config, states: seq<State>, events: seq<Event>, n: nat)
    requires IsRun(log, cfg, states, events) && n < |states|
    ensures NothingLost(log, states, n) <==> AllHarmless(log, states, events, n)
    ensures AllHarmless(log, states, events, n) ==> Base(log, cfg, states[n])
  {
    if n == 0 {
      assert NoRecordLost(log, INITIAL) && Base(log, cfg, INITIAL);
    } else {
      RunLosesNothingIff(log, cfg, states, events, n - 1);
      assert Step(log, cfg, states[n - 1], events[n - 1], states[n]);
      OneMoreHarmless(log, states, events, n);
      if AllHarmless(log, states, events, n - 1) {
        StepLosesExactlyWhenHarmful(log, cfg, states[n - 1], events[n - 1]);
      }
    }
  }

  // ------------------------------------------------------------------------
  // Commits that were applied although they failed
  // ------------------------------------------------------------------------

  /** The state as this member knows it: a commit it saw fail settles nothing. */
  function AsKnown(s: State): State {
    s.(settled := s.crossed)
  }

  /** What positions depend on: nothing of the coordinator. */
  function Uncommitted(s: State): State {
    s.(settled := s.crossed, committed := map[])
  }

  predicate SamePositions(a: State, b: State) {
    a.positions == b.positions && a.wave == b.wave && a.polled == b.polled && a.settled == b.settled &&
      a.ceded == b.ceded
  }

  lemma CoverTransfers(log: Log, a: State, b: State)
    requires SamePositions(a, b) && PositionsCover(log, a)
    ensures PositionsCover(log, b)
  {
    forall k, o | Owed(log, b, k, o) && !InWave(b, k, o) && k in b.positions
      ensures b.positions[k] <= o
    {
      assert Owed(log, a, k, o) && !InWave(a, k, o);
    }
  }

  lemma UncommittedIsBase(log: Log, cfg: Config, s: State)
    requires Shape(log, cfg, s) && s.marked == map[] && PositionsCover(log, AsKnown(s))
    ensures Base(log, cfg, Uncommitted(s))
  {
    CoverTransfers(log, AsKnown(s), Uncommitted(s));
  }

  lemma PollKeepsKnownPositions(log: Log, cfg: Config, s: State, e: Event)
    requires Base(log, cfg, Uncommitted(s)) && Enabled(log, cfg, s, e) && e.Poll?
    requires FatalPoll(e) ==> ReturnsNothingDue(log, AsKnown(s), e)
    ensures PositionsCover(log, AsKnown(Apply(cfg, s, e)))
  {
    var u := Uncommitted(s);
    if FatalPoll(e) {
      forall k, o | Due(log, u, k, o)
        ensures Due(log, AsKnown(s), k, o)
      {
      }
      FatalPollOwes(log, cfg, u, e);
    } else if e.err.Nil? {
      GoodPollKeepsBase(log, cfg, u, e);
    } else if e.fetched != map[] {
      TransientPollKeepsBase(log, cfg, u, e);
    } else {
      EmptyTransientPollDrops(log, cfg, u, e);
      DroppedClientKeepsBase(log, cfg, u, e.flushed);
    }
    PollsAlike(log, cfg, s, e);
    CoverTransfers(log, Apply(cfg, u, e), AsKnown(Apply(cfg, s, e)));
  }

  lemma PollsAlike(log: Log, cfg: Config, s: State, e: Event)
    requires Enabled(log, cfg, s, e) && e.Poll?
    ensures SamePositions(Apply(cfg, Uncommitted(s), e), AsKnown(Apply(cfg, s, e)))
  {
    var u := Uncommitted(s);
    if e.err.Nil? {
      CleanPollReturns(cfg, s, e);
      CleanPollReturns(cfg, u, e);
    } else if !IsTransient(e.err) {
      FatalPollReturns(cfg, s, e);
      FatalPollReturns(cfg, u, e);
    } else if e.fetched == map[] {
      EmptyTransientPollDrops(log, cfg, s, e);
      EmptyTransientPollDrops(log, cfg, u, e);
    } else {
      TransientPollIsRewind(log, cfg, s, e);
      TransientPollIsRewind(log, cfg, u, e);
    }
  }

  lemma EndWaveKeepsKnownPositions(log: Log, cfg: Config, s: State, e: Event)
    requires Base(log, cfg, Uncommitted(s)) && Enabled(log, cfg, s, e) && e.EndWave?
    requires Shape(log, cfg, s)
    ensures PositionsCover(log, AsKnown(Apply(cfg, s, e)))
  {
    var u := Uncommitted(s);
    EndWaveKeepsBase(log, cfg, u, e);
    EndWaveIsRewind(log, cfg, s, e);
    EndWaveIsRewind(log, cfg, u, e);
    CoverTransfers(log, Apply(cfg, u, e), AsKnown(Apply(cfg, s, e)));
  }

  lemma WorkKeepsKnownPositions(log: Log, cfg: Config, s: State, e: Event)
    requires !cfg.marks && Base(log, cfg, Uncommitted(s)) && Enabled(log, cfg, s, e) && e.Work?
    ensures PositionsCover(log, AsKnown(Apply(cfg, s, e)))
  {
    var u, failed := Uncommitted(s), Work(e.k, e.o, false);
    WorksAlike(log, cfg, s, e);
    WorkLeavesOwedCovered(log, cfg, u, failed);
    CoverTransfers(log, Apply(cfg, u, failed), AsKnown(Apply(cfg, s, e)));
  }

  /** To this member, a commit that failed but was applied is one that failed. */
  lemma WorksAlike(log: Log, cfg: Config, s: State, e: Event)
    requires !cfg.marks && Enabled(log, cfg, s, e) && e.Work?
    ensures Enabled(log, cfg, Uncommitted(s), Work(e.k, e.o, false))
    ensures SamePositions(Apply(cfg, Uncommitted(s), Work(e.k, e.o, false)), AsKnown(Apply(cfg, s, e)))
  {
    AfterWorkAlike(cfg, s, e.k, e.o, e.applied);
  }

  lemma AfterWorkAlike(cfg: Config, s: State, k: Partition, o: Outcome, applied: bool)
    requires !cfg.marks && k in s.wave && s.wave[k].settled < |s.wave[k].records|
    ensures SamePositions(AfterWork(cfg, Uncommitted(s), k, o, false), AsKnown(AfterWork(cfg, s, k, o, applied)))
  {
  }

  lemma CoordinationKeepsKnownPositions(log: Log, cfg: Config, s: State, e: Event)
    requires Shape(log, cfg, s) && PositionsCover(log, AsKnown(s)) && NoRecordLost(log, AsKnown(s))
    requires Enabled(log, cfg, s, e) && Coordination(e)
    ensures PositionsCover(log, AsKnown(Apply(cfg, s, e)))
  {
    var x, x' := AsKnown(s), AsKnown(Apply(cfg, s, e));
    forall k, o | Owed(log, x', k, o) && !InWave(x', k, o) && k in x'.positions
      ensures x'.positions[k] <= o
    {
      KnownPositionAfter(log, cfg, s, e, k, o);
    }
  }

  lemma KnownPositionAfter(log: Log, cfg: Config, s: State, e: Event, k: Partition, o: int)
    requires Shape(log, cfg, s) && PositionsCover(log, AsKnown(s)) && NoRecordLost(log, AsKnown(s))
    requires Enabled(log, cfg, s, e) && Coordination(e)
    requires var x' := AsKnown(Apply(cfg, s, e)); Owed(log, x', k, o) && !InWave(x', k, o) && k in x'.positions
    ensures Apply(cfg, s, e).positions[k] <= o
  {
    var x := AsKnown(s);
    CededOnlyGrows(log, cfg, s, e, k, o);
    assert Owed(log, x, k, o) && !InWave(x, k, o);
    assert NextFetch(x, k).Some? && NextFetch(x, k).value <= o;
  }

  lemma StepKeepsKnownPositions(log: Log, cfg: Config, s: State, e: Event)
    requires !cfg.marks && Shape(log, cfg, s) && s.marked == map[] && Enabled(log, cfg, s, e)
    requires PositionsCover(log, AsKnown(s)) && NoRecordLost(log, AsKnown(s))
    requires FatalPoll(e) ==> ReturnsNothingDue(log, AsKnown(s), e)
    ensures PositionsCover(log, AsKnown(Apply(cfg, s, e)))
  {
    UncommittedIsBase(log, cfg, s);
    if e.Poll? {
      PollKeepsKnownPositions(log, cfg, s, e);
    } else if e.Work? {
      WorkKeepsKnownPositions(log, cfg, s, e);
    } else if e.EndWave? {
      EndWaveKeepsKnownPositions(log, cfg, s, e);
    } else {
      CoordinationKeepsKnownPositions(log, cfg, s, e);
    }
  }

  /** With synchronous commits: whatever a commit settled has left a committed offset. */
  ghost predicate Known(log: Log, cfg: Config, s: State) {
    && Invariant(log, cfg, s) && PositionsCover(log, AsKnown(s))
    && s.marked == map[] && s.crossed <= s.settled
    && forall k, o :: (k, o) in s.settled ==> k in s.committed
  }

  lemma StepKeepsSettledCommitted(log: Log, cfg: Config, s: State, e: Event)
    requires !cfg.marks && Shape(log, cfg, s) && Enabled(log, cfg, s, e)
    requires s.marked == map[] && s.crossed <= s.settled && forall k, o :: (k, o) in s.settled ==> k in s.committed
    ensures var s' := Apply(cfg, s, e);
      s'.marked == map[] && s'.crossed <= s'.settled && forall k, o :: (k, o) in s'.settled ==> k in s'.committed
  {
    if e.Poll? {
      if !e.err.Nil? && IsTransient(e.err) {
        if e.fetched == map[] {
          EmptyTransientPollDrops(log, cfg, s, e);
        } else {
          TransientPollIsRewind(log, cfg, s, e);
        }
      }
    } else if e.EndWave? {
      EndWaveIsRewind(log, cfg, s, e);
    }
  }

  /** No partition is given up whose committed offset has passed a record that, as far as this
      member knows, is still owed; a fatal poll comes with none. */
  ghost predicate Careful(log: Log, s: State, e: Event) {
    if FatalPoll(e) then ReturnsNothingDue(log, AsKnown(s), e)
    else forall k, o :: GivesUp(s, e, k) && Owed(log, AsKnown(s), k, o) ==> !(k in s.committed && o < s.committed[k])
  }

  lemma CarefulIsHarmless(log: Log, s: State, e: Event)
    requires FatalPoll(e) && s.crossed <= s.settled && ReturnsNothingDue(log, AsKnown(s), e)
    ensures ReturnsNothingDue(log, s, e)
  {
    forall k, o | k in e.fetched && Listed(e.fetched[k], o)
      ensures !Due(log, s, k, o)
    {
      assert !Due(log, AsKnown(s), k, o);
    }
  }

  lemma KnownAfterGivingUp(log: Log, cfg: Config, s: State, e: Event, k: Partition, o: int)
    requires Known(log, cfg, s) && Enabled(log, cfg, s, e) && GivesUp(s, e, k) && Owed(log, AsKnown(s), k, o)
    ensures Reached(Apply(cfg, s, e), k, o) <==> !(k in s.committed && o < s.committed[k])
  {
    GivingUpCommitsNothing(log, cfg, s, e, k);
    if k !in s.committed {
      GivingUpOwes(log, cfg, s, e, s.settled, k, o);
      assert Owed(log, s, k, o) && !InWave(s, k, o);
      assert BoundaryKept(s, k, o);
    }
  }

  lemma GivingUpCommitsNothing(log: Log, cfg: Config, s: State, e: Event, k: Partition)
    requires s.marked == map[] && Shape(log, cfg, s) && Enabled(log, cfg, s, e) && GivesUp(s, e, k)
    ensures var s' := Apply(cfg, s, e); s'.committed == s.committed && s'.pending == s.pending && k !in s'.positions
  {
    if e.Poll? {
      EmptyTransientPollDrops(log, cfg, s, e);
      assert Flushed(s, e.flushed) == s.committed;
    }
  }

  lemma FatalPollLosesKnown(log: Log, cfg: Config, s: State, e: Event)
    requires Enabled(log, cfg, s, e) && FatalPoll(e) && !ReturnsNothingDue(log, AsKnown(s), e)
    ensures !NoRecordLost(log, AsKnown(Apply(cfg, s, e)))
  {
    var x' := AsKnown(Apply(cfg, s, e));
    FatalPollReturns(cfg, s, e);
    var k, o :| k in e.fetched && Listed(e.fetched[k], o) && Due(log, AsKnown(s), k, o);
    ListedInOrder(log, k, e.fetched[k], o);
    assert (k, o) in AllOffsets(e.fetched);
    assert Owed(log, x', k, o) && !InWave(x', k, o);
    assert NextFetch(x', k) == Some(LastOffset(e.fetched[k]) + 1);
  }

  lemma StepKeepsKnown(log: Log, cfg: Config, s: State, e: Event)
    requires !cfg.marks && Known(log, cfg, s) && NoRecordLost(log, AsKnown(s)) && Enabled(log, cfg, s, e)
    requires FatalPoll(e) ==> ReturnsNothingDue(log, AsKnown(s), e)
    ensures Known(log, cfg, Apply(cfg, s, e))
  {
    if FatalPoll(e) {
      CarefulIsHarmless(log, s, e);
    }
    StepKeepsInvariant(log, cfg, s, e);
    StepKeepsKnownPositions(log, cfg, s, e);
    StepKeepsSettledCommitted(log, cfg, s, e);
  }

  lemma StepLosesExactlyWhenCareless(log: Log, cfg: Config, s: State, e: Event)
    requires !cfg.marks && Known(log, cfg, s) && NoRecordLost(log, AsKnown(s)) && Enabled(log, cfg, s, e)
    ensures NoRecordLost(log, AsKnown(Apply(cfg, s, e))) <==> Careful(log, s, e)
  {
    var s' := Apply(cfg, s, e);
    if FatalPoll(e) && !ReturnsNothingDue(log, AsKnown(s), e) {
      FatalPollLosesKnown(log, cfg, s, e);
    } else {
      StepKeepsKnown(log, cfg, s, e);
      SettledOnlyGrows(log, cfg, s, e);
      LossIsGivenUp(log, cfg, s, e, s.crossed, s'.crossed);
      forall k, o | GivesUp(s, e, k) && Owed(log, AsKnown(s), k, o)
        ensures Reached(s', k, o) <==> !(k in s.committed && o < s.committed[k])
      {
        KnownAfterGivingUp(log, cfg, s, e, k, o);
      }
    }
  }

  ghost predicate AllCareful(log: Log, states: seq<State>, events: seq<Event>, n: nat)
    requires n <= |events| && |states| == |events| + 1
  {
    forall i :: 0 <= i < n ==> Careful(log, states[i], events[i])
  }

  ghost predicate NothingSkipped(log: Log, states: seq<State>, n: nat)
    requires n < |states|
  {
    forall i :: 0 <= i <= n ==> NoRecordLost(log, AsKnown(states[i]))
  }

  lemma OneMoreCareful(log: Log, states: seq<State>, events: seq<Event>, n: nat)
    requires 0 < n <= |events| && |states| == |events| + 1
    ensures AllCareful(log, states, events, n) <==>
      AllCareful(log, states, events, n - 1) && Careful(log, states[n - 1], events[n - 1])
    ensures NothingSkipped(log, states, n) <==>
      NothingSkipped(log, states, n - 1) && NoRecordLost(log, AsKnown(states[n]))
    ensures NothingSkipped(log, states, n - 1) ==> NoRecordLost(log, AsKnown(states[n - 1]))
  {
  }

  /** With synchronous commits, over every run, also where a commit failed but was applied: no
      record that, as far as this member knows, is still owed has been lost exactly when every
      step before was careful. Before the handler a commit of that kind belongs to a record no
      handler has seen, so giving the partition up then skips it. */
  lemma {:induction false} RunSkipsNothingIff(log: Log, cfg: Config, states: seq<State>, events: seq<Event>, n: nat)
    requires !cfg.marks && IsRun(log, cfg, states, events) && n < |states|
    ensures NothingSkipped(log, states, n) <==> AllCareful(log, states, events, n)
    ensures AllCareful(log, states, events, n) ==> Known(log, cfg, states[n])
  {
    if n == 0 {
      assert NoRecordLost(log, AsKnown(INITIAL)) && Known(log, cfg, INITIAL);
    } else {
      RunSkipsNothingIff(log, cfg, states, events, n - 1);
      assert Step(log, cfg, states[n - 1], events[n - 1], states[n]);
      OneMoreCareful(log, states, events, n);
      if AllCareful(log, states, events, n - 1) {
        OneCarefulStep(log, cfg, states[n - 1], events[n - 1]);
      }
    }
  }

  lemma OneCarefulStep(log: Log, cfg: Config, s: State, e: Event)
    requires !cfg.marks && Known(log, cfg, s) && NoRecordLost(log, AsKnown(s)) && Enabled(log, cfg, s, e)
    ensures NoRecordLost(log, AsKnown(Apply(cfg, s, e))) <==> Careful(log, s, e)
    ensures Careful(log, s, e) ==> Known(log, cfg, Apply(cfg, s, e))
  {
    StepLosesExactlyWhenCareless(log, cfg, s, e);
    if Careful(log, s, e) {
      StepKeepsKnown(log, cfg, s, e);
    }
  }

  // ------------------------------------------------------------------------
  // Runs that lose a record
  // ------------------------------------------------------------------------

  /** A log with one record per offset. */
  function EveryOffset(k: Partition, o: int): Entry {
    Data
  }

  lemma OnePartitionOffsets(k: Partition, records: seq<Record>)
    ensures AllOffsets(map[k := records]) == OffsetsOf(k, records)
  {
    var fetched := map[k := records];
    forall x | x in OffsetsOf(k, records)
      ensures x in AllOffsets(fetched)
    {
      var i :| 0 <= i < |records| && x == (k, records[i].position.offset);
      assert k in fetched && x == (k, fetched[k][i].position.offset);
    }
  }

  lemma FetchIsEnabled(cfg: Config, k: Partition, s: State, records: seq<Record>, listing: seq<Position>, err: Error)
    requires s.connected && s.wave == map[] && k in s.positions
    requires records != [] && |listing| == |records|
    requires forall i :: 0 <= i < |records| ==> !records[i].control && records[i].position == listing[i]
    requires forall i :: 0 <= i < |records| ==> listing[i].Key() == k && listing[i].offset == s.positions[k] + i
    requires !Decided(err)
    ensures Enabled(EveryOffset, cfg, s, Poll(map[k := records], listing, err, {}))
  {
    forall o | s.positions[k] <= o <= LastOffset(records)
      ensures Listed(records, o)
    {
      assert records[o - s.positions[k]].position.offset == o;
    }
    forall p | p in listing
      ensures Listed(records, p.offset)
    {
      var i :| 0 <= i < |listing| && listing[i] == p;
      assert records[i].position.offset == p.offset;
    }
  }

  lemma FetchedState(cfg: Config, k: Partition, s: State, records: seq<Record>, listing: seq<Position>)
    requires k in s.positions && records != []
    ensures Apply(cfg, s, Poll(map[k := records], listing, Nil, {})) ==
      s.(positions := s.positions[k := LastOffset(records) + 1],
         polled := s.polled + OffsetsOf(k, records), wave := map[k := Group(records, 0, Nil)])
  {
    OnePartitionOffsets(k, records);
    assert Returned(s, map[k := records]).positions == s.positions[k := LastOffset(records) + 1];
  }

  lemma OnePlan(report: Error, p: Position)
    requires IsPlanner(report) && PlannedHere(report) == [p]
    ensures Decided(Joined([report])) && PlanOf(Joined([report])) == map[p.Key() := p]
  {
    assert OutermostOfAll([report]) == [p] by {
      assert OutermostOfAll([report]) == Outermost(report) + OutermostOfAll([report][1..]);
    }
    SinglePlan(p);
    assert Decided([report][0]);
  }

  lemma FailedWaveStep(cfg: Config, k: Partition, s: State, p: Position, s': State)
    requires k in s.wave && s.wave == map[k := s.wave[k]] && s.wave[k].records != []
    requires IsPlanner(s.wave[k].report) && PlannedHere(s.wave[k].report) == [p]
    requires k in s.positions && p.Key() == k && s.pending == map[]
    requires s' == s.(positions := s.positions[k := p.offset], pending := map[k := p], wave := map[])
    ensures Step(EveryOffset, cfg, s, EndWave([k], {}), s')
  {
    var t := s.(wave := map[]);
    var failure := Joined(Reports(s.wave, [k]));
    OnePlan(s.wave[k].report, p);
    assert Reports(s.wave, [k]) == [s.wave[k].report];
    RetryDecided(t, failure, {});
    assert Remember(map[], map[k := p]) == map[k := p];
    assert Rewound(s.positions, map[k := p]) == s.positions[k := p.offset];
  }

  const MARKS := Config(false, false, true)
  const K := Partition("orders", 0)
  const P0 := Position("orders", 0, 0, 0)
  const P1 := Position("orders", 0, 1, 0)
  const R0 := Record(P0, false)
  const R1 := Record(P1, false)
  const BAD := Plain(7)
  const S1 := INITIAL.(connected := true)
  const S2 := S1.(positions := map[K := 0])
  const S3 := S2.(positions := map[K := 2], polled := {(K, 0), (K, 1)}, wave := map[K := Group([R0, R1], 0, Nil)])
  const S4 := S3.(wave := map[K := Group([R0, R1], 0, HandlerFailed(BAD, Some(P0)))])
  const S5 := S3.(positions := map[K := 0], pending := map[K := P0], wave := map[])
  const S6 := S5.(positions := map[K := 1], wave := map[K := Group([R0], 0, Nil)])
  const S7 := S6.(settled := {(K, 0)}, crossed := {(K, 0)}, marked := map[K := 1], pending := map[],
    wave := map[K := Group([R0], 1, Nil)])
  const S8 := S7.(wave := map[])
  const S9 := S8.(connected := false, positions := map[], marked := map[])

  lemma OneOffset()
    ensures OffsetsOf(K, [R0]) == {(K, 0)}
  {
    assert [R0][0] == R0;
  }

  lemma TwoOffsets()
    ensures OffsetsOf(K, [R0, R1]) == {(K, 0), (K, 1)}
  {
    assert [R0, R1][0] == R0 && [R0, R1][1] == R1;
  }

  lemma TwoPolled()
    ensures Step(EveryOffset, MARKS, S2, Poll(map[K := [R0, R1]], [P0, P1], Nil, {}), S3)
  {
    var records := [R0, R1];
    FetchIsEnabled(MARKS, K, S2, records, [P0, P1], Nil);
    FetchedState(MARKS, K, S2, records, [P0, P1]);
    TwoOffsets();
    assert LastOffset(records) == 1;
    assert S2.positions[K := 2] == S3.positions && S2.polled + {(K, 0), (K, 1)} == S3.polled;
  }

  lemma FirstFails()
    ensures Step(EveryOffset, MARKS, S3, Work(K, HandlerFails(BAD), false), S4)
    ensures Step(EveryOffset, MARKS, S4, EndWave([K], {}), S5)
  {
    FailedWaveStep(MARKS, K, S4, P0, S5);
  }

  lemma FirstPollReturns(cfg: Config, s: State)
    requires s.positions == map[K := 0]
    ensures Apply(cfg, s, Poll(map[K := [R0]], [P0], Nil, {})) ==
      s.(positions := map[K := 1], polled := s.polled + {(K, 0)}, wave := map[K := Group([R0], 0, Nil)])
  {
    FetchedState(cfg, K, s, [R0], [P0]);
    OneOffset();
    assert LastOffset([R0]) == 0;
    assert s.positions[K := 1] == map[K := 1];
  }

  /** Record 0 polled alone from a state whose fetch position is 0. */
  lemma FirstPolledAlone(cfg: Config, s: State, s': State)
    requires s.connected && s.wave == map[] && s.positions == map[K := 0]
    requires s' == s.(positions := map[K := 1], polled := s.polled + {(K, 0)}, wave := map[K := Group([R0], 0, Nil)])
    ensures Step(EveryOffset, cfg, s, Poll(map[K := [R0]], [P0], Nil, {}), s')
  {
    FetchIsEnabled(cfg, K, s, [R0], [P0], Nil);
    FirstPollReturns(cfg, s);
  }

  lemma PolledAgainAlone()
    ensures Step(EveryOffset, MARKS, S5, Poll(map[K := [R0]], [P0], Nil, {}), S6)
  {
    assert S5.polled + {(K, 0)} == S6.polled;
    FirstPolledAlone(MARKS, S5, S6);
  }

  lemma SucceedsAlone()
    ensures Step(EveryOffset, MARKS, S6, Work(K, Completes, false), S7)
    ensures Step(EveryOffset, MARKS, S7, EndWave([], {}), S8)
  {
    OneOffset();
    assert Complete(S6.pending, P0) == map[];
  }

  lemma ClientIsReplaced()
    ensures Step(EveryOffset, MARKS, S8, Poll(map[], [], Transient(BAD), {}), S9)
  {
    assert AllOffsets(map[]) == {};
    EmptyPollReturnsNothing(S8);
    DroppedWithoutFlush();
  }

  lemma EmptyPollReturnsNothing(s: State)
    ensures Returned(s, map[]) == s
  {
    assert AllOffsets(map[]) == {};
  }

  lemma DroppedWithoutFlush()
    ensures Retry(S8, Transient(BAD), {}) == S9
  {
  }

  lemma RecordOneIsLost()
    ensures Owed(EveryOffset, S9, K, 1) && NextFetch(S9, K).None? && !NoRecordLost(EveryOffset, S9)
  {
    assert Owed(EveryOffset, S9, K, 1);
  }

  lemma ConnectAndAssign()
    ensures forall cfg :: Step(EveryOffset, cfg, INITIAL, Rebuild, S1)
    ensures forall cfg :: Step(EveryOffset, cfg, S1, Assign(map[K := 0]), S2)
  {
    assert KeptOnAssign(map[], map[], {K}) == map[];
  }

  /** Background auto-commit does lose a record, with no fatal poll. Record 0 of a poll of 0 and
      1 fails and is remembered; polled again alone it succeeds, which ends the remembered
      position before the mark is flushed; then a transient poll error without records replaces
      the client. Record 1 was fetched, is unhandled, and only the reset policy says where its
      partition resumes. */
  lemma UnflushedMarkLosesRecord()
    ensures Step(EveryOffset, MARKS, INITIAL, Rebuild, S1)
    ensures Step(EveryOffset, MARKS, S1, Assign(map[K := 0]), S2)
    ensures Step(EveryOffset, MARKS, S2, Poll(map[K := [R0, R1]], [P0, P1], Nil, {}), S3)
    ensures Step(EveryOffset, MARKS, S3, Work(K, HandlerFails(BAD), false), S4)
    ensures Step(EveryOffset, MARKS, S4, EndWave([K], {}), S5)
    ensures Step(EveryOffset, MARKS, S5, Poll(map[K := [R0]], [P0], Nil, {}), S6)
    ensures Step(EveryOffset, MARKS, S6, Work(K, Completes, false), S7)
    ensures Step(EveryOffset, MARKS, S7, EndWave([], {}), S8)
    ensures Step(EveryOffset, MARKS, S8, Poll(map[], [], Transient(BAD), {}), S9)
    ensures Owed(EveryOffset, S9, K, 1) && NextFetch(S9, K).None? && !NoRecordLost(EveryOffset, S9)
  {
    ConnectAndAssign();
    TwoPolled();
    FirstFails();
    PolledAgainAlone();
    SucceedsAlone();
    ClientIsReplaced();
    RecordOneIsLost();
  }

  // ------------------------------------------------------------------------
  // A fatal poll
  // ------------------------------------------------------------------------

  const SYNC := Config(false, false, false)
  const FATAL := S2.(positions := map[K := 1], polled := {(K, 0)})

  /** The poll error that ends the run comes with record 0. The client stays, its fetch position
      is past the record, and no boundary remembers it. */
  lemma FatalPollLosesRecord()
    ensures Step(EveryOffset, SYNC, INITIAL, Rebuild, S1)
    ensures Step(EveryOffset, SYNC, S1, Assign(map[K := 0]), S2)
    ensures Step(EveryOffset, SYNC, S2, Poll(map[K := [R0]], [P0], BAD, {}), FATAL)
    ensures Owed(EveryOffset, FATAL, K, 0) && NextFetch(FATAL, K) == Some(1) && !NoRecordLost(EveryOffset, FATAL)
  {
    var e := Poll(map[K := [R0]], [P0], BAD, {});
    ConnectAndAssign();
    FetchIsEnabled(SYNC, K, S2, [R0], [P0], BAD);
    FatalPollReturns(SYNC, S2, e);
    OnePartitionOffsets(K, [R0]);
    OneOffset();
    assert S2.polled + {(K, 0)} == FATAL.polled;
    assert Returned(S2, e.fetched).positions == FATAL.positions;
    assert Owed(EveryOffset, FATAL, K, 0);
  }

  // ------------------------------------------------------------------------
  // A commit before the handler that failed but was applied
  // ------------------------------------------------------------------------

  const BEFORE := Config(true, false, false)
  const T3 := S2.(positions := map[K := 1], polled := {(K, 0)}, wave := map[K := Group([R0], 0, Nil)])
  const T4 := T3.(committed := map[K := 1], settled := {(K, 0)}, wave := map[K := Group([R0], 0, RewindTo(BAD, P0))])
  const T5 := T4.(positions := map[K := 0], pending := map[K := P0], wave := map[])
  const T6 := T5.(positions := map[])
  const T7 := T6.(positions := map[K := 1], pending := map[])

  lemma PolledBeforeCommit()
    ensures Step(EveryOffset, BEFORE, S2, Poll(map[K := [R0]], [P0], Nil, {}), T3)
  {
    assert S2.polled + {(K, 0)} == T3.polled;
    FirstPolledAlone(BEFORE, S2, T3);
  }

  lemma CommitFailsButApplies()
    ensures Step(EveryOffset, BEFORE, T3, Work(K, PreCommitFails(BAD), true), T4)
  {
    OneOffset();
    assert Unit(BEFORE, T3.wave[K]) == [R0];
  }

  lemma RewoundAfterCommit()
    ensures Step(EveryOffset, BEFORE, T4, EndWave([K], {}), T5)
  {
    FailedWaveStep(BEFORE, K, T4, P0, T5);
  }

  lemma LostAndRegained()
    ensures Step(EveryOffset, BEFORE, T5, Lose(K), T6)
    ensures Step(EveryOffset, BEFORE, T6, Assign(map[K := 0]), T7)
  {
    assert KeptOnAssign(T6.pending, T6.committed, {K}) == map[];
  }

  /** Record 0's commit before its handler fails but was applied; the record is rewound, the
      partition is lost and regained, and the next fetch starts after the record, which no
      handler has seen. */
  lemma AppliedCommitSkipsRecord()
    ensures Step(EveryOffset, BEFORE, INITIAL, Rebuild, S1)
    ensures Step(EveryOffset, BEFORE, S1, Assign(map[K := 0]), S2)
    ensures Step(EveryOffset, BEFORE, S2, Poll(map[K := [R0]], [P0], Nil, {}), T3)
    ensures Step(EveryOffset, BEFORE, T3, Work(K, PreCommitFails(BAD), true), T4)
    ensures Step(EveryOffset, BEFORE, T4, EndWave([K], {}), T5)
    ensures Step(EveryOffset, BEFORE, T5, Lose(K), T6)
    ensures Step(EveryOffset, BEFORE, T6, Assign(map[K := 0]), T7)
    ensures Owed(EveryOffset, AsKnown(T7), K, 0) && NextFetch(T7, K) == Some(1) &&
      !NoRecordLost(EveryOffset, AsKnown(T7))
  {
    ConnectAndAssign();
    PolledBeforeCommit();
    CommitFailsButApplies();
    RewoundAfterCommit();
    LostAndRegained();
    assert Owed(EveryOffset, AsKnown(T7), K, 0);
  }
}
