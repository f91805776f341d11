/** Fail-closed rewinds of ConfluentConsumer, over every run: until Close no record is read while
    a position is waiting to be sought, a revoked partition never stays pending, and a record read
    under a partition's current assignment stays covered until it is settled. */
module ConfluentFailClosed {
  import opened RewindPlans
  import opened PartitionWorkers
  import opened RecordGrouping
  import opened ConfluentConsumer
  import opened ConfluentSafety

  // ------------------------------------------------------------------------
  // What the rebalance callback keeps
  // ------------------------------------------------------------------------

  /** The driver's assignment against the consumer's own, section by section. */
  predicate InStep(s: State) {
    match s.callback
    case NoCallback => if s.known then s.owned.Keys == s.driver.Keys else s.driver == map[]
    case Assigning(ks, cooperative) =>
      s.owned.Keys !! ks && s.driver.Keys == s.owned.Keys + ks && (!cooperative ==> s.owned == map[])
    case Assigned(ks) => s.known && ks <= s.owned.Keys == s.driver.Keys
    case Revoked(ks, cooperative) =>
      s.known && s.owned.Keys !! ks && s.driver.Keys == s.owned.Keys + ks && (!cooperative ==> s.owned == map[])
    case Cleared(ks, cooperative) =>
      s.known && s.owned.Keys !! ks && s.driver.Keys == s.owned.Keys + ks && (!cooperative ==> s.owned == map[]) &&
        ks <= s.revoked
  }

  function JustAssigned(s: State): set<Partition> {
    if s.callback.Assigned? then s.callback.ks else {}
  }

  function PlanKeys(phase: Phase): set<Partition> {
    if phase.Rewinding? || phase.Unsought? then phase.plan.Keys else {}
  }

  predicate NeverRead(s: State, k: Partition) {
    k in s.owned ==> forall r :: r in s.read && r.0 == k ==> r.1 != s.owned[k]
  }

  ghost predicate Rebalanced(s: State) {
    && InStep(s)
    && (!s.known ==> s.gen == 0 && s.owned == map[])
    && (forall k :: k in s.owned ==> 1 <= s.owned[k] <= s.gen)
    && (forall r :: r in s.read ==> r.1 <= s.gen)
    && (forall k :: k in JustAssigned(s) ==> NeverRead(s, k))
    && s.revoked * s.owned.Keys <= JustAssigned(s)
    && s.pending.Keys !! s.revoked
    && s.pending.Keys <= s.driver.Keys
    && PlanKeys(s.phase) <= s.driver.Keys + s.revoked
  }

  lemma AssignKeepsRebalanced(log: Log, s: State, e: Event)
    requires Rebalanced(s) && Enabled(log, s, e) && (e.DriverAssign? || e.MarkAssigned? || e.MarkRewindsAssigned?)
    ensures Rebalanced(Apply(s, e))
  {
    var s' := Apply(s, e);
    if e.MarkAssigned? {
      assert forall k :: k in s'.owned && k !in s.callback.ks ==> k in s.owned;
      assert forall k :: k in s.revoked * s'.owned.Keys ==> k in s.revoked * s.owned.Keys || k in s.callback.ks;
      assert forall k :: k in s.callback.ks ==> s'.owned[k] == s.gen + 1;
    }
  }

  lemma RevokeKeepsRebalanced(log: Log, s: State, e: Event)
    requires Rebalanced(s) && Enabled(log, s, e) && (e.MarkRevoked? || e.ClearPending? || e.DriverUnassign?)
    ensures Rebalanced(Apply(s, e))
  {
  }

  /** Nothing the rebalance invariant speaks of, apart from the phase, has moved. */
  predicate SameAssignment(s: State, s': State) {
    && s'.known == s.known && s'.gen == s.gen && s'.owned == s.owned && s'.callback == s.callback
    && s'.driver.Keys == s.driver.Keys && s'.revoked == s.revoked
  }

  lemma SameAssignmentStaysRebalanced(s: State, s': State)
    requires Rebalanced(s) && SameAssignment(s, s')
    requires s'.read == s.read && s'.pending.Keys !! s.revoked && s'.pending.Keys <= s.driver.Keys
    requires PlanKeys(s'.phase) <= s.driver.Keys + s.revoked
    ensures Rebalanced(s')
  {
    forall k | k in JustAssigned(s')
      ensures NeverRead(s', k)
    {
      assert NeverRead(s, k);
    }
  }

  lemma ReadKeepsRebalanced(log: Log, s: State, e: Event)
    requires Rebalanced(s) && Enabled(log, s, e) && e.Read?
    ensures Rebalanced(Apply(s, e))
  {
  }

  /** The steps before a Consume call reads. */
  predicate PendingStep(e: Event) {
    e.BeginRun? || e.FilterPending? || e.SeekPending? || e.RemoveSought?
  }

  /** The steps after a wave has failed. */
  predicate FailedStep(e: Event) {
    e.FilterFailed? || e.SeekFailed? || e.RecordPending?
  }

  lemma PendingKeepsRebalanced(log: Log, s: State, e: Event)
    requires Rebalanced(s) && Enabled(log, s, e) && PendingStep(e)
    ensures Rebalanced(Apply(s, e))
  {
    SameAssignmentStaysRebalanced(s, Apply(s, e));
  }

  lemma FailedKeepsRebalanced(log: Log, s: State, e: Event)
    requires Rebalanced(s) && Enabled(log, s, e) && FailedStep(e)
    ensures Rebalanced(Apply(s, e))
  {
    SameAssignmentStaysRebalanced(s, Apply(s, e));
  }

  /** A wave that is over leaves no trace but the phase. */
  predicate WaveDropped(s: State, s': State) {
    && s' == s.(phase := s'.phase, wave := [], started := {}, discarded := {}, results := map[])
    && (s'.phase.Idle? || s'.phase.Failing? || s'.phase.Reading?)
  }

  lemma WaveEndDrops(log: Log, s: State, e: Event)
    requires Enabled(log, s, e) && WaveEnds(e)
    ensures WaveDropped(s, Apply(s, e))
  {
  }

  lemma DroppedKeepsRebalanced(s: State, s': State)
    requires Rebalanced(s) && WaveDropped(s, s')
    ensures Rebalanced(s')
  {
    SameAssignmentStaysRebalanced(s, s');
  }

  lemma HandlerKeepsRebalanced(log: Log, s: State, e: Event)
    requires Rebalanced(s) && Enabled(log, s, e) && (e.Dispatch? || HandlerStep(e))
    ensures Rebalanced(Apply(s, e))
  {
    SameAssignmentStaysRebalanced(s, Apply(s, e));
  }

  lemma StepKeepsRebalanced(log: Log, s: State, e: Event)
    requires Rebalanced(s) && Enabled(log, s, e)
    ensures Rebalanced(Apply(s, e))
  {
    if e.DriverAssign? || e.MarkAssigned? || e.MarkRewindsAssigned? {
      AssignKeepsRebalanced(log, s, e);
    } else if RebalanceStep(e) {
      RevokeKeepsRebalanced(log, s, e);
    } else if e.Read? {
      ReadKeepsRebalanced(log, s, e);
    } else if PendingStep(e) {
      PendingKeepsRebalanced(log, s, e);
    } else if FailedStep(e) {
      FailedKeepsRebalanced(log, s, e);
    } else if WaveEnds(e) {
      WaveEndDrops(log, s, e);
      DroppedKeepsRebalanced(s, Apply(s, e));
    } else {
      HandlerKeepsRebalanced(log, s, e);
    }
  }

  // ------------------------------------------------------------------------
  // Fail closed
  // ------------------------------------------------------------------------

  /** Where a Consume call stands with the pending positions. */
  predicate PendingKnown(s: State) {
    match s.phase
    case Idle => true
    case Seeking(copied) => Within(s.pending, copied)
    case Filtered(copied, todo) => Within(s.pending, todo) && Within(todo, copied)
    case Sought(copied) => Within(s.pending, copied)
    case _ => s.pending == map[]
  }

  predicate Within(a: Plan, b: Plan) {
    forall k :: k in a ==> k in b && a[k] == b[k]
  }

  lemma RebalanceKeepsPendingKnown(log: Log, s: State, e: Event)
    requires Enabled(log, s, e) && RebalanceStep(e) && PendingKnown(s)
    ensures PendingKnown(Apply(s, e))
  {
  }

  lemma PendingKeepsPendingKnown(log: Log, s: State, e: Event)
    requires Rebalanced(s) && Enabled(log, s, e) && PendingStep(e) && !s.closing && PendingKnown(s)
    ensures PendingKnown(Apply(s, e))
  {
    assert forall k :: k in s.pending ==> k !in s.revoked && k in s.driver;
  }

  lemma FailedKeepsPendingKnown(log: Log, s: State, e: Event)
    requires Enabled(log, s, e) && FailedStep(e) && PendingKnown(s)
    ensures PendingKnown(Apply(s, e))
  {
  }

  lemma HandlerKeepsPendingKnown(log: Log, s: State, e: Event)
    requires Enabled(log, s, e) && (e.Read? || e.Dispatch? || HandlerStep(e)) && PendingKnown(s)
    ensures PendingKnown(Apply(s, e))
  {
  }

  lemma StepKeepsPendingKnown(log: Log, s: State, e: Event)
    requires Rebalanced(s) && Enabled(log, s, e)
    requires !Apply(s, e).closing && !s.closing && PendingKnown(s)
    ensures PendingKnown(Apply(s, e))
  {
    if RebalanceStep(e) {
      RebalanceKeepsPendingKnown(log, s, e);
    } else if PendingStep(e) {
      PendingKeepsPendingKnown(log, s, e);
    } else if FailedStep(e) {
      FailedKeepsPendingKnown(log, s, e);
    } else if WaveEnds(e) {
      WaveEndDrops(log, s, e);
    } else {
      HandlerKeepsPendingKnown(log, s, e);
    }
  }

  // ------------------------------------------------------------------------
  // The wave in hand
  // ------------------------------------------------------------------------

  /** Messages of the current assignment lie behind the fetch position. */
  predicate BehindDriver(s: State, m: Message) {
    var k := m.position.Key();
    m.known && k in s.owned && s.owned[k] == m.gen ==> k in s.driver && m.position.offset < s.driver[k]
  }

  predicate InWaveAt(wave: seq<Message>, g: GroupKey, o: int) {
    exists m :: m in wave && m.Group() == g && m.position.offset == o
  }

  /** A message of unknown ownership can only be in the wave while nothing of any assignment was
      read before the wave. */
  predicate UnknownOnlyFirst(s: State) {
    (forall m :: m in s.wave ==> m.known) ||
      (forall r :: r in s.read && r.1 >= 1 ==> InWaveAt(s.wave, GroupKey(r.0, true, r.1), r.2))
  }

  /** A finished group has settled everything before the record its report plans. */
  predicate ResultHolds(s: State, g: GroupKey) {
    g in s.results ==> (
      var group, settled := GroupOf(s.wave, g), s.results[g].settled;
      && settled <= |group|
      && SettledOf(group, settled) <= s.settled
      && var report := s.results[g].report;
         if report.Nil? then settled == |group| else PlanOf(report) == PlanFor(PositionIn(group, settled)))
  }

  predicate Stale(s: State, g: GroupKey) {
    g.known ==> g.k !in s.owned || s.owned[g.k] != g.gen
  }

  predicate NewerUnread(s: State, g: GroupKey) {
    g.known && Stale(s, g) ==> NeverRead(s, g.k)
  }

  ghost predicate WaveHolds(s: State) {
    && WaveInOrder(s)
    && (forall m :: m in s.wave ==> BehindDriver(s, m))
    && UnknownOnlyFirst(s)
    && (forall g :: g in s.discarded ==> Stale(s, g))
    && (forall g :: g in s.started ==> NewerUnread(s, g))
    && s.results.Keys <= s.started
    && (!s.closing ==> forall g :: g in s.results ==> ResultHolds(s, g))
  }

  /** A callback keeps a partition's generation and fetch position together, or gives it a
      generation nothing was read under. */
  predicate KeptOrFresh(s: State, s': State, k: Partition) {
    k in s'.owned ==>
      || s'.owned[k] == s.gen + 1
      || (k in s.owned && s'.owned[k] == s.owned[k] && k in s.driver && k in s'.driver && s'.driver[k] == s.driver[k])
  }

  predicate SameWave(s: State, s': State) {
    && s'.wave == s.wave && s'.started == s.started && s'.discarded == s.discarded && s'.running == s.running
    && s'.results == s.results && s'.settled == s.settled && s'.read == s.read
  }

  lemma CallbackKeepsOrRenews(log: Log, s: State, e: Event)
    requires Rebalanced(s) && Enabled(log, s, e) && RebalanceStep(e)
    ensures forall k :: KeptOrFresh(s, Apply(s, e), k)
    ensures SameWave(s, Apply(s, e)) && Apply(s, e).closing == s.closing && Apply(s, e).phase == s.phase
  {
  }

  lemma RebalanceKeepsWave(log: Log, s: State, e: Event)
    requires Ownership(s) && Rebalanced(s) && WaveHolds(s) && Enabled(log, s, e) && RebalanceStep(e)
    ensures WaveHolds(Apply(s, e))
  {
    CallbackKeepsOrRenews(log, s, e);
    KeptOrFreshKeepsWave(s, Apply(s, e));
  }

  lemma KeptOrFreshKeepsWave(s: State, s': State)
    requires Ownership(s) && Rebalanced(s) && WaveHolds(s) && SameWave(s, s') && s'.closing == s.closing
    requires forall k :: KeptOrFresh(s, s', k)
    ensures WaveHolds(s')
  {
    forall g | g in s'.discarded
      ensures Stale(s', g)
    {
      assert Stale(s, g) && InWave(s.wave, g) && KeptOrFresh(s, s', g.k);
      var i :| 0 <= i < |s.wave| && s.wave[i].Group() == g;
      assert MessageOk(s, s.wave[i]);
    }
    forall g | g in s'.started
      ensures NewerUnread(s', g)
    {
      assert NewerUnread(s, g) && KeptOrFresh(s, s', g.k);
    }
    forall m | m in s'.wave
      ensures BehindDriver(s', m)
    {
      assert BehindDriver(s, m) && KeptOrFresh(s, s', m.position.Key());
      var i :| 0 <= i < |s.wave| && s.wave[i] == m;
      assert MessageOk(s, s.wave[i]);
    }
    forall g | g in s'.results && !s.closing
      ensures ResultHolds(s', g)
    {
      assert ResultHolds(s, g);
    }
  }

  lemma ReadKeepsWave(log: Log, s: State, e: Event)
    requires Ownership(s) && Rebalanced(s) && WaveHolds(s) && Enabled(log, s, e) && e.Read?
    ensures WaveHolds(Apply(s, e))
  {
    var s', m := Apply(s, e), Snapshot(s, e.p);
    assert s'.wave == s.wave + [m] && s.started == {};
    forall i, j | 0 <= i < j < |s'.wave| && s'.wave[i].Group() == s'.wave[j].Group() && s'.wave[i].known
      ensures s'.wave[i].position.offset < s'.wave[j].position.offset
    {
      if j == |s.wave| {
        assert s.wave[i] in s.wave && BehindDriver(s, s.wave[i]);
      }
    }
    forall n | n in s'.wave
      ensures BehindDriver(s', n)
    {
      if n in s.wave {
        assert BehindDriver(s, n);
      }
    }
    UnknownOnlyFirstAfterRead(log, s, e);
  }

  lemma UnknownOnlyFirstAfterRead(log: Log, s: State, e: Event)
    requires Rebalanced(s) && UnknownOnlyFirst(s) && Enabled(log, s, e) && e.Read?
    ensures UnknownOnlyFirst(Apply(s, e))
  {
    var s', m := Apply(s, e), Snapshot(s, e.p);
    assert s'.wave == s.wave + [m] && m in s'.wave;
    if !(forall n :: n in s'.wave ==> n.known) {
      forall r | r in s'.read && r.1 >= 1
        ensures InWaveAt(s'.wave, GroupKey(r.0, true, r.1), r.2)
      {
        if r in s.read {
          assert InWaveAt(s.wave, GroupKey(r.0, true, r.1), r.2);
          var n :| n in s.wave && n.Group() == GroupKey(r.0, true, r.1) && n.position.offset == r.2;
          assert n in s'.wave;
        } else {
          assert m.Group() == GroupKey(r.0, true, r.1);
        }
      }
    }
  }

  lemma FinishKeepsResults(log: Log, s: State, e: Event, g: GroupKey)
    requires WaveHolds(s) && Enabled(log, s, e) && e.Finish? && !s.closing && g in Apply(s, e).results
    ensures ResultHolds(Apply(s, e), g)
  {
    if g != e.g {
      assert ResultHolds(s, g);
    }
  }

  lemma DispatchKeepsWave(log: Log, s: State, e: Event)
    requires Ownership(s) && WaveHolds(s) && Enabled(log, s, e) && e.Dispatch?
    ensures WaveHolds(Apply(s, e))
  {
    SameWaveHolds(s, Apply(s, e), e.g);
  }

  lemma HandlerKeepsWave(log: Log, s: State, e: Event)
    requires Ownership(s) && WaveHolds(s) && Enabled(log, s, e) && HandlerStep(e)
    ensures WaveHolds(Apply(s, e))
  {
    var s' := Apply(s, e);
    forall g | g in s'.results && !s'.closing
      ensures ResultHolds(s', g)
    {
      if e.Finish? {
        FinishKeepsResults(log, s, e, g);
      } else {
        assert ResultHolds(s, g);
      }
    }
    SameWaveHolds(s, s', if e.Discard? then e.g else GroupKey(Partition("", 0), false, 0));
  }

  /** While handlers run only the groups' fates change, `g`'s at most. */
  lemma SameWaveHolds(s: State, s': State, g: GroupKey)
    requires WaveHolds(s)
    requires s'.wave == s.wave && s'.read == s.read && s'.owned == s.owned && s'.driver == s.driver
    requires s.started <= s'.started <= s.started + {g} && s'.discarded <= s.discarded + {g} &&
      s'.results.Keys <= s'.started
    requires g in s'.started && g !in s.started ==> !Stale(s, g) || !g.known
    requires g in s'.discarded && g !in s.discarded ==> Stale(s, g)
    requires !s'.closing ==> !s.closing && forall h :: h in s'.results ==> ResultHolds(s', h)
    ensures WaveHolds(s')
  {
    forall m | m in s'.wave
      ensures BehindDriver(s', m)
    {
      assert BehindDriver(s, m);
    }
    forall h | h in s'.started
      ensures NewerUnread(s', h)
    {
      if h in s.started {
        assert NewerUnread(s, h);
      }
    }
    forall h | h in s'.discarded
      ensures Stale(s', h)
    {
      assert Stale(s, h);
    }
  }

  lemma PendingKeepsWave(log: Log, s: State, e: Event)
    requires Ownership(s) && WaveHolds(s) && Enabled(log, s, e) && PendingStep(e)
    ensures WaveHolds(Apply(s, e))
  {
  }

  lemma FailedKeepsWave(log: Log, s: State, e: Event)
    requires Ownership(s) && WaveHolds(s) && Enabled(log, s, e) && FailedStep(e)
    ensures WaveHolds(Apply(s, e))
  {
  }

  lemma DroppedKeepsWave(s: State, s': State)
    requires WaveHolds(s) && WaveDropped(s, s')
    ensures WaveHolds(s')
  {
  }

  lemma StepKeepsWave(log: Log, s: State, e: Event)
    requires Ownership(s) && Rebalanced(s) && WaveHolds(s) && Enabled(log, s, e)
    ensures WaveHolds(Apply(s, e))
  {
    if RebalanceStep(e) {
      RebalanceKeepsWave(log, s, e);
    } else if e.Read? {
      ReadKeepsWave(log, s, e);
    } else if e.Dispatch? {
      DispatchKeepsWave(log, s, e);
    } else if HandlerStep(e) {
      HandlerKeepsWave(log, s, e);
    } else if PendingStep(e) {
      PendingKeepsWave(log, s, e);
    } else if FailedStep(e) {
      FailedKeepsWave(log, s, e);
    } else {
      WaveEndDrops(log, s, e);
      DroppedKeepsWave(s, Apply(s, e));
    }
  }

  // ------------------------------------------------------------------------
  // Nothing read in an assignment is skipped while it lasts
  // ------------------------------------------------------------------------

  /** A record read under the partition's current assignment and not settled. */
  predicate Live(s: State, k: Partition, o: int) {
    k in s.owned && (k, s.owned[k], o) in s.read && (k, s.owned[k], o) !in s.settled
  }

  predicate ReadsAgain(s: State, k: Partition, o: int) {
    k in s.driver && s.driver[k] <= o
  }

  /** The record is in the wave, or the next read of its partition starts at or before it once the
      position being carried to the driver has arrived. */
  predicate Covered(s: State, k: Partition, o: int) {
    match s.phase
    case Sought(_) => ReadsAgain(s, k, o)
    case Reading => ReadsAgain(s, k, o) || (k in s.owned && InWaveAt(s.wave, GroupKey(k, true, s.owned[k]), o))
    case Dispatching => ReadsAgain(s, k, o) || (k in s.owned && InWaveAt(s.wave, GroupKey(k, true, s.owned[k]), o))
    case Failing(plan) => if k in plan then plan[k].offset <= o else ReadsAgain(s, k, o)
    case Rewinding(plan) => if k in plan then plan[k].offset <= o else ReadsAgain(s, k, o)
    case Unsought(plan) => if k in plan then plan[k].offset <= o else ReadsAgain(s, k, o)
    case _ => if k in s.pending then s.pending[k].offset <= o else ReadsAgain(s, k, o)
  }

  function Copied(phase: Phase): Plan {
    if phase.Seeking? || phase.Filtered? then phase.copied else map[]
  }

  predicate ClearedUnread(s: State, k: Partition) {
    k !in s.pending ==> NeverRead(s, k)
  }

  ghost predicate Coverage(log: Log, s: State) {
    && (forall r :: r in s.read && r.1 >= 1 ==> log(r.0, r.2))
    && (!s.closing ==> PendingKnown(s))
    && (forall k :: k in Copied(s.phase) ==> ClearedUnread(s, k))
    && (!s.closing ==> forall k, o :: Live(s, k, o) ==> Covered(s, k, o))
  }

  ghost predicate All(log: Log, s: State) {
    Ownership(s) && Rebalanced(s) && WaveHolds(s) && Coverage(log, s)
  }

  lemma ReadKeepsCovered(log: Log, s: State, e: Event, k: Partition, o: int)
    requires All(log, s) && Enabled(log, s, e) && e.Read? && !s.closing && Live(Apply(s, e), k, o)
    ensures Covered(Apply(s, e), k, o)
  {
    var s', m := Apply(s, e), Snapshot(s, e.p);
    assert m in s'.wave;
    if (k, s.owned[k], o) !in s.read {
      assert m.Group() == GroupKey(k, true, s.owned[k]);
    } else {
      assert Live(s, k, o);
      assert log(k, o);
      if InWaveAt(s.wave, GroupKey(k, true, s.owned[k]), o) {
        var n :| n in s.wave && n.Group() == GroupKey(k, true, s.owned[k]) && n.position.offset == o;
        assert n in s'.wave;
      } else if e.p.Key() == k {
        assert e.p.offset <= o;
        if e.p.offset == o {
          assert m.Group() == GroupKey(k, true, s.owned[k]);
        }
      }
    }
  }

  lemma RebalanceKeepsCovered(log: Log, s: State, e: Event, k: Partition, o: int)
    requires All(log, s) && Enabled(log, s, e) && RebalanceStep(e) && !s.closing && Live(Apply(s, e), k, o)
    ensures Covered(Apply(s, e), k, o)
  {
    CallbackKeepsOrRenews(log, s, e);
    assert KeptOrFresh(s, Apply(s, e), k);
    assert Live(s, k, o);
    assert Covered(s, k, o);
  }

  lemma PendingKeepsCovered(log: Log, s: State, e: Event, k: Partition, o: int)
    requires All(log, s) && Enabled(log, s, e) && PendingStep(e) && !s.closing && Live(Apply(s, e), k, o)
    ensures Covered(Apply(s, e), k, o)
  {
    assert Live(s, k, o) && Covered(s, k, o);
    assert ClearedUnread(s, k) || k !in Copied(s.phase);
    assert k in s.revoked ==> NeverRead(s, k);
  }

  lemma FailedKeepsCovered(log: Log, s: State, e: Event, k: Partition, o: int)
    requires All(log, s) && Enabled(log, s, e) && FailedStep(e) && !s.closing && Live(Apply(s, e), k, o)
    ensures Covered(Apply(s, e), k, o)
  {
    assert Live(s, k, o) && Covered(s, k, o);
    assert k in s.revoked ==> NeverRead(s, k);
  }

  lemma DispatchKeepsCovered(log: Log, s: State, e: Event, k: Partition, o: int)
    requires All(log, s) && Enabled(log, s, e) && e.Dispatch? && !s.closing && Live(s, k, o)
    ensures Covered(Apply(s, e), k, o)
  {
    assert Covered(s, k, o);
  }

  lemma HandlerKeepsCovered(log: Log, s: State, e: Event, k: Partition, o: int)
    requires All(log, s) && Enabled(log, s, e) && HandlerStep(e) && !Apply(s, e).closing && Live(Apply(s, e), k, o)
    ensures Covered(Apply(s, e), k, o)
  {
    assert Live(s, k, o) && Covered(s, k, o);
  }

  /** Where a live record of the wave stands in its group. */
  lemma LiveInGroup(s: State, k: Partition, o: int) returns (n: nat)
    requires WaveHolds(s) && k in s.owned && InWaveAt(s.wave, GroupKey(k, true, s.owned[k]), o)
    ensures var group := GroupOf(s.wave, GroupKey(k, true, s.owned[k]));
      n < |group| && group[n].position.offset == o && group[n].Group() == GroupKey(k, true, s.owned[k])
  {
    var g := GroupKey(k, true, s.owned[k]);
    var m :| m in s.wave && m.Group() == g && m.position.offset == o;
    MatchingHas(s.wave, GroupKeyOf, g, m);
    n :| 0 <= n < |GroupOf(s.wave, g)| && GroupOf(s.wave, g)[n] == m;
  }

  /** What a plan with one position per failed group says for a live record: its own group's
      position, or a position that lies behind the driver's. */
  lemma PlanBehindDriver(s: State, p: Position, m: Message, o: int)
    requires WaveHolds(s) && m in s.wave && m.position == p && p.Key() in s.owned
    requires Live(s, p.Key(), o) && m.Group() in s.started + Current(s, p.Key())
    requires !InWaveAt(s.wave, GroupKey(p.Key(), true, s.owned[p.Key()]), o) && s.owned[p.Key()] >= 1
    requires ReadsAgain(s, p.Key(), o)
    ensures p.offset <= o
  {
    var k := p.Key();
    var g := m.Group();
    assert UnknownOnlyFirst(s) && m.known;
    assert BehindDriver(s, m);
    if g in s.started {
      assert NewerUnread(s, g);
    }
  }

  function Current(s: State, k: Partition): set<GroupKey> {
    if k in s.owned then {GroupKey(k, true, s.owned[k])} else {}
  }


  /** What a report of group `g` plans: at most one position, that of a message of the group. */
  predicate PlansFrom(wave: seq<Message>, g: GroupKey, report: Error, n: nat) {
    n <= |GroupOf(wave, g)| && PlanOf(report) == PlanFor(PositionIn(GroupOf(wave, g), n))
  }

  /** The plan of a failed wave covers a live record of the wave whose group reported. */
  lemma ReportedGroupCovered(s: State, reports: seq<Error>, i: nat, n: nat, k: Partition, o: int)
    requires Ownership(s) && WaveHolds(s) && k in s.owned && i < |reports|
    requires var g := GroupKey(k, true, s.owned[k]);
      && InWaveAt(s.wave, g, o) && PlansFrom(s.wave, g, reports[i], n)
      && forall j :: 0 <= j < n ==> GroupOf(s.wave, g)[j].position.offset != o
    ensures k in PlanOf(Joined(reports)) && PlanOf(Joined(reports))[k].offset <= o
  {
    var g := GroupKey(k, true, s.owned[k]);
    var j := LiveInGroup(s, k, o);
    GroupMembers(s.wave, g);
    GroupInOrder(s, g);
    assert n <= j < |GroupOf(s.wave, g)|;
    var first := GroupOf(s.wave, g)[n];
    assert first in GroupOf(s.wave, g) && first.Group() == g;
    assert k in PlanOf(reports[i]) && PlanOf(reports[i])[k].offset <= o;
    JoinedPlan(reports);
  }

  /** The plan of a failed wave never takes the fetch position past a live record outside the wave. */
  lemma ForeignPlanBehind(s: State, reports: seq<Error>, order: seq<GroupKey>, ns: seq<nat>, k: Partition, o: int)
    requires Ownership(s) && WaveHolds(s) && Live(s, k, o) && ReadsAgain(s, k, o)
    requires !InWaveAt(s.wave, GroupKey(k, true, s.owned[k]), o)
    requires |reports| == |order| == |ns|
    requires forall i :: 0 <= i < |order| ==> PlansFrom(s.wave, order[i], reports[i], ns[i])
    requires forall g :: g in order && g.k == k && g.known ==> g in s.started + Current(s, k)
    requires k in PlanOf(Joined(reports))
    ensures PlanOf(Joined(reports))[k].offset <= o
  {
    JoinedPlan(reports);
    var i :| 0 <= i < |reports| && k in PlanOf(reports[i]);
    assert PlansFrom(s.wave, order[i], reports[i], ns[i]);
    var group := GroupOf(s.wave, order[i]);
    GroupMembers(s.wave, order[i]);
    var m := group[ns[i]];
    assert m in group && m.position.Key() == k && m in s.wave;
    assert UnknownOnlyFirst(s) && m.known;
    assert order[i] in order;
    PlanBehindDriver(s, m.position, m, o);
  }

  lemma GatherFailureCovers(log: Log, s: State, e: Event, k: Partition, o: int)
    requires All(log, s) && Enabled(log, s, e) && e.GatherFails? && !s.closing && Live(s, k, o) && Covered(s, k, o)
    ensures Covered(Apply(s, e), k, o)
  {
    var reports := FirstReports(s.wave, e.order, e.err);
    var ns := seq(|e.order|, _ => 0 as nat);
    forall i | 0 <= i < |e.order|
      ensures PlansFrom(s.wave, e.order[i], reports[i], ns[i])
    {
      assert e.order[i] in e.order;
      AttachedBoundary(e.err, GroupOf(s.wave, e.order[i])[0].position);
    }
    var g := GroupKey(k, true, s.owned[k]);
    if InWaveAt(s.wave, g, o) {
      var m :| m in s.wave && m.Group() == g && m.position.offset == o;
      assert InWave(s.wave, g) && Admits(s, g);
      var i :| 0 <= i < |e.order| && e.order[i] == g;
      assert PlansFrom(s.wave, g, reports[i], ns[i]);
      ReportedGroupCovered(s, reports, i, 0, k, o);
    } else if k in PlanOf(Joined(reports)) {
      ForeignPlanBehind(s, reports, e.order, ns, k, o);
    }
  }

  lemma SettledHas(group: seq<Message>, n: nat, j: nat)
    requires j < n <= |group|
    ensures (group[j].position.Key(), group[j].gen, group[j].position.offset) in SettledOf(group, n)
  {
  }

  /** A live record's group has not settled it. */
  lemma LiveNotSettled(s: State, k: Partition, o: int)
    requires WaveHolds(s) && !s.closing && Live(s, k, o)
    requires var g := GroupKey(k, true, s.owned[k]); g in s.results && ResultHolds(s, g)
    ensures var g := GroupKey(k, true, s.owned[k]);
      forall j :: 0 <= j < s.results[g].settled ==> GroupOf(s.wave, g)[j].position.offset != o
  {
    var g := GroupKey(k, true, s.owned[k]);
    var group := GroupOf(s.wave, g);
    GroupMembers(s.wave, g);
    forall j | 0 <= j < s.results[g].settled
      ensures group[j].position.offset != o
    {
      SettledHas(group, s.results[g].settled, j);
      assert group[j] in group && group[j].Group() == g;
    }
  }

  lemma WaveEndCovers(log: Log, s: State, e: Event, k: Partition, o: int)
    requires All(log, s) && Enabled(log, s, e) && e.EndWave? && !s.closing && Live(s, k, o) && Covered(s, k, o)
    ensures Covered(Apply(s, e), k, o)
  {
    var g := GroupKey(k, true, s.owned[k]);
    var reports := Reports(s.results, e.order);
    var ns := seq(|e.order|, i requires 0 <= i < |e.order| =>
      assert e.order[i] in e.order; s.results[e.order[i]].settled);
    forall i | 0 <= i < |e.order|
      ensures PlansFrom(s.wave, e.order[i], reports[i], ns[i])
    {
      assert e.order[i] in e.order && ResultHolds(s, e.order[i]);
    }
    if InWaveAt(s.wave, g, o) {
      var m :| m in s.wave && m.Group() == g && m.position.offset == o;
      var at :| 0 <= at < |s.wave| && s.wave[at] == m;
      assert !Stale(s, g) && g !in s.discarded;
      assert g in s.results && ResultHolds(s, g);
      LiveNotSettled(s, k, o);
      var j := LiveInGroup(s, k, o);
      var i :| 0 <= i < |e.order| && e.order[i] == g;
      assert PlansFrom(s.wave, g, reports[i], ns[i]);
      ReportedGroupCovered(s, reports, i, ns[i], k, o);
    } else if k in PlanOf(Joined(reports)) {
      ForeignPlanBehind(s, reports, e.order, ns, k, o);
    }
  }

  lemma StepKeepsCovered(log: Log, s: State, e: Event, k: Partition, o: int)
    requires All(log, s) && Enabled(log, s, e) && !Apply(s, e).closing && Live(Apply(s, e), k, o)
    ensures Covered(Apply(s, e), k, o)
  {
    if RebalanceStep(e) {
      RebalanceKeepsCovered(log, s, e, k, o);
    } else if e.Read? {
      ReadKeepsCovered(log, s, e, k, o);
    } else if e.Dispatch? {
      DispatchKeepsCovered(log, s, e, k, o);
    } else if HandlerStep(e) {
      HandlerKeepsCovered(log, s, e, k, o);
    } else if WaveEnds(e) {
      assert Live(s, k, o) && Covered(s, k, o);
      if e.GatherFails? {
        GatherFailureCovers(log, s, e, k, o);
      } else {
        WaveEndCovers(log, s, e, k, o);
      }
    } else if PendingStep(e) {
      PendingKeepsCovered(log, s, e, k, o);
    } else {
      FailedKeepsCovered(log, s, e, k, o);
    }
  }

  lemma CopiedStaysUnread(log: Log, s: State, e: Event, k: Partition)
    requires Rebalanced(s) && Coverage(log, s) && Enabled(log, s, e) && PendingStep(e)
    requires k in Copied(Apply(s, e).phase)
    ensures ClearedUnread(Apply(s, e), k)
  {
    if k !in s.pending {
      assert k in Copied(s.phase) && ClearedUnread(s, k);
    }
  }

  lemma NothingIsCopied(log: Log, s: State, e: Event)
    requires Enabled(log, s, e) && (FailedStep(e) || e.Read?)
    ensures Copied(Apply(s, e).phase) == map[]
  {
  }

  lemma HandlersKeepCopied(log: Log, s: State, e: Event)
    requires Enabled(log, s, e) && (e.Dispatch? || HandlerStep(e))
    ensures var s' := Apply(s, e);
      Copied(s'.phase) == map[] || (s'.phase == s.phase && s'.pending == s.pending && s'.owned == s.owned &&
        s'.read == s.read)
  {
  }

  lemma CopiedStaysUnreadInCallback(log: Log, s: State, e: Event, k: Partition)
    requires Rebalanced(s) && Coverage(log, s) && Enabled(log, s, e) && RebalanceStep(e)
    requires k in Copied(Apply(s, e).phase)
    ensures ClearedUnread(Apply(s, e), k)
  {
    var s' := Apply(s, e);
    CallbackKeepsOrRenews(log, s, e);
    assert KeptOrFresh(s, s', k) && ClearedUnread(s, k);
    if k in s.pending && k !in s'.pending {
      assert e.ClearPending? && k in s.callback.ks && k !in s'.owned;
    }
  }

  lemma StepKeepsCopied(log: Log, s: State, e: Event)
    requires Rebalanced(s) && Coverage(log, s) && Enabled(log, s, e)
    ensures forall k :: k in Copied(Apply(s, e).phase) ==> ClearedUnread(Apply(s, e), k)
  {
    var s' := Apply(s, e);
    forall k | k in Copied(s'.phase)
      ensures ClearedUnread(s', k)
    {
      if RebalanceStep(e) {
        CopiedStaysUnreadInCallback(log, s, e, k);
      } else if PendingStep(e) {
        CopiedStaysUnread(log, s, e, k);
      } else if e.Dispatch? || HandlerStep(e) {
        HandlersKeepCopied(log, s, e);
        assert ClearedUnread(s, k) && NeverRead(s, k) == NeverRead(s', k);
      } else if WaveEnds(e) {
        WaveEndDrops(log, s, e);
      } else {
        NothingIsCopied(log, s, e);
      }
    }
  }

  lemma ReadsAreLogged(log: Log, s: State, e: Event)
    requires Rebalanced(s) && Coverage(log, s) && Enabled(log, s, e)
    ensures forall r :: r in Apply(s, e).read && r.1 >= 1 ==> log(r.0, r.2)
  {
  }

  lemma StepKeepsCoverage(log: Log, s: State, e: Event)
    requires All(log, s) && Enabled(log, s, e)
    ensures Coverage(log, Apply(s, e))
  {
    var s' := Apply(s, e);
    ReadsAreLogged(log, s, e);
    StepKeepsCopied(log, s, e);
    if !s'.closing {
      StepKeepsPendingKnown(log, s, e);
      forall k, o | Live(s', k, o)
        ensures Covered(s', k, o)
      {
        StepKeepsCovered(log, s, e, k, o);
      }
    }
  }

  lemma {:induction false} RunKeepsAll(log: Log, states: seq<State>, events: seq<Event>, n: nat)
    requires IsRun(log, states, events) && n < |states|
    ensures All(log, states[n])
  {
    if n > 0 {
      RunKeepsAll(log, states, events, n - 1);
      var s, e := states[n - 1], events[n - 1];
      assert Step(log, s, e, states[n]);
      StepKeepsOwnership(log, s, e);
      StepKeepsRebalanced(log, s, e);
      StepKeepsWave(log, s, e);
      StepKeepsCoverage(log, s, e);
    }
  }

  // ------------------------------------------------------------------------
  // Over every run
  // ------------------------------------------------------------------------

  /** Until Close no record is read while any position is waiting to be sought, and a revoked
      partition never stays pending, with revocations racing a failed seek included. */
  lemma RewindsFailClosed(log: Log, states: seq<State>, events: seq<Event>, n: nat)
    requires IsRun(log, states, events) && n < |events|
    ensures events[n].Read? && !states[n].closing ==> states[n].pending == map[]
    ensures states[n].pending.Keys !! states[n].revoked
    ensures states[n].pending.Keys <= states[n].driver.Keys
  {
    RunKeepsAll(log, states, events, n);
    assert Step(log, states[n], events[n], states[n + 1]);
  }

  /** A record read under its partition's current assignment and not settled is in the wave in
      hand, or the partition is read from it or an earlier offset: at once, or after the pending
      position has been sought, and until then nothing is read. */
  lemma NothingReadIsSkipped(log: Log, states: seq<State>, events: seq<Event>, n: nat, k: Partition, o: int)
    requires IsRun(log, states, events) && n < |states|
    requires !states[n].closing && Live(states[n], k, o)
    ensures Covered(states[n], k, o)
  {
    RunKeepsAll(log, states, events, n);
  }

  /** Step e of state s records a failed rewind of partition k that is still owned. */
  predicate Requests(s: State, e: Event, k: Partition) {
    e.RecordPending? && !s.closing && s.phase.Unsought? && k in s.phase.plan && k !in s.revoked
  }

  function Requested(s: State, k: Partition): Position
    requires s.phase.Unsought? && k in s.phase.plan
  {
    s.phase.plan[k]
  }

  lemma PendingMoves(log: Log, s: State, e: Event, k: Partition)
    requires Enabled(log, s, e) && k in Apply(s, e).pending
    ensures !Requests(s, e, k) ==> k in s.pending && Apply(s, e).pending[k] == s.pending[k]
    ensures Requests(s, e, k) ==>
      var earlier := k in s.pending && s.pending[k].offset <= Requested(s, k).offset;
      Apply(s, e).pending[k] == if earlier then s.pending[k] else Requested(s, k)
  {
  }

  /** Position p is the earliest of those requested for k from step m on, before step n. */
  ghost predicate EarliestRequested(states: seq<State>, events: seq<Event>, m: nat, n: nat, k: Partition, p: Position)
    requires m <= n <= |events| && |states| == |events| + 1
  {
    && (forall j :: m <= j < n && Requests(states[j], events[j], k) ==> p.offset <= Requested(states[j], k).offset)
    && (exists j :: m <= j < n && Requests(states[j], events[j], k) && p == Requested(states[j], k))
  }

  /** Over every run, until Close and after: a pending position is the earliest requested for its
      partition since the partition was last not pending. */
  lemma {:induction false} PendingIsEarliest(log: Log, states: seq<State>, events: seq<Event>, n: nat, k: Partition)
    returns (m: nat)
    requires IsRun(log, states, events) && n < |states| && k in states[n].pending
    ensures m < n && k !in states[m].pending && (forall j :: m < j <= n ==> k in states[j].pending)
    ensures EarliestRequested(states, events, m, n, k, states[n].pending[k])
  {
    var s, e := states[n - 1], events[n - 1];
    assert Step(log, s, e, states[n]);
    PendingMoves(log, s, e, k);
    if k in s.pending {
      m := PendingIsEarliest(log, states, events, n - 1, k);
      OneMoreRequest(states, events, m, n, k, s.pending[k]);
    } else {
      m := n - 1;
    }
  }

  lemma OneMoreRequest(states: seq<State>, events: seq<Event>, m: nat, n: nat, k: Partition, p: Position)
    requires m < n <= |events| && |states| == |events| + 1 && EarliestRequested(states, events, m, n - 1, k, p)
    ensures EarliestRequested(states, events, m, n, k,
      if Requests(states[n - 1], events[n - 1], k) &&
        Requested(states[n - 1], k).offset < p.offset then Requested(states[n - 1], k) else p)
  {
    var j :| m <= j < n - 1 && Requests(states[j], events[j], k) && p == Requested(states[j], k);
  }

  /** Over every run: of each partition at most one group of a wave is handed to a handler, and its
      records are in rising offset order. */
  lemma HandedInOrder(log: Log, states: seq<State>, events: seq<Event>, n: nat, g: GroupKey)
    requires IsRun(log, states, events) && n < |states| && g in states[n].started && g.known
    ensures forall h :: h in states[n].started && h.known && h.k == g.k ==> h == g
    ensures var group := GroupOf(states[n].wave, g);
      group != [] && forall i, j :: 0 <= i < j < |group| ==> group[i].position.offset < group[j].position.offset
  {
    RunKeepsAll(log, states, events, n);
    RunKeepsOwnership(log, states, events, n);
    OwnershipMeansOneGroup(states[n]);
    GroupInOrder(states[n], g);
    GroupMembers(states[n].wave, g);
  }
}
