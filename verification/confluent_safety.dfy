/** Over every run of ConfluentConsumer: handlers only run on partitions assigned with the
    generation their records were read under, and one group per partition and wave. */
module ConfluentSafety {
  import opened RecordGrouping
  import opened ConfluentConsumer

  // ------------------------------------------------------------------------
  // Ownership
  // ------------------------------------------------------------------------

  /** A running handler's partition is assigned, with the generation its records were read under. */
  predicate RunsOwned(s: State) {
    forall g :: g in s.running && s.known ==> g.k in s.owned && (g.known ==> s.owned[g.k] == g.gen)
  }

  /** At most one group of a partition has been given a lease in the current wave. */
  predicate OneGroupPerPartition(s: State) {
    forall g, h :: g in s.started && h in s.started && g.known && h.known && g.k == h.k ==> g == h
  }

  ghost predicate Ownership(s: State) {
    && RunsOwned(s)
    && (!s.known ==> s.gen == 0 && s.owned == map[])
    && (forall k :: k in s.owned ==> 1 <= s.owned[k] <= s.gen)
    && s.running <= s.started
    && (s.started != {} || s.discarded != {} ==> s.phase == Dispatching)
    && (s.wave != [] ==> s.phase == Dispatching || s.phase == Reading)
    && (forall g :: g in s.started ==> InWave(s.wave, g))
    && (forall g :: g in s.discarded ==> InWave(s.wave, g))
    && (forall i :: 0 <= i < |s.wave| ==> MessageOk(s, s.wave[i]))
    && (forall g :: g in s.started && g.known ==> NewestStarted(s, g))
  }

  /** No message is newer than the partition's current assignment. */
  predicate MessageOk(s: State, m: Message) {
    && m.gen <= s.gen && (m.known ==> s.known)
    && (m.known && m.position.Key() in s.owned ==> m.gen <= s.owned[m.position.Key()])
  }

  predicate NewestStarted(s: State, g: GroupKey) {
    forall i :: 0 <= i < |s.wave| && s.wave[i].known && s.wave[i].position.Key() == g.k ==> s.wave[i].gen <= g.gen
  }

  lemma OwnershipMeansOneGroup(s: State)
    requires Ownership(s)
    ensures OneGroupPerPartition(s)
  {
    forall g, h | g in s.started && h in s.started && g.known && h.known && g.k == h.k
      ensures g == h
    {
      assert NewestStarted(s, g) && NewestStarted(s, h);
      var i :| 0 <= i < |s.wave| && s.wave[i].Group() == g;
      var j :| 0 <= j < |s.wave| && s.wave[j].Group() == h;
      assert s.wave[i].gen <= h.gen && s.wave[j].gen <= g.gen;
    }
  }

  predicate RebalanceStep(e: Event) {
    e.DriverAssign? || e.MarkAssigned? || e.MarkRewindsAssigned? || e.MarkRevoked? || e.ClearPending? ||
      e.DriverUnassign?
  }

  lemma RebalanceKeepsOwnership(log: Log, s: State, e: Event)
    requires Ownership(s) && Enabled(log, s, e) && RebalanceStep(e)
    ensures Ownership(Apply(s, e))
  {
    var s' := Apply(s, e);
    forall i | 0 <= i < |s'.wave|
      ensures MessageOk(s', s'.wave[i])
    {
      assert MessageOk(s, s.wave[i]);
    }
    forall g | g in s'.started && g.known
      ensures NewestStarted(s', g)
    {
      assert NewestStarted(s, g);
    }
  }

  lemma ReadKeepsOwnership(log: Log, s: State, e: Event)
    requires Ownership(s) && Enabled(log, s, e) && e.Read?
    ensures Ownership(Apply(s, e))
  {
    var s', m := Apply(s, e), Snapshot(s, e.p);
    assert s'.wave == s.wave + [m];
    forall i | 0 <= i < |s'.wave|
      ensures MessageOk(s', s'.wave[i])
    {
      if i < |s.wave| {
        assert MessageOk(s, s.wave[i]);
      }
    }
  }

  lemma DispatchKeepsOwnership(log: Log, s: State, e: Event)
    requires Ownership(s) && Enabled(log, s, e) && e.Dispatch?
    ensures Ownership(Apply(s, e))
  {
    var s' := Apply(s, e);
    if e.g.known {
      var i :| 0 <= i < |s.wave| && s.wave[i].Group() == e.g;
      assert MessageOk(s, s.wave[i]);
      forall j | 0 <= j < |s.wave| && s.wave[j].known && s.wave[j].position.Key() == e.g.k
        ensures s.wave[j].gen <= e.g.gen
      {
        assert MessageOk(s, s.wave[j]);
      }
    }
    forall g | g in s'.started && g.known
      ensures NewestStarted(s', g)
    {
      if g != e.g {
        assert NewestStarted(s, g);
      }
    }
    forall i | 0 <= i < |s'.wave|
      ensures MessageOk(s', s'.wave[i])
    {
      assert MessageOk(s, s.wave[i]);
    }
  }

  predicate WaveEnds(e: Event) {
    e.GatherFails? || e.EndWave?
  }

  predicate HandlerStep(e: Event) {
    e.StopGathering? || e.Discard? || e.Finish? || e.Close?
  }

  lemma WaveEndKeepsOwnership(log: Log, s: State, e: Event)
    requires Ownership(s) && Enabled(log, s, e) && WaveEnds(e)
    ensures Ownership(Apply(s, e))
  {
    var s' := Apply(s, e);
    assert s'.wave == [] && s'.started == {} && s'.running == {};
  }

  lemma HandlerKeepsOwnership(log: Log, s: State, e: Event)
    requires Ownership(s) && Enabled(log, s, e) && HandlerStep(e)
    ensures Ownership(Apply(s, e))
  {
    SameWaveKeepsOwnership(s, Apply(s, e));
  }

  lemma RewindKeepsOwnership(log: Log, s: State, e: Event)
    requires Ownership(s) && Enabled(log, s, e)
    requires !RebalanceStep(e) && !e.Read? && !e.Dispatch? && !HandlerStep(e) && !WaveEnds(e)
    ensures Ownership(Apply(s, e))
  {
    SameWaveKeepsOwnership(s, Apply(s, e));
  }

  lemma SameWaveKeepsOwnership(s: State, s': State)
    requires Ownership(s)
    requires s'.known == s.known && s'.gen == s.gen && s'.owned == s.owned && s'.wave == s.wave
    requires s'.running <= s.running && s'.started == s.started
    requires forall g :: g in s'.discarded && g !in s.discarded ==> InWave(s.wave, g)
    requires s'.started != {} || s'.discarded != {} ==> s'.phase == Dispatching
    requires s'.wave != [] ==> s'.phase == Dispatching || s'.phase == Reading
    ensures Ownership(s')
  {
    forall i | 0 <= i < |s'.wave|
      ensures MessageOk(s', s'.wave[i])
    {
      assert MessageOk(s, s.wave[i]);
    }
    forall g | g in s'.started && g.known
      ensures NewestStarted(s', g)
    {
      assert NewestStarted(s, g);
    }
  }

  lemma StepKeepsOwnership(log: Log, s: State, e: Event)
    requires Ownership(s) && Enabled(log, s, e)
    ensures Ownership(Apply(s, e))
  {
    if RebalanceStep(e) {
      RebalanceKeepsOwnership(log, s, e);
    } else if e.Read? {
      ReadKeepsOwnership(log, s, e);
    } else if e.Dispatch? {
      DispatchKeepsOwnership(log, s, e);
    } else if WaveEnds(e) {
      WaveEndKeepsOwnership(log, s, e);
    } else if HandlerStep(e) {
      HandlerKeepsOwnership(log, s, e);
    } else {
      RewindKeepsOwnership(log, s, e);
    }
  }

  lemma {:induction false} RunKeepsOwnership(log: Log, states: seq<State>, events: seq<Event>, n: nat)
    requires IsRun(log, states, events) && n < |states|
    ensures Ownership(states[n])
  {
    if n > 0 {
      RunKeepsOwnership(log, states, events, n - 1);
      assert Step(log, states[n - 1], events[n - 1], states[n]);
      StepKeepsOwnership(log, states[n - 1], events[n - 1]);
    }
  }

  /** In every interleaving of reads, dispatches and rebalance callbacks, before and after Close:
      a running handler's partition is assigned with exactly the generation its records were
      read under, and a wave gives a lease to at most one group of a partition. */
  lemma HandlersRunOwned(log: Log, states: seq<State>, events: seq<Event>, n: nat)
    requires IsRun(log, states, events) && n < |states|
    ensures RunsOwned(states[n]) && OneGroupPerPartition(states[n])
  {
    RunKeepsOwnership(log, states, events, n);
    OwnershipMeansOneGroup(states[n]);
  }

  /** Offsets of one partition and generation are read in rising order into a wave, and a group
      hands them over in that order. */
  predicate WaveInOrder(s: State) {
    forall i, j :: 0 <= i < j < |s.wave| && s.wave[i].Group() == s.wave[j].Group() && s.wave[i].known ==>
      s.wave[i].position.offset < s.wave[j].position.offset
  }

  lemma GroupInOrder(s: State, g: GroupKey)
    requires WaveInOrder(s) && g.known
    ensures forall i, j :: 0 <= i < j < |GroupOf(s.wave, g)| ==>
      GroupOf(s.wave, g)[i].position.offset < GroupOf(s.wave, g)[j].position.offset
  {
    ghost var rank := (m: Message) => m.position.offset;
    MatchingKeepsOrder(s.wave, GroupKeyOf, g, rank);
    var m := GroupOf(s.wave, g);
    assert m == Matching(s.wave, GroupKeyOf, g);
    assert forall i, j ::
      0 <= i < j < |Matching(s.wave, GroupKeyOf, g)| ==>
        rank(Matching(s.wave, GroupKeyOf, g)[i]) < rank(Matching(s.wave, GroupKeyOf, g)[j]);
    forall i, j | 0 <= i < j < |m|
      ensures m[i].position.offset < m[j].position.offset
    {
      assert rank(m[i]) < rank(m[j]);
    }
  }

  lemma GroupMembers(wave: seq<Message>, g: GroupKey)
    ensures forall m :: m in GroupOf(wave, g) ==> m.Group() == g && m in wave
    ensures GroupOf(wave, g) != [] <==> InWave(wave, g)
  {
    MatchingKeys(wave, GroupKeyOf, g);
  }
}
