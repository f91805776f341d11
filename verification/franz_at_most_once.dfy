/** CommitBeforeHandler with manual commits: once a record's commit has succeeded, the same
    consumer never hands it to a handler again, through failures, rewinds, lost partitions and
    rebuilt clients. */
module FranzAtMostOnce {
  import opened RewindPlans
  import opened PositionLists
  import opened PartitionWorkers
  import opened FranzConsumer
  import opened FranzSafety

  /** Everything this member could still read on partition k lies past offset o. */
  predicate ReadsPast(s: State, k: Partition, o: int) {
    && k in s.committed && o < s.committed[k]
    && (k in s.positions ==> o < s.positions[k])
    && (k in s.pending ==> o < s.pending[k].offset)
    && (k in s.wave && s.wave[k].settled < |s.wave[k].records| ==>
      o < s.wave[k].records[s.wave[k].settled].position.offset)
  }

  ghost predicate CrossedBehind(log: Log, s: State) {
    forall k, o :: (k, o) in s.crossed && log(k, o).Data? ==> ReadsPast(s, k, o)
  }

  /** Event e hands the record at offset o of partition k to the handler. */
  ghost predicate Hands(log: Log, cfg: Config, s: State, e: Event, k: Partition, o: int) {
    && e.Work? && e.k == k && k in s.wave && s.wave[k].settled < |s.wave[k].records|
    && !e.o.PreCommitFails?
    && log(k, o).Data? && Listed(Unit(cfg, s.wave[k]), o)
  }

  lemma UnitInOrder(log: Log, cfg: Config, s: State, k: Partition, o: int)
    requires Shape(log, cfg, s) && k in s.wave && s.wave[k].settled < |s.wave[k].records|
    requires Listed(Unit(cfg, s.wave[k]), o)
    ensures s.wave[k].records[s.wave[k].settled].position.offset <= o <= LastOffset(Unit(cfg, s.wave[k]))
  {
    var g := s.wave[k];
    assert GroupOk(log, cfg, k, s.positions[k], s.polled, g);
    var i :| 0 <= i < |Unit(cfg, g)| && Unit(cfg, g)[i].position.offset == o;
    assert Unit(cfg, g)[i] == g.records[g.settled + i];
  }

  /** A record handed to a handler has not been crossed before, and is crossed afterwards. */
  lemma HandedOnceMore(log: Log, cfg: Config, s: State, e: Event, k: Partition, o: int)
    requires cfg.commitBefore && Shape(log, cfg, s) && CrossedBehind(log, s) && Enabled(log, cfg, s, e)
    requires Hands(log, cfg, s, e, k, o)
    ensures (k, o) !in s.crossed
    ensures (k, o) in Apply(cfg, s, e).crossed
  {
    UnitInOrder(log, cfg, s, k, o);
    var g := s.wave[k];
    var i :| 0 <= i < |Unit(cfg, g)| && Unit(cfg, g)[i].position.offset == o;
    assert GroupOk(log, cfg, k, s.positions[k], s.polled, g);
    if e.o.ResolveFails? {
      DataIsNotControl(log, cfg, s, k, i);
    }
    assert (k, o) in OffsetsOf(k, Unit(cfg, g));
  }

  /** A unit that contains a record for the handler is not resolved as a marker. */
  lemma DataIsNotControl(log: Log, cfg: Config, s: State, k: Partition, i: nat)
    requires Shape(log, cfg, s) && k in s.wave && s.wave[k].settled < |s.wave[k].records|
    requires i < |Unit(cfg, s.wave[k])| && log(k, Unit(cfg, s.wave[k])[i].position.offset).Data?
    ensures !UnitControl(cfg, s.wave[k])
  {
    var g := s.wave[k];
    assert GroupOk(log, cfg, k, s.positions[k], s.polled, g);
    if cfg.batch {
      assert !g.records[i].control;
      VisibleFirst(g.records, i);
    }
  }

  lemma WrittenIsPast(log: Log, cfg: Config, s: State, e: Event, o: int)
    requires !cfg.marks && Shape(log, cfg, s) && Enabled(log, cfg, s, e) && e.Work?
    requires Listed(Unit(cfg, s.wave[e.k]), o) && Settles(cfg.commitBefore, e.o)
    ensures ReadsPast(Apply(cfg, s, e), e.k, o)
  {
    PastAfterWork(log, cfg, s, e.k, e.o, e.applied, o);
  }

  lemma PastAfterWork(log: Log, cfg: Config, s: State, k: Partition, outcome: Outcome, applied: bool, o: int)
    requires !cfg.marks && Shape(log, cfg, s) && k in s.wave && s.wave[k].settled < |s.wave[k].records|
    requires Listed(Unit(cfg, s.wave[k]), o) && Settles(cfg.commitBefore, outcome)
    ensures ReadsPast(AfterWork(cfg, s, k, outcome, applied), k, o)
  {
    var s' := AfterWork(cfg, s, k, outcome, applied);
    var unit := Unit(cfg, s.wave[k]);
    UnitInOrder(log, cfg, s, k, o);
    UnitEnds(log, cfg, s, k);
    SettledUnit(cfg, s, k, outcome, applied);
    CompletedIsPast(s.pending, unit[|unit| - 1].position);
  }

  lemma SettledUnit(cfg: Config, s: State, k: Partition, outcome: Outcome, applied: bool)
    requires !cfg.marks && k in s.wave && s.wave[k].settled < |s.wave[k].records| && Settles(cfg.commitBefore, outcome)
    ensures var unit, s' := Unit(cfg, s.wave[k]), AfterWork(cfg, s, k, outcome, applied);
      && s'.committed == s.committed[k := LastOffset(unit) + 1]
      && s'.positions == s.positions
      && s'.pending == Complete(s.pending, unit[|unit| - 1].position)
      && k in s'.wave && s'.wave[k].records == s.wave[k].records
      && s'.wave[k].settled == s.wave[k].settled + |unit|
  {
  }

  lemma CompletedIsPast(pending: Plan, done: Position)
    ensures done.Key() in Complete(pending, done) ==> done.offset < Complete(pending, done)[done.Key()].offset
  {
  }

  /** The unit's last record: everything after it in the group, and the fetch position, is past it. */
  lemma UnitEnds(log: Log, cfg: Config, s: State, k: Partition)
    requires Shape(log, cfg, s) && k in s.wave && s.wave[k].settled < |s.wave[k].records|
    ensures var g := s.wave[k];
      var unit := Unit(cfg, g);
      && unit[|unit| - 1].position.Key() == k
      && LastOffset(unit) < s.positions[k]
      && g.settled + |unit| <= |g.records|
      && (g.settled + |unit| < |g.records| ==> LastOffset(unit) < g.records[g.settled + |unit|].position.offset)
  {
    var g := s.wave[k];
    assert GroupOk(log, cfg, k, s.positions[k], s.polled, g);
    assert Unit(cfg, g)[|Unit(cfg, g)| - 1] == g.records[g.settled + |Unit(cfg, g)| - 1];
  }

  lemma OldCrossedStaysPast(log: Log, cfg: Config, s: State, e: Event, o: int)
    requires !cfg.marks && Shape(log, cfg, s) && Enabled(log, cfg, s, e) && e.Work?
    requires ReadsPast(s, e.k, o)
    ensures ReadsPast(Apply(cfg, s, e), e.k, o)
  {
    var s', g := Apply(cfg, s, e), s.wave[e.k];
    var unit := Unit(cfg, g);
    UnitEnds(log, cfg, s, e.k);
    assert Listed(unit, LastOffset(unit)) by {
      assert unit[|unit| - 1].position.offset == LastOffset(unit);
    }
    UnitInOrder(log, cfg, s, e.k, LastOffset(unit));
    assert s'.wave[e.k].records == g.records;
    if s'.wave[e.k].settled < |g.records| {
      assert g.settled == s'.wave[e.k].settled
        || g.records[g.settled].position.offset < g.records[s'.wave[e.k].settled].position.offset;
    }
  }

  lemma WorkKeepsCrossedBehind(log: Log, cfg: Config, s: State, e: Event)
    requires cfg.commitBefore && !cfg.marks && Shape(log, cfg, s) && CrossedBehind(log, s)
    requires Enabled(log, cfg, s, e) && e.Work?
    ensures CrossedBehind(log, Apply(cfg, s, e))
  {
    var s', unit := Apply(cfg, s, e), Unit(cfg, s.wave[e.k]);
    forall k, o | (k, o) in s'.crossed && log(k, o).Data?
      ensures ReadsPast(s', k, o)
    {
      if (k, o) !in s.crossed {
        assert k == e.k && Listed(unit, o);
        WrittenIsPast(log, cfg, s, e, o);
      } else if k == e.k {
        assert ReadsPast(s, k, o);
        OldCrossedStaysPast(log, cfg, s, e, o);
      } else {
        assert ReadsPast(s, k, o);
        OtherPartitionUntouched(log, cfg, s, e, k, o);
      }
    }
  }

  lemma OtherPartitionUntouched(log: Log, cfg: Config, s: State, e: Event, k: Partition, o: int)
    requires !cfg.marks && Shape(log, cfg, s) && Enabled(log, cfg, s, e) && e.Work? && k != e.k
    requires ReadsPast(s, k, o)
    ensures ReadsPast(Apply(cfg, s, e), k, o)
  {
  }

  /** A rewind to positions past everything crossed keeps them all behind. */
  lemma RewindKeepsCrossedBehind(log: Log, t: State, plan: Plan)
    requires t.wave == map[] && CrossedBehind(log, t)
    requires forall k, o :: (k, o) in t.crossed && log(k, o).Data? && k in plan ==> o < plan[k].offset
    ensures CrossedBehind(log, t.(pending := Remember(t.pending, plan), positions := Rewound(t.positions, plan)))
  {
    var s' := t.(pending := Remember(t.pending, plan), positions := Rewound(t.positions, plan));
    forall k, o | (k, o) in s'.crossed && log(k, o).Data?
      ensures ReadsPast(s', k, o)
    {
      assert ReadsPast(t, k, o);
    }
  }

  lemma EndWaveKeepsCrossedBehind(log: Log, cfg: Config, s: State, e: Event)
    requires Shape(log, cfg, s) && CrossedBehind(log, s) && Enabled(log, cfg, s, e) && e.EndWave?
    ensures CrossedBehind(log, Apply(cfg, s, e))
  {
    var t, plan := s.(wave := map[]), PlanOf(Joined(Reports(s.wave, e.order)));
    WavePlan(log, cfg, s, e.order);
    EndWaveIsRewind(log, cfg, s, e);
    forall k, o | (k, o) in t.crossed && log(k, o).Data?
      ensures ReadsPast(t, k, o) && (k in plan ==> o < plan[k].offset)
    {
      assert ReadsPast(s, k, o);
      if k in plan {
        ResumeNotBefore(log, cfg, s, k);
      }
    }
    RewindKeepsCrossedBehind(log, t, plan);
  }

  lemma ResumeNotBefore(log: Log, cfg: Config, s: State, k: Partition)
    requires Shape(log, cfg, s) && k in s.wave && Resume(cfg, s.wave[k]).Some?
    ensures s.wave[k].settled < |s.wave[k].records|
    ensures s.wave[k].records[s.wave[k].settled].position.offset <= Resume(cfg, s.wave[k]).value.offset
  {
    ResumeCovers(log, cfg, s, k);
    assert GroupOk(log, cfg, k, s.positions[k], s.polled, s.wave[k]);
  }

  lemma PollKeepsCrossedBehind(log: Log, cfg: Config, s: State, e: Event)
    requires Shape(log, cfg, s) && CrossedBehind(log, s) && Enabled(log, cfg, s, e) && e.Poll?
    requires s.marked == map[]
    ensures CrossedBehind(log, Apply(cfg, s, e))
  {
    var t := Returned(s, e.fetched);
    FirstBelowLast(log, e.fetched);
    forall k, o | (k, o) in t.crossed && log(k, o).Data?
      ensures ReadsPast(t, k, o)
      ensures k in e.fetched ==> o < FirstOffset(e.fetched[k])
    {
      assert ReadsPast(s, k, o);
    }
    if e.err.Nil? {
      forall k, o | (k, o) in t.crossed && log(k, o).Data?
        ensures ReadsPast(Apply(cfg, s, e), k, o)
      {
        assert ReadsPast(t, k, o);
      }
    } else if IsTransient(e.err) && e.fetched != map[] {
      TransientPollIsRewind(log, cfg, s, e);
      ListingPlan(log, e.fetched, e.listing);
      RewindKeepsCrossedBehind(log, t, Collect(map[], e.listing));
    } else if IsTransient(e.err) {
      EmptyTransientPollDrops(log, cfg, s, e);
      DropKeepsCrossedBehind(log, cfg, s, e.flushed);
    }
  }

  lemma DropKeepsCrossedBehind(log: Log, cfg: Config, s: State, flushed: set<Partition>)
    requires CrossedBehind(log, s) && s.wave == map[] && s.marked == map[]
    ensures CrossedBehind(log, DropClient(s, flushed))
  {
    var s' := DropClient(s, flushed);
    forall k, o | (k, o) in s'.crossed && log(k, o).Data?
      ensures ReadsPast(s', k, o)
    {
      assert ReadsPast(s, k, o);
    }
  }

  lemma CoordinationKeepsCrossedBehind(log: Log, cfg: Config, s: State, e: Event)
    requires Shape(log, cfg, s) && CrossedBehind(log, s) && s.marked == map[]
    requires Enabled(log, cfg, s, e) && Coordination(e)
    ensures CrossedBehind(log, Apply(cfg, s, e))
  {
    var s' := Apply(cfg, s, e);
    forall k, o | (k, o) in s'.crossed && log(k, o).Data?
      ensures ReadsPast(s', k, o)
    {
      assert ReadsPast(s, k, o);
    }
  }

  ghost predicate NeverTwice(log: Log, cfg: Config, s: State) {
    Shape(log, cfg, s) && CrossedBehind(log, s) && s.marked == map[]
  }

  lemma StepGrowsCrossed(log: Log, cfg: Config, s: State, e: Event)
    requires Enabled(log, cfg, s, e) && !e.Work?
    ensures Apply(cfg, s, e).crossed == s.crossed
  {
  }

  lemma WorkGrowsCrossed(log: Log, cfg: Config, s: State, e: Event)
    requires Enabled(log, cfg, s, e) && e.Work?
    ensures s.crossed <= Apply(cfg, s, e).crossed
  {
  }

  lemma StepKeepsNeverTwice(log: Log, cfg: Config, s: State, e: Event)
    requires cfg.commitBefore && !cfg.marks && NeverTwice(log, cfg, s) && Enabled(log, cfg, s, e)
    ensures NeverTwice(log, cfg, Apply(cfg, s, e))
  {
    StepKeepsShape(log, cfg, s, e);
    if e.Poll? {
      PollKeepsCrossedBehind(log, cfg, s, e);
    } else if e.Work? {
      WorkKeepsCrossedBehind(log, cfg, s, e);
    } else if e.EndWave? {
      EndWaveKeepsCrossedBehind(log, cfg, s, e);
      EndWaveIsRewind(log, cfg, s, e);
    } else {
      CoordinationKeepsCrossedBehind(log, cfg, s, e);
    }
  }

  lemma {:induction false} RunIsNeverTwice(log: Log, cfg: Config, states: seq<State>, events: seq<Event>, n: nat)
    requires cfg.commitBefore && !cfg.marks && IsRun(log, cfg, states, events) && n < |states|
    ensures NeverTwice(log, cfg, states[n])
  {
    if n > 0 {
      RunIsNeverTwice(log, cfg, states, events, n - 1);
      assert Step(log, cfg, states[n - 1], events[n - 1], states[n]);
      StepKeepsNeverTwice(log, cfg, states[n - 1], events[n - 1]);
    }
  }

  lemma {:induction false} CrossedOnlyGrows(log: Log, cfg: Config, states: seq<State>, events: seq<Event>, m: nat,
        n: nat)
    requires IsRun(log, cfg, states, events) && m <= n < |states|
    ensures states[m].crossed <= states[n].crossed
    decreases n
  {
    if m < n {
      CrossedOnlyGrows(log, cfg, states, events, m, n - 1);
      assert Step(log, cfg, states[n - 1], events[n - 1], states[n]);
      if events[n - 1].Work? {
        WorkGrowsCrossed(log, cfg, states[n - 1], events[n - 1]);
      } else {
        StepGrowsCrossed(log, cfg, states[n - 1], events[n - 1]);
      }
    }
  }

  /** At most once: in no run does a consumer in CommitBeforeHandler mode hand a record to the
      handler at two different steps. */
  lemma HandedAtMostOnce(log: Log, cfg: Config, states: seq<State>, events: seq<Event>, m: nat, n: nat, k: Partition,
        o: int)
    requires cfg.commitBefore && !cfg.marks && IsRun(log, cfg, states, events) && m < n < |events|
    requires Hands(log, cfg, states[m], events[m], k, o)
    ensures !Hands(log, cfg, states[n], events[n], k, o)
  {
    RunIsNeverTwice(log, cfg, states, events, m);
    RunIsNeverTwice(log, cfg, states, events, n);
    assert Step(log, cfg, states[m], events[m], states[m + 1]);
    assert Step(log, cfg, states[n], events[n], states[n + 1]);
    HandedOnceMore(log, cfg, states[m], events[m], k, o);
    CrossedOnlyGrows(log, cfg, states, events, m + 1, n);
    if Hands(log, cfg, states[n], events[n], k, o) {
      HandedOnceMore(log, cfg, states[n], events[n], k, o);
    }
  }
}
