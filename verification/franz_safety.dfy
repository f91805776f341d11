/** No record is lost over the runs of FranzConsumer with synchronous commits, and what every commit
    mode keeps. */
module FranzSafety {
  import opened Options
  import opened RewindPlans
  import opened PositionLists
  import opened PartitionWorkers
  import opened FranzConsumer

  // ------------------------------------------------------------------------
  // What is promised
  // ------------------------------------------------------------------------

  predicate InWave(s: State, k: Partition, o: int) {
    k in s.wave && exists i :: s.wave[k].settled <= i < |s.wave[k].records| && s.wave[k].records[i].position.offset == o
  }

  /** A record for a handler that is not settled and that no other member has committed past. */
  predicate Due(log: Log, s: State, k: Partition, o: int) {
    log(k, o).Data? && (k, o) !in s.settled && !(k in s.ceded && o < s.ceded[k])
  }

  /** A due record this member has fetched: a poll returned it. */
  predicate Owed(log: Log, s: State, k: Partition, o: int) {
    Due(log, s, k, o) && (k, o) in s.polled
  }

  /** Where the next fetch of a partition starts, if anything but the reset policy decides it. */
  function NextFetch(s: State, k: Partition): Option<int> {
    if k in s.positions then Some(s.positions[k])
    else if k in s.committed then Some(s.committed[k])
    else if k in s.pending then Some(s.pending[k].offset)
    else None
  }

  ghost predicate NoRecordLost(log: Log, s: State) {
    forall k, o :: Owed(log, s, k, o) ==>
      InWave(s, k, o) || (NextFetch(s, k).Some? && NextFetch(s, k).value <= o)
  }

  /** No commit of this member has passed a due record it has fetched, or would fetch from here. */
  ghost predicate CommitsBehind(log: Log, s: State) {
    forall k, o :: Due(log, s, k, o) && ((k, o) in s.polled || (k in s.positions && s.positions[k] <= o)) ==>
      && (k in s.committed ==> s.committed[k] <= o)
      && (k in s.marked ==> s.marked[k] <= o)
  }

  // ------------------------------------------------------------------------
  // Invariants
  // ------------------------------------------------------------------------

  ghost predicate GroupOk(log: Log, cfg: Config, k: Partition, end: int, polled: set<(Partition, int)>, g: Group) {
    && FetchedFrom(log, k, FirstOffset(g.records), g.records)
    && end == LastOffset(g.records) + 1
    && g.settled <= |g.records|
    && (cfg.batch ==> g.settled == 0 || g.settled == |g.records|)
    && (!g.report.Nil? ==> Decided(g.report) && PlanOf(g.report) == PlanFor(Resume(cfg, g)))
    && OffsetsOf(k, g.records) <= polled
  }

  function FirstOffset(records: seq<Record>): int {
    if records == [] then 0 else records[0].position.offset
  }

  ghost predicate Shape(log: Log, cfg: Config, s: State) {
    && s.wave.Keys <= s.positions.Keys
    && s.marked.Keys <= s.positions.Keys
    && (!s.connected ==> s.positions == map[])
    && Keyed(s.pending)
    && (forall k :: k in s.wave ==> GroupOk(log, cfg, k, s.positions[k], s.polled, s.wave[k]))
  }

  /** Records owed on a held partition are in the wave or still ahead of the fetch position. */
  ghost predicate PositionsCover(log: Log, s: State) {
    forall k, o :: Owed(log, s, k, o) && !InWave(s, k, o) && k in s.positions ==> s.positions[k] <= o
  }

  /** A record owed outside the wave has a boundary that survives losing the partition. */
  predicate BoundaryKept(s: State, k: Partition, o: int) {
    k in s.committed || (k in s.pending && s.pending[k].offset <= o)
  }

  ghost predicate BoundariesCover(log: Log, s: State) {
    forall k, o :: Owed(log, s, k, o) && !InWave(s, k, o) ==> BoundaryKept(s, k, o)
  }

  /** What every mode keeps. */
  ghost predicate Base(log: Log, cfg: Config, s: State) {
    Shape(log, cfg, s) && PositionsCover(log, s) && CommitsBehind(log, s)
  }

  /** A fatal poll error keeps no position: it is neither transient nor decided. */
  predicate FatalPoll(e: Event) {
    e.Poll? && !e.err.Nil? && !IsTransient(e.err)
  }

  // ------------------------------------------------------------------------
  // Polls
  // ------------------------------------------------------------------------

  lemma ListedInOrder(log: Log, k: Partition, records: seq<Record>, o: int)
    requires FetchShape(log, k, records) && Listed(records, o)
    ensures records[0].position.offset <= o <= LastOffset(records)
    ensures (k, o) in OffsetsOf(k, records)
  {
    var i :| 0 <= i < |records| && records[i].position.offset == o;
    assert i == 0 || records[0].position.offset < records[i].position.offset;
    assert i == |records| - 1 || records[i].position.offset < records[|records| - 1].position.offset;
  }

  /** A due record at or after the old fetch position is returned by the poll, or stays ahead. */
  lemma ReturnedOrAhead(log: Log, cfg: Config, s: State, e: Event, k: Partition, o: int)
    requires Base(log, cfg, s) && Enabled(log, cfg, s, e) && e.Poll?
    requires Due(log, s, k, o) && k in s.positions && s.positions[k] <= o
    ensures Returned(s, e.fetched).positions[k] <= o || (k in e.fetched && Listed(e.fetched[k], o))
  {
  }

  lemma OwedAfterPoll(log: Log, cfg: Config, s: State, e: Event, k: Partition, o: int)
    requires Base(log, cfg, s) && Enabled(log, cfg, s, e) && e.Poll?
    requires Owed(log, Returned(s, e.fetched), k, o)
    ensures Owed(log, s, k, o) || (k in e.fetched && Listed(e.fetched[k], o))
    ensures k in s.positions ==> s.positions[k] <= o
    ensures k in s.positions ==>
      Returned(s, e.fetched).positions[k] <= o || (k in e.fetched && Listed(e.fetched[k], o))
  {
    if (k, o) in AllOffsets(e.fetched) {
      assert k in e.fetched && Listed(e.fetched[k], o);
      ListedInOrder(log, k, e.fetched[k], o);
    } else {
      assert Owed(log, s, k, o) && !InWave(s, k, o);
    }
    if k in s.positions {
      ReturnedOrAhead(log, cfg, s, e, k, o);
    }
  }

  lemma PollKeepsCommitsBehind(log: Log, cfg: Config, s: State, e: Event)
    requires Base(log, cfg, s) && Enabled(log, cfg, s, e) && e.Poll?
    ensures CommitsBehind(log, Returned(s, e.fetched))
  {
    var t := Returned(s, e.fetched);
    forall k, o | Due(log, t, k, o) && ((k, o) in t.polled || (k in t.positions && t.positions[k] <= o))
      ensures (k in t.committed ==> t.committed[k] <= o) && (k in t.marked ==> t.marked[k] <= o)
    {
      assert Due(log, s, k, o);
      if (k, o) in t.polled {
        assert Owed(log, t, k, o);
        OwedAfterPoll(log, cfg, s, e, k, o);
      } else if k in e.fetched {
        ListedInOrder(log, k, e.fetched[k], LastOffset(e.fetched[k]));
      }
    }
  }

  lemma FetchedIsInWave(log: Log, cfg: Config, s: State, e: Event, k: Partition, o: int)
    requires Enabled(log, cfg, s, e) && e.Poll? && e.err.Nil?
    requires k in e.fetched && Listed(e.fetched[k], o)
    ensures InWave(Apply(cfg, s, e), k, o)
  {
    assert Apply(cfg, s, e).wave[k].records == e.fetched[k];
  }

  lemma GoodPollKeepsBase(log: Log, cfg: Config, s: State, e: Event)
    requires Base(log, cfg, s) && Enabled(log, cfg, s, e) && e.Poll? && e.err.Nil?
    ensures Base(log, cfg, Apply(cfg, s, e))
    ensures BoundariesCover(log, s) ==> BoundariesCover(log, Apply(cfg, s, e))
  {
    var t, s' := Returned(s, e.fetched), Apply(cfg, s, e);
    PollKeepsCommitsBehind(log, cfg, s, e);
    PollKeepsShape(log, cfg, s, e);
    forall k, o | Owed(log, s', k, o) && !InWave(s', k, o)
      ensures k in s'.positions ==> s'.positions[k] <= o
      ensures Owed(log, s, k, o)
    {
      assert Owed(log, t, k, o);
      OwedAfterPoll(log, cfg, s, e, k, o);
      if k in e.fetched && Listed(e.fetched[k], o) {
        FetchedIsInWave(log, cfg, s, e, k, o);
      }
    }
    forall k, o | Due(log, s', k, o)
      ensures Due(log, t, k, o)
    {
    }
    if BoundariesCover(log, s) {
      forall k, o | Owed(log, s', k, o) && !InWave(s', k, o)
        ensures BoundaryKept(s', k, o)
      {
        assert Owed(log, s, k, o) && !InWave(s, k, o);
        assert BoundaryKept(s, k, o);
      }
    }
  }

  // ------------------------------------------------------------------------
  // Rewinds
  // ------------------------------------------------------------------------

  /** What makes a plan a complete rewind of state t: nothing owed lies below it, and what it
      puts ahead of the fetch position again has been polled before. */
  ghost predicate CompletePlan(log: Log, t: State, plan: Plan) {
    && Keyed(plan) && plan.Keys <= t.positions.Keys
    && (forall k :: k in plan ==> plan[k].offset <= t.positions[k])
    && (forall k, o :: Owed(log, t, k, o) && k in t.positions ==> Rewound(t.positions, plan)[k] <= o)
    && (forall k, o :: Due(log, t, k, o) && k in plan && plan[k].offset <= o ==>
      (k, o) in t.polled || t.positions[k] <= o)
  }

  lemma RewindKeepsBase(log: Log, cfg: Config, t: State, plan: Plan)
    requires t.wave == map[] && Shape(log, cfg, t) && CommitsBehind(log, t)
    requires CompletePlan(log, t, plan)
    ensures Base(log, cfg, t.(pending := Remember(t.pending, plan), positions := Rewound(t.positions, plan)))
  {
    var s' := t.(pending := Remember(t.pending, plan), positions := Rewound(t.positions, plan));
    forall k, o | Owed(log, s', k, o) && k in s'.positions
      ensures s'.positions[k] <= o
    {
      assert Owed(log, t, k, o);
    }
    forall k, o | Due(log, s', k, o) && ((k, o) in s'.polled || (k in s'.positions && s'.positions[k] <= o))
      ensures (k in s'.committed ==> s'.committed[k] <= o) && (k in s'.marked ==> s'.marked[k] <= o)
    {
      assert Due(log, t, k, o);
    }
  }

  lemma RewindKeepsBoundaries(log: Log, t: State, plan: Plan)
    requires t.wave == map[]
    requires forall k, o :: Owed(log, t, k, o) ==> BoundaryKept(t, k, o) || (k in plan && plan[k].offset <= o)
    ensures BoundariesCover(log, t.(pending := Remember(t.pending, plan), positions := Rewound(t.positions, plan)))
  {
    var s' := t.(pending := Remember(t.pending, plan), positions := Rewound(t.positions, plan));
    forall k, o | Owed(log, s', k, o)
      ensures BoundaryKept(s', k, o)
    {
      assert Owed(log, t, k, o);
    }
  }

  /** The plan of a poll error that came with records is the first record of each partition. */
  lemma ListingPlan(log: Log, fetched: map<Partition, seq<Record>>, listing: seq<Position>)
    requires forall k :: k in fetched ==> FetchShape(log, k, fetched[k])
    requires Lists(listing, fetched)
    ensures var plan := Collect(map[], listing);
      && Keyed(plan) && plan.Keys == fetched.Keys
      && forall k :: k in fetched ==> plan[k].offset == FirstOffset(fetched[k])
  {
    CollectIsMinimumOf(listing);
    forall k | k in fetched
      ensures k in Collect(map[], listing) && Collect(map[], listing)[k].offset == FirstOffset(fetched[k])
    {
      ListingPlanAt(log, fetched, listing, k);
    }
  }

  lemma ListingPlanAt(log: Log, fetched: map<Partition, seq<Record>>, listing: seq<Position>, k: Partition)
    requires k in fetched && FetchShape(log, k, fetched[k]) && Lists(listing, fetched)
    ensures k in Collect(map[], listing) && Collect(map[], listing)[k].offset == FirstOffset(fetched[k])
  {
    var plan := Collect(map[], listing);
    CollectIsMinimumOf(listing);
    var first := fetched[k][0].position;
    assert first in listing && first.Key() == k;
    assert plan[k] in listing;
    assert Listed(fetched[k], plan[k].offset);
    ListedInOrder(log, k, fetched[k], plan[k].offset);
  }

  lemma ListingCovers(log: Log, cfg: Config, s: State, e: Event, plan: Plan, k: Partition, o: int)
    requires Base(log, cfg, s) && Enabled(log, cfg, s, e) && e.Poll?
    requires plan.Keys == e.fetched.Keys
    requires forall j :: j in e.fetched ==> plan[j].offset == FirstOffset(e.fetched[j])
    requires Owed(log, Returned(s, e.fetched), k, o)
    ensures k in s.positions ==> Rewound(Returned(s, e.fetched).positions, plan)[k] <= o
    ensures Owed(log, s, k, o) || (k in plan && plan[k].offset <= o)
  {
    OwedAfterPoll(log, cfg, s, e, k, o);
    if k in e.fetched {
      assert Listed(e.fetched[k], FirstOffset(e.fetched[k]));
      ListedInOrder(log, k, e.fetched[k], FirstOffset(e.fetched[k]));
      if Listed(e.fetched[k], o) {
        ListedInOrder(log, k, e.fetched[k], o);
      }
    }
  }

  lemma ListingReadsNothingNew(log: Log, cfg: Config, s: State, e: Event, k: Partition, o: int)
    requires Base(log, cfg, s) && Enabled(log, cfg, s, e) && e.Poll?
    requires k in e.fetched && FirstOffset(e.fetched[k]) <= o && Due(log, s, k, o)
    ensures FirstOffset(e.fetched[k]) <= LastOffset(e.fetched[k])
    ensures (k, o) in AllOffsets(e.fetched) || LastOffset(e.fetched[k]) + 1 <= o
  {
    assert Listed(e.fetched[k], FirstOffset(e.fetched[k]));
    ListedInOrder(log, k, e.fetched[k], FirstOffset(e.fetched[k]));
    if o <= LastOffset(e.fetched[k]) {
      assert Listed(e.fetched[k], o);
    }
  }

  lemma ListingPlanIsComplete(log: Log, cfg: Config, s: State, e: Event)
    requires Base(log, cfg, s) && Enabled(log, cfg, s, e) && e.Poll?
    ensures CompletePlan(log, Returned(s, e.fetched), Collect(map[], e.listing))
    ensures forall k, o :: Owed(log, Returned(s, e.fetched), k, o) ==>
      Owed(log, s, k, o) || (k in Collect(map[], e.listing) && Collect(map[], e.listing)[k].offset <= o)
  {
    var t := Returned(s, e.fetched);
    ListingPlan(log, e.fetched, e.listing);
    var plan := Collect(map[], e.listing);
    forall k, o | Owed(log, t, k, o)
      ensures k in t.positions ==> Rewound(t.positions, plan)[k] <= o
      ensures Owed(log, s, k, o) || (k in plan && plan[k].offset <= o)
    {
      ListingCovers(log, cfg, s, e, plan, k, o);
    }
    forall k, o | Due(log, t, k, o) && k in plan && plan[k].offset <= o
      ensures (k, o) in t.polled || t.positions[k] <= o
    {
      ListingReadsNothingNew(log, cfg, s, e, k, o);
    }
    FirstBelowLast(log, e.fetched);
  }

  lemma FirstBelowLast(log: Log, fetched: map<Partition, seq<Record>>)
    requires forall k :: k in fetched ==> FetchShape(log, k, fetched[k])
    ensures forall k :: k in fetched && fetched[k] != [] ==> FirstOffset(fetched[k]) <= LastOffset(fetched[k])
  {
    forall k | k in fetched && fetched[k] != []
      ensures FirstOffset(fetched[k]) <= LastOffset(fetched[k])
    {
      assert Listed(fetched[k], FirstOffset(fetched[k]));
      ListedInOrder(log, k, fetched[k], FirstOffset(fetched[k]));
    }
  }

  lemma RetryRewinds(t: State, err: Error, flushed: set<Partition>)
    requires Decided(err) && PlanOf(err) != map[]
    ensures Retry(t, err, flushed) == t.(pending := Remember(t.pending, PlanOf(err)),
      positions := Rewound(t.positions, PlanOf(err)))
  {
  }

  lemma PlanOfListing(log: Log, fetched: map<Partition, seq<Record>>, listing: seq<Position>, err: Error)
    requires forall k :: k in fetched ==> FetchShape(log, k, fetched[k])
    requires Lists(listing, fetched) && fetched != map[]
    ensures PlanOf(PollRewind(err, listing)) == Collect(map[], listing) != map[]
  {
    var k :| k in fetched;
    ListingPlan(log, fetched, listing);
    assert k in Collect(map[], listing);
  }

  lemma TransientPollIsRewind(log: Log, cfg: Config, s: State, e: Event)
    requires Enabled(log, cfg, s, e) && e.Poll? && IsTransient(e.err) && e.fetched != map[]
    ensures var t, plan := Returned(s, e.fetched), Collect(map[], e.listing);
      Apply(cfg, s, e) == t.(pending := Remember(t.pending, plan), positions := Rewound(t.positions, plan))
  {
    PlanOfListing(log, e.fetched, e.listing, e.err);
    RetryRewinds(Returned(s, e.fetched), PollRewind(e.err, e.listing), e.flushed);
    assert !e.err.Nil?;
  }

  lemma TransientPollKeepsBase(log: Log, cfg: Config, s: State, e: Event)
    requires Base(log, cfg, s) && Enabled(log, cfg, s, e) && e.Poll? && IsTransient(e.err) && e.fetched != map[]
    ensures Base(log, cfg, Apply(cfg, s, e))
    ensures BoundariesCover(log, s) ==> BoundariesCover(log, Apply(cfg, s, e))
  {
    var t, plan := Returned(s, e.fetched), Collect(map[], e.listing);
    PollKeepsCommitsBehind(log, cfg, s, e);
    TransientPollIsRewind(log, cfg, s, e);
    ListingPlanIsComplete(log, cfg, s, e);
    RewindKeepsBase(log, cfg, t, plan);
    if BoundariesCover(log, s) {
      forall k, o | Owed(log, t, k, o)
        ensures BoundaryKept(t, k, o) || (k in plan && plan[k].offset <= o)
      {
        if Owed(log, s, k, o) {
          assert !InWave(s, k, o);
          assert BoundaryKept(s, k, o);
        }
      }
      RewindKeepsBoundaries(log, t, plan);
    }
  }

  /** A transient poll error without records replaces the client: every position is given up. */
  lemma DroppedClientKeepsBase(log: Log, cfg: Config, s: State, flushed: set<Partition>)
    requires Base(log, cfg, s) && s.wave == map[]
    ensures Base(log, cfg, DropClient(s, flushed))
    ensures BoundariesCover(log, s) ==> BoundariesCover(log, DropClient(s, flushed))
  {
    var s' := DropClient(s, flushed);
    forall k, o | Due(log, s', k, o) && (k, o) in s'.polled
      ensures k in s'.committed ==> s'.committed[k] <= o
    {
      assert Due(log, s, k, o);
    }
    if BoundariesCover(log, s) {
      forall k, o | Owed(log, s', k, o)
        ensures BoundaryKept(s', k, o)
      {
        assert Owed(log, s, k, o) && !InWave(s, k, o);
        assert BoundaryKept(s, k, o);
      }
    }
  }

  // ------------------------------------------------------------------------
  // Workers
  // ------------------------------------------------------------------------

  lemma {:induction false} VisibleFirst(group: seq<Record>, i: nat)
    requires i < |group| && !group[i].control
    ensures Visible(group) != []
    ensures exists j :: 0 <= j <= i && !group[j].control && group[j].position == Visible(group)[0]
  {
    var n := |group| - 1;
    if i < n {
      VisibleFirst(group[..n], i);
      var j :| 0 <= j <= i && !group[..n][j].control && group[..n][j].position == Visible(group[..n])[0];
      assert group[j].position == Visible(group)[0];
    } else if Visible(group[..n]) != [] {
      VisibleIsMember(group[..n]);
      var j :| 0 <= j < n && !group[..n][j].control && group[..n][j].position == Visible(group[..n])[0];
      assert group[j].position == Visible(group)[0];
    } else {
      assert Visible(group) == [group[n].position];
    }
  }

  lemma {:induction false} VisibleIsMember(group: seq<Record>)
    requires Visible(group) != []
    ensures exists j :: 0 <= j < |group| && !group[j].control && group[j].position == Visible(group)[0]
  {
    var n := |group| - 1;
    if Visible(group[..n]) != [] {
      VisibleIsMember(group[..n]);
      var j :| 0 <= j < n && !group[..n][j].control && group[..n][j].position == Visible(group[..n])[0];
      assert group[j].position == Visible(group)[0];
    } else {
      assert group[n].position == Visible(group)[0];
    }
  }

  /** The resume position of a group is one of its records, at or below every record it still owes. */
  lemma ResumeIsMember(cfg: Config, g: Group) returns (at: nat)
    requires g.records != [] && g.settled <= |g.records| && Resume(cfg, g).Some?
    ensures at < |g.records| && g.records[at].position == Resume(cfg, g).value
  {
    if cfg.batch {
      if Visible(g.records) == [] {
        at := |g.records| - 1;
      } else {
        VisibleIsMember(g.records);
        at :| 0 <= at < |g.records| && !g.records[at].control && g.records[at].position == Visible(g.records)[0];
      }
    } else {
      at := g.settled;
    }
  }

  lemma ResumeCovers(log: Log, cfg: Config, s: State, k: Partition)
    requires Shape(log, cfg, s) && k in s.wave && Resume(cfg, s.wave[k]).Some?
    ensures Resume(cfg, s.wave[k]).value.Key() == k
    ensures FirstOffset(s.wave[k].records) <= Resume(cfg, s.wave[k]).value.offset < s.positions[k]
    ensures forall o :: InWave(s, k, o) && Owed(log, s, k, o) ==> Resume(cfg, s.wave[k]).value.offset <= o
  {
    var g := s.wave[k];
    var p := Resume(cfg, g).value;
    assert GroupOk(log, cfg, k, s.positions[k], s.polled, g);
    var at := ResumeIsMember(cfg, g);
    assert g.records[at].position == p;
    assert Listed(g.records, p.offset);
    ListedInOrder(log, k, g.records, p.offset);
    forall o | InWave(s, k, o) && Owed(log, s, k, o)
      ensures p.offset <= o
    {
      ResumeIsFirst(log, cfg, s, k, o);
    }
  }

  lemma ResumeIsFirst(log: Log, cfg: Config, s: State, k: Partition, o: int)
    requires Shape(log, cfg, s) && k in s.wave && Resume(cfg, s.wave[k]).Some? && InWave(s, k, o) && Owed(log, s, k, o)
    ensures Resume(cfg, s.wave[k]).value.offset <= o
  {
    var g := s.wave[k];
    var i :| g.settled <= i < |g.records| && g.records[i].position.offset == o;
    if cfg.batch {
      BatchResumesFirst(log, cfg, k, s.positions[k], s.polled, g, i);
    } else {
      MessageResumesFirst(log, cfg, k, s.positions[k], s.polled, g, i);
    }
  }

  lemma MessageResumesFirst(log: Log, cfg: Config, k: Partition, end: int, polled: set<(Partition, int)>, g: Group,
        i: nat)
    requires GroupOk(log, cfg, k, end, polled, g) && !cfg.batch && g.settled <= i < |g.records|
    ensures Resume(cfg, g).Some? && Resume(cfg, g).value.offset <= g.records[i].position.offset
  {
  }

  lemma BatchResumesFirst(log: Log, cfg: Config, k: Partition, end: int, polled: set<(Partition, int)>, g: Group,
        i: nat)
    requires GroupOk(log, cfg, k, end, polled, g) && cfg.batch && g.settled <= i < |g.records| && Resume(cfg, g).Some?
    requires log(k, g.records[i].position.offset) == Data
    ensures Resume(cfg, g).value.offset <= g.records[i].position.offset
  {
    VisibleFirst(g.records, i);
  }

  lemma UnitPlan(cfg: Config, g: Group, o: Outcome)
    requires g.settled < |g.records| && (cfg.batch ==> g.settled == 0)
    requires Possible(cfg.commitBefore, UnitControl(cfg, g), o) && !o.Completes?
    ensures var report := UnitReport(cfg, g, o);
      var settled := if Settles(cfg.commitBefore, o) then g.settled + |Unit(cfg, g)| else g.settled;
      var g' := Group(g.records, settled, report);
      !report.Nil? && Decided(report) && PlanOf(report) == PlanFor(Resume(cfg, g'))
  {
    if cfg.batch {
      BatchReportPlansWholeBatch(cfg.commitBefore, UnitControl(cfg, g), BatchStart(g.records), o);
    } else {
      ReportPlansFirstUnsettled(cfg.commitBefore, UnitControl(cfg, g), g.records[g.settled].position,
        PositionAt(g.records, g.settled + 1), o);
    }
  }

  lemma ReportMatchesResume(log: Log, cfg: Config, s: State, e: Event)
    requires Shape(log, cfg, s) && Enabled(log, cfg, s, e) && e.Work?
    ensures GroupOk(log, cfg, e.k, s.positions[e.k], s.polled, Apply(cfg, s, e).wave[e.k])
  {
    var g := s.wave[e.k];
    assert GroupOk(log, cfg, e.k, s.positions[e.k], s.polled, g);
    GroupAdvances(log, cfg, e.k, s.positions[e.k], s.polled, g, e.o);
  }

  lemma GroupAdvances(log: Log, cfg: Config, k: Partition, end: int, polled: set<(Partition, int)>, g: Group,
        o: Outcome)
    requires GroupOk(log, cfg, k, end, polled, g) && g.settled < |g.records|
    requires Possible(cfg.commitBefore, UnitControl(cfg, g), o)
    ensures var settled := if Settles(cfg.commitBefore, o) then g.settled + |Unit(cfg, g)| else g.settled;
      GroupOk(log, cfg, k, end, polled, Group(g.records, settled, UnitReport(cfg, g, o)))
  {
    if o.Completes? {
      assert UnitReport(cfg, g, o).Nil?;
    } else {
      UnitPlan(cfg, g, o);
    }
  }

  lemma CoveredByUnit(cfg: Config, g: Group, k: Partition, i: nat)
    requires g.settled <= i < |g.records| && (cfg.batch ==> g.settled == 0)
    requires i < g.settled + |Unit(cfg, g)|
    ensures (k, g.records[i].position.offset) in OffsetsOf(k, Unit(cfg, g))
  {
    assert Unit(cfg, g)[i - g.settled] == g.records[i];
  }

  /** After a write for a unit, everything still due that is fetched or ahead lies past it. */
  lemma PastTheUnit(log: Log, cfg: Config, s: State, e: Event, o: int)
    requires Base(log, cfg, s) && Enabled(log, cfg, s, e) && e.Work? && Writes(cfg, e.o, e.applied)
    requires Due(log, Apply(cfg, s, e), e.k, o) && ((e.k, o) in s.polled || s.positions[e.k] <= o)
    ensures var unit := Unit(cfg, s.wave[e.k]); LastOffset(unit) < o
  {
    if InWave(s, e.k, o) {
      WaveRecordPastUnit(log, cfg, s, e.k, o, Apply(cfg, s, e).settled);
    } else {
      if (e.k, o) in s.polled {
        assert Owed(log, s, e.k, o);
      }
      UnitWithinGroup(log, cfg, s, e.k);
    }
  }

  lemma WaveRecordPastUnit(log: Log, cfg: Config, s: State, k: Partition, o: int, settled: set<(Partition, int)>)
    requires Base(log, cfg, s) && InWave(s, k, o) && s.wave[k].settled < |s.wave[k].records|
    requires OffsetsOf(k, Unit(cfg, s.wave[k])) <= settled && (k, o) !in settled
    ensures LastOffset(Unit(cfg, s.wave[k])) < o
  {
    var g := s.wave[k];
    var unit := Unit(cfg, g);
    var i :| g.settled <= i < |g.records| && g.records[i].position.offset == o;
    if i < g.settled + |unit| {
      CoveredByUnit(cfg, g, k, i);
    }
  }

  lemma UnitWithinGroup(log: Log, cfg: Config, s: State, k: Partition)
    requires Base(log, cfg, s) && k in s.wave && s.wave[k].settled < |s.wave[k].records|
    ensures LastOffset(Unit(cfg, s.wave[k])) <= LastOffset(s.wave[k].records) < s.positions[k]
  {
  }

  lemma WorkKeepsCommitsBehind(log: Log, cfg: Config, s: State, e: Event)
    requires Base(log, cfg, s) && Enabled(log, cfg, s, e) && e.Work?
    ensures CommitsBehind(log, Apply(cfg, s, e))
  {
    var s' := Apply(cfg, s, e);
    forall k, o | Due(log, s', k, o) && ((k, o) in s'.polled || (k in s'.positions && s'.positions[k] <= o))
      ensures (k in s'.committed ==> s'.committed[k] <= o) && (k in s'.marked ==> s'.marked[k] <= o)
    {
      assert Due(log, s, k, o);
      if k == e.k && Writes(cfg, e.o, e.applied) {
        PastTheUnit(log, cfg, s, e, o);
      }
    }
  }

  lemma WorkKeepsBase(log: Log, cfg: Config, s: State, e: Event)
    requires Base(log, cfg, s) && Enabled(log, cfg, s, e) && e.Work?
    ensures Base(log, cfg, Apply(cfg, s, e))
  {
    WorkKeepsShape(log, cfg, s, e);
    WorkLeavesOwedCovered(log, cfg, s, e);
    WorkKeepsCommitsBehind(log, cfg, s, e);
  }

  /** A record of the wave that is still due after a worker step is still in the wave. */
  lemma StillInWave(log: Log, cfg: Config, s: State, e: Event, k: Partition, o: int)
    requires Base(log, cfg, s) && Enabled(log, cfg, s, e) && e.Work?
    requires InWave(s, k, o) && Due(log, Apply(cfg, s, e), k, o)
    ensures InWave(Apply(cfg, s, e), k, o)
  {
    var s', g := Apply(cfg, s, e), s.wave[k];
    var i :| g.settled <= i < |g.records| && g.records[i].position.offset == o;
    if k == e.k && i < s'.wave[k].settled {
      CoveredByUnit(cfg, g, k, i);
    }
  }

  lemma WorkLeavesOwedCovered(log: Log, cfg: Config, s: State, e: Event)
    requires Base(log, cfg, s) && Enabled(log, cfg, s, e) && e.Work?
    ensures var s' := Apply(cfg, s, e);
      forall k, o :: Owed(log, s', k, o) && !InWave(s', k, o) ==> Owed(log, s, k, o) && !InWave(s, k, o)
    ensures PositionsCover(log, Apply(cfg, s, e))
  {
    var s' := Apply(cfg, s, e);
    forall k, o | Owed(log, s', k, o) && !InWave(s', k, o)
      ensures Owed(log, s, k, o) && !InWave(s, k, o)
    {
      if InWave(s, k, o) {
        StillInWave(log, cfg, s, e, k, o);
      }
    }
  }

  lemma WorkKeepsBoundaries(log: Log, cfg: Config, s: State, e: Event)
    requires Base(log, cfg, s) && Enabled(log, cfg, s, e) && e.Work?
    requires BoundariesCover(log, s) && !cfg.marks
    ensures BoundariesCover(log, Apply(cfg, s, e))
  {
    var s' := Apply(cfg, s, e);
    WorkLeavesOwedCovered(log, cfg, s, e);
    forall k, o | Owed(log, s', k, o) && !InWave(s', k, o)
      ensures BoundaryKept(s', k, o)
    {
      assert BoundaryKept(s, k, o);
      if k != e.k {
        var g := s.wave[e.k];
        var unit := Unit(cfg, g);
        assert unit[|unit| - 1].position.Key() == e.k;
      }
    }
  }

  // ------------------------------------------------------------------------
  // The end of a wave
  // ------------------------------------------------------------------------

  /** The plan of a failed wave: one boundary per failed group that has records left, and it is
      that group's resume position. */
  lemma WavePlan(log: Log, cfg: Config, s: State, order: seq<Partition>)
    requires Shape(log, cfg, s)
    requires forall k :: k in order <==> k in s.wave && !s.wave[k].report.Nil?
    ensures var plan := PlanOf(Joined(Reports(s.wave, order)));
      && Keyed(plan)
      && (forall k :: k in plan <==> k in s.wave && !s.wave[k].report.Nil? && Resume(cfg, s.wave[k]).Some?)
      && (forall k :: k in plan ==> plan[k].offset == Resume(cfg, s.wave[k]).value.offset)
  {
    var reports := Reports(s.wave, order);
    var plan := PlanOf(Joined(reports));
    PlanIsPointwiseMinimum(Joined(reports));
    forall p | p in Outermost(Joined(reports))
      ensures FromGroup(cfg, s, p)
    {
      OutermostOfAllMembers(reports, p);
      var c :| c in reports && p in Outermost(c);
      var i :| 0 <= i < |reports| && reports[i] == c;
      assert order[i] in order;
      ReportPositions(log, cfg, s, order[i], p);
    }
    forall k | k in s.wave && !s.wave[k].report.Nil? && Resume(cfg, s.wave[k]).Some?
      ensures k in plan && plan[k].offset <= Resume(cfg, s.wave[k]).value.offset
    {
      ResumeIsPlanned(log, cfg, s, order, k);
    }
    forall k | k in plan
      ensures FromGroup(cfg, s, plan[k])
    {
    }
  }

  lemma ResumeIsPlanned(log: Log, cfg: Config, s: State, order: seq<Partition>, k: Partition)
    requires Shape(log, cfg, s)
    requires forall k :: k in order <==> k in s.wave && !s.wave[k].report.Nil?
    requires k in s.wave && !s.wave[k].report.Nil? && Resume(cfg, s.wave[k]).Some?
    ensures var plan := PlanOf(Joined(Reports(s.wave, order)));
      k in plan && plan[k].offset <= Resume(cfg, s.wave[k]).value.offset
  {
    var reports := Reports(s.wave, order);
    var p := Resume(cfg, s.wave[k]).value;
    ResumeCovers(log, cfg, s, k);
    ResumeIsReported(log, cfg, s, k);
    var i :| 0 <= i < |order| && order[i] == k;
    assert reports[i] in reports;
    OutermostOfAllMembers(reports, p);
    PlanIsPointwiseMinimum(Joined(reports));
  }

  predicate FromGroup(cfg: Config, s: State, p: Position) {
    var k := p.Key();
    k in s.wave && s.wave[k].records != [] && !s.wave[k].report.Nil?
    && Resume(cfg, s.wave[k]).Some? && Resume(cfg, s.wave[k]).value.offset <= p.offset
  }

  lemma ReportPositions(log: Log, cfg: Config, s: State, k: Partition, p: Position)
    requires Shape(log, cfg, s) && k in s.wave && !s.wave[k].report.Nil?
    requires p in Outermost(s.wave[k].report)
    ensures FromGroup(cfg, s, p)
  {
    PlanIsPointwiseMinimum(s.wave[k].report);
    assert GroupOk(log, cfg, k, s.positions[k], s.polled, s.wave[k]);
    assert p.Key() in PlanOf(s.wave[k].report);
    ResumeCovers(log, cfg, s, k);
  }

  lemma ResumeIsReported(log: Log, cfg: Config, s: State, k: Partition)
    requires Shape(log, cfg, s) && k in s.wave && !s.wave[k].report.Nil? && Resume(cfg, s.wave[k]).Some?
    ensures Resume(cfg, s.wave[k]).value in Outermost(s.wave[k].report)
  {
    PlanIsPointwiseMinimum(s.wave[k].report);
    assert GroupOk(log, cfg, k, s.positions[k], s.polled, s.wave[k]);
    var p := Resume(cfg, s.wave[k]).value;
    assert p.Key() in PlanOf(s.wave[k].report);
  }

  lemma WavePlanIsComplete(log: Log, cfg: Config, s: State, e: Event)
    requires Base(log, cfg, s) && Enabled(log, cfg, s, e) && e.EndWave?
    ensures CompletePlan(log, s.(wave := map[]), PlanOf(Joined(Reports(s.wave, e.order))))
    ensures forall k, o :: Owed(log, s, k, o) && InWave(s, k, o) ==>
      var plan := PlanOf(Joined(Reports(s.wave, e.order))); k in plan && plan[k].offset <= o
  {
    var t, plan := s.(wave := map[]), PlanOf(Joined(Reports(s.wave, e.order)));
    WavePlan(log, cfg, s, e.order);
    forall k | k in plan
      ensures plan[k].offset <= t.positions[k]
    {
      ResumeCovers(log, cfg, s, k);
    }
    forall k, o | Owed(log, s, k, o) && InWave(s, k, o)
      ensures k in plan && plan[k].offset <= o
    {
      LeftoverIsPlanned(log, cfg, s, k, o);
      ResumeCovers(log, cfg, s, k);
    }
    forall k, o | Owed(log, t, k, o) && k in t.positions
      ensures Rewound(t.positions, plan)[k] <= o
    {
      assert Owed(log, s, k, o);
      if !InWave(s, k, o) && k in plan {
        ResumeCovers(log, cfg, s, k);
      }
    }
    forall k, o | Due(log, t, k, o) && k in plan && plan[k].offset <= o
      ensures (k, o) in t.polled || t.positions[k] <= o
    {
      ResumeCovers(log, cfg, s, k);
      WavePolled(log, cfg, s, k, o);
    }
  }

  /** Records left in a finished group mean that its worker failed and planned them. */
  lemma LeftoverIsPlanned(log: Log, cfg: Config, s: State, k: Partition, o: int)
    requires Shape(log, cfg, s) && InWave(s, k, o) && Finished(s.wave[k])
    ensures !s.wave[k].report.Nil? && Resume(cfg, s.wave[k]).Some?
  {
  }

  lemma WavePolled(log: Log, cfg: Config, s: State, k: Partition, o: int)
    requires Shape(log, cfg, s) && k in s.wave && Due(log, s, k, o)
    requires FirstOffset(s.wave[k].records) <= o
    ensures (k, o) in s.polled || s.positions[k] <= o
  {
    var g := s.wave[k];
    assert GroupOk(log, cfg, k, s.positions[k], s.polled, g);
    if o <= LastOffset(g.records) {
      assert Listed(g.records, o);
      ListedInOrder(log, k, g.records, o);
    }
  }

  lemma EndWaveKeepsBase(log: Log, cfg: Config, s: State, e: Event)
    requires Base(log, cfg, s) && Enabled(log, cfg, s, e) && e.EndWave?
    ensures Base(log, cfg, Apply(cfg, s, e))
    ensures BoundariesCover(log, s) ==> BoundariesCover(log, Apply(cfg, s, e))
  {
    var t, plan := s.(wave := map[]), PlanOf(Joined(Reports(s.wave, e.order)));
    WavePlan(log, cfg, s, e.order);
    WavePlanIsComplete(log, cfg, s, e);
    forall k, o | Due(log, t, k, o)
      ensures Due(log, s, k, o)
    {
    }
    assert CommitsBehind(log, t) && Shape(log, cfg, t);
    EndWaveIsRewind(log, cfg, s, e);
    RewindKeepsBase(log, cfg, t, plan);
    if BoundariesCover(log, s) {
      forall k, o | Owed(log, t, k, o)
        ensures BoundaryKept(t, k, o) || (k in plan && plan[k].offset <= o)
      {
        assert Owed(log, s, k, o);
        if !InWave(s, k, o) {
          assert BoundaryKept(s, k, o);
        }
      }
      RewindKeepsBoundaries(log, t, plan);
    }
  }

  lemma RetryDecided(t: State, err: Error, flushed: set<Partition>)
    requires Decided(err)
    ensures Retry(t, err, flushed) == t.(pending := Remember(t.pending, PlanOf(err)),
      positions := Rewound(t.positions, PlanOf(err)))
  {
    EmptyRewind(t);
  }

  lemma WaveIsDecided(log: Log, cfg: Config, s: State, order: seq<Partition>)
    requires Shape(log, cfg, s) && order != []
    requires forall k :: k in order ==> k in s.wave && !s.wave[k].report.Nil?
    ensures Decided(Joined(Reports(s.wave, order)))
  {
    assert order[0] in order;
    assert GroupOk(log, cfg, order[0], s.positions[order[0]], s.polled, s.wave[order[0]]);
    assert Decided(Reports(s.wave, order)[0]);
  }

  /** Ending a wave always amounts to a rewind by the wave's plan, possibly an empty one. */
  lemma EndWaveIsRewind(log: Log, cfg: Config, s: State, e: Event)
    requires Shape(log, cfg, s) && Enabled(log, cfg, s, e) && e.EndWave?
    ensures var t, plan := s.(wave := map[]), PlanOf(Joined(Reports(s.wave, e.order)));
      Apply(cfg, s, e) == t.(pending := Remember(t.pending, plan), positions := Rewound(t.positions, plan))
  {
    var t := s.(wave := map[]);
    EmptyRewind(t);
    if e.order == [] {
      NoReportsNoPlan(s.wave);
    } else {
      WaveIsDecided(log, cfg, s, e.order);
      RetryDecided(t, Joined(Reports(s.wave, e.order)), e.flushed);
    }
  }

  lemma NoReportsNoPlan(wave: map<Partition, Group>)
    ensures PlanOf(Joined(Reports(wave, []))) == map[]
  {
    assert Reports(wave, []) == [];
  }

  lemma EmptyRewind(t: State)
    ensures Remember(t.pending, map[]) == t.pending && Rewound(t.positions, map[]) == t.positions
  {
  }

  // ------------------------------------------------------------------------
  // Rebalances and the coordinator
  // ------------------------------------------------------------------------

  predicate Coordination(e: Event) {
    e.Flush? || e.Revoke? || e.Lose? || e.Evict? || e.OtherCommit? || e.Assign? || e.Rebuild?
  }

  /** These steps hand nothing to a worker, and only another member's commit can end an obligation. */
  lemma CoordinationOwes(log: Log, cfg: Config, s: State, e: Event, k: Partition, o: int)
    requires Shape(log, cfg, s) && Enabled(log, cfg, s, e) && Coordination(e)
    requires Due(log, Apply(cfg, s, e), k, o)
    ensures Due(log, s, k, o)
    ensures Apply(cfg, s, e).polled == s.polled && Apply(cfg, s, e).wave == s.wave
    ensures InWave(Apply(cfg, s, e), k, o) == InWave(s, k, o)
  {
  }

  lemma CoordinationKeepsShape(log: Log, cfg: Config, s: State, e: Event)
    requires Shape(log, cfg, s) && Enabled(log, cfg, s, e) && Coordination(e)
    ensures Shape(log, cfg, Apply(cfg, s, e))
  {
    var s' := Apply(cfg, s, e);
    forall k | k in s'.wave
      ensures k in s'.positions && GroupOk(log, cfg, k, s'.positions[k], s'.polled, s'.wave[k])
    {
      assert k in s.wave && GroupOk(log, cfg, k, s.positions[k], s.polled, s.wave[k]);
    }
  }

  lemma CoordinationKeepsCommitsBehind(log: Log, cfg: Config, s: State, e: Event)
    requires Base(log, cfg, s) && Enabled(log, cfg, s, e) && Coordination(e)
    ensures CommitsBehind(log, Apply(cfg, s, e))
  {
    var s' := Apply(cfg, s, e);
    forall k, o | Due(log, s', k, o) && ((k, o) in s'.polled || (k in s'.positions && s'.positions[k] <= o))
      ensures (k in s'.committed ==> s'.committed[k] <= o) && (k in s'.marked ==> s'.marked[k] <= o)
    {
      CoordinationOwes(log, cfg, s, e, k, o);
    }
  }

  lemma CoordinationKeepsBoundaries(log: Log, cfg: Config, s: State, e: Event)
    requires Base(log, cfg, s) && Enabled(log, cfg, s, e) && Coordination(e)
    requires BoundariesCover(log, s)
    ensures BoundariesCover(log, Apply(cfg, s, e))
  {
    var s' := Apply(cfg, s, e);
    forall k, o | Owed(log, s', k, o) && !InWave(s', k, o)
      ensures BoundaryKept(s', k, o)
    {
      CoordinationOwes(log, cfg, s, e, k, o);
      assert BoundaryKept(s, k, o);
    }
  }

  /** After an assignment the fetch position is at or below every owed record, provided each has
      a boundary; the other steps never raise a position. */
  lemma CoordinationKeepsPositions(log: Log, cfg: Config, s: State, e: Event)
    requires Base(log, cfg, s) && Enabled(log, cfg, s, e) && Coordination(e)
    requires e.Assign? ==> forall k, o :: Owed(log, s, k, o) && k in e.resets ==> BoundaryKept(s, k, o)
    ensures PositionsCover(log, Apply(cfg, s, e))
  {
    var s' := Apply(cfg, s, e);
    forall k, o | Owed(log, s', k, o) && !InWave(s', k, o) && k in s'.positions
      ensures s'.positions[k] <= o
    {
      CoordinationOwes(log, cfg, s, e, k, o);
      assert Owed(log, s, k, o);
      if e.Assign? && k in e.resets {
        assert BoundaryKept(s, k, o);
      }
    }
  }

  /** The bookkeeping is well-formed after every step, fatal polls included. */
  lemma StepKeepsShape(log: Log, cfg: Config, s: State, e: Event)
    requires Shape(log, cfg, s) && Enabled(log, cfg, s, e)
    ensures Shape(log, cfg, Apply(cfg, s, e))
  {
    match e
    case Poll(_, _, _, _) => PollKeepsShape(log, cfg, s, e);
    case Work(_, _, _) => WorkKeepsShape(log, cfg, s, e);
    case EndWave(_, _) =>
      EndWaveIsRewind(log, cfg, s, e);
      WavePlan(log, cfg, s, e.order);
      RewindKeepsShape(log, cfg, s.(wave := map[]), PlanOf(Joined(Reports(s.wave, e.order))));
    case _ => CoordinationKeepsShape(log, cfg, s, e);
  }

  lemma PollKeepsShape(log: Log, cfg: Config, s: State, e: Event)
    requires Shape(log, cfg, s) && Enabled(log, cfg, s, e) && e.Poll?
    ensures Shape(log, cfg, Apply(cfg, s, e))
  {
    if e.err.Nil? {
      GoodPollKeepsShape(log, cfg, s, e);
    } else if IsTransient(e.err) && e.fetched != map[] {
      TransientPollIsRewind(log, cfg, s, e);
      ListingPlan(log, e.fetched, e.listing);
      RewindKeepsShape(log, cfg, Returned(s, e.fetched), Collect(map[], e.listing));
    } else if IsTransient(e.err) {
      EmptyTransientPollDrops(log, cfg, s, e);
    }
  }

  lemma GoodPollKeepsShape(log: Log, cfg: Config, s: State, e: Event)
    requires Shape(log, cfg, s) && Enabled(log, cfg, s, e) && e.Poll? && e.err.Nil?
    ensures Shape(log, cfg, Apply(cfg, s, e))
  {
    var s' := Apply(cfg, s, e);
    forall k | k in s'.wave
      ensures GroupOk(log, cfg, k, s'.positions[k], s'.polled, s'.wave[k])
    {
      assert OffsetsOf(k, e.fetched[k]) <= AllOffsets(e.fetched);
    }
  }

  lemma RewindKeepsShape(log: Log, cfg: Config, t: State, plan: Plan)
    requires t.wave == map[] && Shape(log, cfg, t) && Keyed(plan)
    ensures Shape(log, cfg, t.(pending := Remember(t.pending, plan), positions := Rewound(t.positions, plan)))
  {
  }

  lemma WorkKeepsShape(log: Log, cfg: Config, s: State, e: Event)
    requires Shape(log, cfg, s) && Enabled(log, cfg, s, e) && e.Work?
    ensures Shape(log, cfg, Apply(cfg, s, e))
  {
    ReportMatchesResume(log, cfg, s, e);
  }

  // ------------------------------------------------------------------------
  // No record is lost
  // ------------------------------------------------------------------------

  /** For partitions this member does not hold, only a kept boundary can bring a record back. */
  lemma LostMeansNoBoundary(log: Log, cfg: Config, s: State)
    requires Base(log, cfg, s)
    ensures NoRecordLost(log, s) <==> forall k, o :: Owed(log, s, k, o) && k !in s.positions ==> BoundaryKept(s, k, o)
  {
    forall k, o | Owed(log, s, k, o) && k !in s.positions
      ensures (NextFetch(s, k).Some? && NextFetch(s, k).value <= o) <==> BoundaryKept(s, k, o)
      ensures !InWave(s, k, o)
    {
    }
  }

  /** Every step but a fatal poll keeps the base, if no owed record is lost yet. */
  lemma StepKeepsBase(log: Log, cfg: Config, s: State, e: Event)
    requires Base(log, cfg, s) && Enabled(log, cfg, s, e) && !FatalPoll(e)
    requires NoRecordLost(log, s)
    ensures Base(log, cfg, Apply(cfg, s, e))
  {
    LostMeansNoBoundary(log, cfg, s);
    match e
    case Poll(fetched, _, err, flushed) =>
      if err.Nil? {
        GoodPollKeepsBase(log, cfg, s, e);
      } else if fetched != map[] {
        TransientPollKeepsBase(log, cfg, s, e);
      } else {
        EmptyTransientPollDrops(log, cfg, s, e);
        DroppedClientKeepsBase(log, cfg, s, flushed);
      }
    case Work(_, _, _) => WorkKeepsBase(log, cfg, s, e);
    case EndWave(_, _) => EndWaveKeepsBase(log, cfg, s, e);
    case _ =>
      CoordinationKeepsShape(log, cfg, s, e);
      CoordinationKeepsCommitsBehind(log, cfg, s, e);
      CoordinationKeepsPositions(log, cfg, s, e);
  }

  lemma EmptyTransientPollDrops(log: Log, cfg: Config, s: State, e: Event)
    requires Enabled(log, cfg, s, e) && e.Poll? && IsTransient(e.err) && e.fetched == map[]
    ensures Apply(cfg, s, e) == DropClient(s, e.flushed)
  {
    assert Returned(s, e.fetched).positions == s.positions;
    assert AllOffsets(e.fetched) == {};
  }

  ghost predicate Invariant(log: Log, cfg: Config, s: State) {
    Base(log, cfg, s) && BoundariesCover(log, s)
  }

  /** A poll that returned no record still due. */
  ghost predicate ReturnsNothingDue(log: Log, s: State, e: Event)
    requires e.Poll?
  {
    forall k, o :: k in e.fetched && Listed(e.fetched[k], o) ==> !Due(log, s, k, o)
  }

  /** With synchronous commits, every step keeps the invariant, as long as a fatal poll error
      comes with no record that is still due. */
  lemma StepKeepsInvariant(log: Log, cfg: Config, s: State, e: Event)
    requires !cfg.marks && Invariant(log, cfg, s) && Enabled(log, cfg, s, e)
    requires FatalPoll(e) ==> ReturnsNothingDue(log, s, e)
    ensures Invariant(log, cfg, Apply(cfg, s, e))
  {
    InvariantLosesNothing(log, cfg, s);
    if FatalPoll(e) {
      FatalPollOwes(log, cfg, s, e);
      return;
    }
    StepKeepsBase(log, cfg, s, e);
    match e
    case Poll(fetched, _, err, flushed) =>
      if err.Nil? {
        GoodPollKeepsBase(log, cfg, s, e);
      } else if fetched != map[] {
        TransientPollKeepsBase(log, cfg, s, e);
      } else {
        EmptyTransientPollDrops(log, cfg, s, e);
        DroppedClientKeepsBase(log, cfg, s, flushed);
      }
    case Work(_, _, _) => WorkKeepsBoundaries(log, cfg, s, e);
    case EndWave(_, _) => EndWaveKeepsBase(log, cfg, s, e);
    case _ => CoordinationKeepsBoundaries(log, cfg, s, e);
  }

  lemma InvariantLosesNothing(log: Log, cfg: Config, s: State)
    requires Invariant(log, cfg, s)
    ensures NoRecordLost(log, s)
  {
    LostMeansNoBoundary(log, cfg, s);
    forall k, o | Owed(log, s, k, o) && k !in s.positions
      ensures BoundaryKept(s, k, o)
    {
      assert !InWave(s, k, o);
    }
  }

  /** What a harmless fatal poll leaves behind. */
  lemma FatalPollOwes(log: Log, cfg: Config, s: State, e: Event)
    requires Base(log, cfg, s) && Enabled(log, cfg, s, e) && FatalPoll(e) && ReturnsNothingDue(log, s, e)
    ensures Base(log, cfg, Apply(cfg, s, e))
    ensures forall k, o :: Owed(log, Apply(cfg, s, e), k, o) ==> Owed(log, s, k, o)
    ensures BoundariesCover(log, s) ==> BoundariesCover(log, Apply(cfg, s, e))
  {
    var s' := Apply(cfg, s, e);
    assert s' == Returned(s, e.fetched);
    PollKeepsCommitsBehind(log, cfg, s, e);
    forall k, o | Owed(log, s', k, o)
      ensures Owed(log, s, k, o) && (k in s'.positions ==> s'.positions[k] <= o)
    {
      OwedAfterPoll(log, cfg, s, e, k, o);
    }
    if BoundariesCover(log, s) {
      forall k, o | Owed(log, s', k, o) && !InWave(s', k, o)
        ensures BoundaryKept(s', k, o)
      {
        assert BoundaryKept(s, k, o);
      }
    }
  }

  /** A fatal poll error loses a record exactly when it came with one that is still due: the
      fetch position has moved past it and no boundary is remembered for it. */
  lemma FatalPollLosesExactlyWhatWasDue(log: Log, cfg: Config, s: State, e: Event)
    requires Base(log, cfg, s) && NoRecordLost(log, s) && Enabled(log, cfg, s, e) && FatalPoll(e)
    ensures NoRecordLost(log, Apply(cfg, s, e)) <==> ReturnsNothingDue(log, s, e)
  {
    var s' := Apply(cfg, s, e);
    assert s' == Returned(s, e.fetched);
    if ReturnsNothingDue(log, s, e) {
      FatalPollOwes(log, cfg, s, e);
      LostMeansNoBoundary(log, cfg, s);
      LostMeansNoBoundary(log, cfg, s');
      forall k, o | Owed(log, s', k, o) && k !in s'.positions
        ensures BoundaryKept(s', k, o)
      {
        assert Owed(log, s, k, o) && BoundaryKept(s, k, o);
      }
    } else {
      var k, o :| k in e.fetched && Listed(e.fetched[k], o) && Due(log, s, k, o);
      ListedInOrder(log, k, e.fetched[k], o);
      assert (k, o) in AllOffsets(e.fetched);
      assert Owed(log, s', k, o) && !InWave(s', k, o);
      assert NextFetch(s', k) == Some(LastOffset(e.fetched[k]) + 1);
    }
  }

  ghost predicate IsRun(log: Log, cfg: Config, states: seq<State>, events: seq<Event>) {
    && |states| == |events| + 1 && states[0] == INITIAL
    && forall i :: 0 <= i < |events| ==> Step(log, cfg, states[i], events[i], states[i + 1])
  }

  lemma {:induction false} RunKeepsInvariant(log: Log, cfg: Config, states: seq<State>, events: seq<Event>, n: nat)
    requires !cfg.marks && IsRun(log, cfg, states, events) && n < |states|
    requires forall i :: 0 <= i < |events| && FatalPoll(events[i]) ==> ReturnsNothingDue(log, states[i], events[i])
    ensures Invariant(log, cfg, states[n])
  {
    if n > 0 {
      RunKeepsInvariant(log, cfg, states, events, n - 1);
      assert Step(log, cfg, states[n - 1], events[n - 1], states[n]);
      StepKeepsInvariant(log, cfg, states[n - 1], events[n - 1]);
    }
  }

  /** Over every run with synchronous commits, in message and batch mode, before and after the
      handler: each record a poll ever returned has been handled, was passed by a commit of this
      member or another one, is in the current wave, or lies at or above the offset the next fetch
      of its partition starts from. This member commits past a record it has not handled only if
      it commits before the handler. */
  lemma NoRecordIsEverLost(log: Log, cfg: Config, states: seq<State>, events: seq<Event>, n: nat)
    requires !cfg.marks && IsRun(log, cfg, states, events) && n < |states|
    requires forall i :: 0 <= i < |events| && FatalPoll(events[i]) ==> ReturnsNothingDue(log, states[i], events[i])
    ensures NoRecordLost(log, states[n]) && CommitsBehind(log, states[n])
  {
    RunKeepsInvariant(log, cfg, states, events, n);
    InvariantLosesNothing(log, cfg, states[n]);
  }
}
