/** The offset protocol of the KafkaJS-compatible consumer
    (kafka/franz_kafkajs2_compat_consumer.go), as a step system.

    The coordinator keeps one committed offset per partition. This member polls records,
    hands them to one worker per partition, commits, rewinds after failures, loses and
    regains partitions, and rebuilds its client. Other members may commit for a partition
    this member does not hold, or from which the coordinator has already evicted it. */
module FranzConsumer {
  import opened Options
  import opened RewindPlans
  import opened PositionLists
  import opened PartitionWorkers

  /** What a partition holds at an offset: nothing, a record for the handler, or a marker. */
  datatype Entry = Gap | Data | Marker
  type Log = (Partition, int) -> Entry

  /** `commitBefore`: manual commit with CommitBeforeHandler. `batch`: consumeBatches instead of
      consumeMessages. `marks`: background auto-commit of marked offsets. The code never sets
      the first and the last together; nothing below depends on that. */
  datatype Config = Config(commitBefore: bool, batch: bool, marks: bool)

  /** One partition of a wave: its records, how many are behind their boundary, and the error
      its worker has reported, if any. */
  datatype Group = Group(records: seq<Record>, settled: nat, report: Error)

  datatype State = State(
    committed: map<Partition, int>,     // coordinator: committed offsets
    evicted: set<Partition>,            // coordinator: held here, but already given away
    connected: bool,                    // c.client != nil
    positions: map<Partition, int>,     // client: next offset to fetch, per partition it holds
    marked: map<Partition, int>,        // client: offsets marked for the background commit
    pending: Plan,                      // c.pendingRecovery
    wave: map<Partition, Group>,        // records between poll and AllowRebalance
    polled: set<(Partition, int)>,      // every record a poll ever returned
    settled: set<(Partition, int)>,     // handled, or passed by a commit of this member
    crossed: set<(Partition, int)>,     // ... and this member knows it
    ceded: map<Partition, int>)         // offsets other members have committed up to

  const INITIAL := State(map[], {}, false, map[], map[], map[], map[], {}, {}, {}, map[])

  datatype Event =
    | Poll(fetched: map<Partition, seq<Record>>, listing: seq<Position>, err: Error, flushed: set<Partition>)
    | Work(k: Partition, o: Outcome, applied: bool)
    | EndWave(order: seq<Partition>, flushed: set<Partition>)
    | Flush(k: Partition)
    | Revoke(k: Partition, final: bool)
    | Lose(k: Partition)
    | Evict(k: Partition)
    | OtherCommit(k: Partition, offset: int)
    | Assign(resets: map<Partition, int>)
    | Rebuild

  // ------------------------------------------------------------------------
  // Records of a fetch
  // ------------------------------------------------------------------------

  predicate Listed(records: seq<Record>, o: int) {
    exists i :: 0 <= i < |records| && records[i].position.offset == o
  }

  /** Records of partition k in offset order, none skipped between the first and the last. */
  ghost predicate FetchShape(log: Log, k: Partition, records: seq<Record>) {
    && records != []
    && (forall i :: 0 <= i < |records| ==> records[i].position.Key() == k)
    && (forall i ::
      0 <= i < |records| ==> log(k, records[i].position.offset) == if records[i].control then Marker else Data)
    && (forall i, j :: 0 <= i < j < |records| ==> records[i].position.offset < records[j].position.offset)
  }

  function LastOffset(records: seq<Record>): int
    requires records != []
  {
    records[|records| - 1].position.offset
  }

  /** The driver's promise about a fetch: it starts at or after the fetch position and
      returns everything the log holds from there to its last record. */
  ghost predicate FetchedFrom(log: Log, k: Partition, from: int, records: seq<Record>) {
    && FetchShape(log, k, records)
    && from <= records[0].position.offset
    && forall o :: from <= o <= LastOffset(records) && log(k, o) != Gap ==> Listed(records, o)
  }

  /** `listing` names exactly the positions of the fetched records, in some order. */
  ghost predicate Lists(listing: seq<Position>, fetched: map<Partition, seq<Record>>) {
    && (forall k, i :: k in fetched && 0 <= i < |fetched[k]| ==> fetched[k][i].position in listing)
    && (forall p :: p in listing ==> p.Key() in fetched && Listed(fetched[p.Key()], p.offset))
  }

  function OffsetsOf(k: Partition, records: seq<Record>): set<(Partition, int)> {
    set i | 0 <= i < |records| :: (k, records[i].position.offset)
  }

  function AllOffsets(fetched: map<Partition, seq<Record>>): set<(Partition, int)> {
    set k, i | k in fetched && 0 <= i < |fetched[k]| :: (k, fetched[k][i].position.offset)
  }

  // ------------------------------------------------------------------------
  // Pending recovery as a map
  // ------------------------------------------------------------------------

  /** completeRecoveryPosition: a boundary at or below a completed record is done. */
  function Complete(pending: Plan, done: Position): Plan {
    map k | k in pending && !(k == done.Key() && pending[k].offset <= done.offset) :: pending[k]
  }

  /** adjustRecoveryOffsets on pendingRecovery: a committed offset at or past a boundary ends it. */
  function KeptOnAssign(pending: Plan, committed: map<Partition, int>, granted: set<Partition>): Plan {
    map k | k in pending && !(k in granted && k in committed && committed[k] >= pending[k].offset) :: pending[k]
  }

  /** adjustRecoveryOffsets on the fetch offsets: committed, else pending, else the reset policy. */
  function StartOffset(pending: Plan, committed: map<Partition, int>, k: Partition, reset: int): int {
    if k in committed then committed[k] else if k in pending then pending[k].offset else reset
  }

  // ------------------------------------------------------------------------
  // Steps
  // ------------------------------------------------------------------------

  function Resume(cfg: Config, g: Group): Option<Position>
    requires g.records != []
  {
    if cfg.batch then if g.settled == |g.records| then None else Some(BatchStart(g.records))
    else PositionAt(g.records, g.settled)
  }

  predicate Finished(g: Group) {
    !g.report.Nil? || g.settled == |g.records|
  }

  /** The records one worker step is about: a single record, or the whole batch. */
  function Unit(cfg: Config, g: Group): seq<Record>
    requires g.settled < |g.records|
  {
    if cfg.batch then g.records else [g.records[g.settled]]
  }

  function UnitReport(cfg: Config, g: Group, o: Outcome): Error
    requires g.settled < |g.records|
  {
    if cfg.batch then BatchReport(cfg.commitBefore, BatchStart(g.records), o)
    else Report(cfg.commitBefore, g.records[g.settled].position, PositionAt(g.records, g.settled + 1), o)
  }

  predicate UnitControl(cfg: Config, g: Group)
    requires g.settled < |g.records|
  {
    if cfg.batch then Visible(g.records) == [] else g.records[g.settled].control
  }

  function Flushed(s: State, ks: set<Partition>): map<Partition, int> {
    s.committed + map k | k in s.marked && k in ks && k !in s.evicted :: s.marked[k]
  }

  /** Dropping the client gives up every partition it held. */
  function DropClient(s: State, flushed: set<Partition>): State {
    s.(committed := Flushed(s, flushed), connected := false, positions := map[], marked := map[], evicted := {})
  }

  function Rewound(positions: map<Partition, int>, plan: Plan): map<Partition, int> {
    map k | k in positions :: if k in plan then plan[k].offset else positions[k]
  }

  /** prepareTransientRunRetry */
  function Retry(s: State, err: Error, flushed: set<Partition>): State {
    if !IsTransient(err) && !Decided(err) then s
    else if Decided(err) then
      var plan := PlanOf(err);
      if plan == map[] then s
      else s.(pending := Remember(s.pending, plan), positions := Rewound(s.positions, plan))
    else DropClient(s, flushed)
  }

  function Returned(s: State, fetched: map<Partition, seq<Record>>): State
    requires forall k :: k in fetched ==> fetched[k] != []
  {
    s.(positions := map k | k in s.positions :: if k in fetched then LastOffset(fetched[k]) + 1 else s.positions[k],
       polled := s.polled + AllOffsets(fetched))
  }

  /** pollKafkaJSRecords: only a transient error that came with records keeps their positions. */
  function PollError(err: Error, withRecords: bool, listing: seq<Position>): Error {
    if IsTransient(err) && withRecords then PollRewind(err, listing) else err
  }

  function Reports(wave: map<Partition, Group>, order: seq<Partition>): seq<Error>
    requires forall k :: k in order ==> k in wave
  {
    seq(|order|, i requires 0 <= i < |order| => wave[order[i]].report)
  }

  predicate Writes(cfg: Config, o: Outcome, applied: bool) {
    Settles(cfg.commitBefore, o) || applied
  }

  ghost predicate Enabled(log: Log, cfg: Config, s: State, e: Event) {
    match e
    case Poll(fetched, listing, err, _) =>
      && s.connected && s.wave == map[]
      && fetched.Keys <= s.positions.Keys
      && (forall k :: k in fetched ==> FetchedFrom(log, k, s.positions[k], fetched[k]))
      && Lists(listing, fetched)
      && !Decided(err)
    case Work(k, o, applied) =>
      && k in s.wave && !Finished(s.wave[k]) && s.wave[k].settled < |s.wave[k].records|
      && Possible(cfg.commitBefore, UnitControl(cfg, s.wave[k]), o)
      && (applied ==> o.ResolveFails? || o.PreCommitFails?)
      && (cfg.marks ==> !o.ResolveFails?)
      && (Writes(cfg, o, applied) && !cfg.marks ==> k !in s.evicted)
    case EndWave(order, _) =>
      && s.wave != map[]
      && (forall k :: k in s.wave ==> Finished(s.wave[k]))
      && (forall k :: k in order <==> k in s.wave && !s.wave[k].report.Nil?)
    case Flush(k) => s.connected && k in s.positions && k in s.marked && k !in s.evicted
    case Revoke(k, _) => k in s.positions && s.wave == map[]
    case Lose(k) => k in s.positions && s.wave == map[]
    case Evict(k) => k in s.positions
    case OtherCommit(k, offset) =>
      (k !in s.positions || k in s.evicted) && 0 <= offset && (k in s.committed ==> s.committed[k] <= offset)
    case Assign(resets) => s.connected && s.wave == map[] && resets.Keys !! s.positions.Keys
    case Rebuild => !s.connected
  }

  function AfterWork(cfg: Config, s: State, k: Partition, o: Outcome, applied: bool): State
    requires k in s.wave && s.wave[k].settled < |s.wave[k].records|
  {
    var g := s.wave[k];
    var unit := Unit(cfg, g);
    var last := unit[|unit| - 1].position;
    var settles, writes := Settles(cfg.commitBefore, o), Writes(cfg, o, applied);
    s.(settled := if writes then s.settled + OffsetsOf(k, unit) else s.settled,
       crossed := if settles then s.crossed + OffsetsOf(k, unit) else s.crossed,
       committed := if writes && !cfg.marks then s.committed[k := last.offset + 1] else s.committed,
       marked := if writes && cfg.marks then s.marked[k := last.offset + 1] else s.marked,
       pending := if settles then Complete(s.pending, last) else s.pending,
       wave := s.wave[k := Group(g.records, if settles then g.settled + |unit| else g.settled, UnitReport(cfg, g, o))])
  }

  function Release(s: State, k: Partition): State {
    s.(positions := s.positions - {k}, marked := s.marked - {k}, evicted := s.evicted - {k})
  }

  function Apply(cfg: Config, s: State, e: Event): State
    requires match e
      case Poll(fetched, _, _, _) => forall k :: k in fetched ==> fetched[k] != []
      case Work(k, _, _) => k in s.wave && s.wave[k].settled < |s.wave[k].records|
      case EndWave(order, _) => forall k :: k in order ==> k in s.wave
      case Flush(k) => k in s.marked
      case _ => true
  {
    match e
    case Poll(fetched, listing, err, flushed) =>
      var t := Returned(s, fetched);
      if err.Nil? then t.(wave := map k | k in fetched :: Group(fetched[k], 0, Nil))
      else Retry(t, PollError(err, fetched != map[], listing), flushed)
    case Work(k, o, applied) => AfterWork(cfg, s, k, o, applied)
    case EndWave(order, flushed) =>
      var t := s.(wave := map[]);
      if order == [] then t else Retry(t, Joined(Reports(s.wave, order)), flushed)
    case Flush(k) => s.(committed := s.committed[k := s.marked[k]])
    case Revoke(k, final) => Release(s.(committed := if final then Flushed(s, {k}) else s.committed), k)
    case Lose(k) => Release(s, k)
    case Evict(k) => s.(evicted := s.evicted + {k})
    case OtherCommit(k, offset) =>
      s.(committed := s.committed[k := offset],
         ceded := s.ceded[k := if k in s.ceded && s.ceded[k] > offset then s.ceded[k] else offset])
    case Assign(resets) =>
      s.(positions := s.positions + map k | k in resets :: StartOffset(s.pending, s.committed, k, resets[k]),
         pending := KeptOnAssign(s.pending, s.committed, resets.Keys),
         evicted := s.evicted - resets.Keys)
    case Rebuild => s.(connected := true)
  }

  /** Apply is defined wherever an event is enabled. */
  ghost predicate Step(log: Log, cfg: Config, s: State, e: Event, s': State) {
    Enabled(log, cfg, s, e) && s' == Apply(cfg, s, e)
  }
}
