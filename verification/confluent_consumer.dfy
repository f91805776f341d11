/** Ownership and fail-closed rewinds of the librdkafka consumer (kafka/confluent.go), as a step
    system over the consuming goroutine, its partition workers and the rebalance callback.

    Each step is one critical section or one driver call of the source. A callback runs in
    three sections, which the other steps may interleave; a message is returned by the driver
    only while no callback is running. */
module ConfluentConsumer {
  import opened Options
  import opened RewindPlans
  import opened PositionLists
  import opened PartitionWorkers
  import opened RecordGrouping

  /** confluentAssignmentSnapshot, with the partition it was taken for. */
  datatype GroupKey = GroupKey(k: Partition, known: bool, gen: nat)

  datatype Message = Message(position: Position, known: bool, gen: nat) {
    function Group(): GroupKey {
      GroupKey(position.Key(), known, gen)
    }
  }

  datatype Result = Result(settled: nat, report: Error)

  /** Where the consuming goroutine is between and inside Consume calls. */
  datatype Phase =
    | Idle
    | Seeking(copied: Plan)                // applyPendingRewinds has copied the pending positions
    | Filtered(copied: Plan, todo: Plan)   // ... and kept those still owned
    | Sought(copied: Plan)                 // ... and sought them
    | Reading
    | Dispatching
    | Failing(plan: Plan)                  // prepareHandlerRunRetry has the wave's plan
    | Rewinding(plan: Plan)                // ... reduced to partitions still owned
    | Unsought(plan: Plan)                 // ... and a seek has failed

  datatype Callback =
    | NoCallback
    | Assigning(ks: set<Partition>, cooperative: bool)
    | Assigned(ks: set<Partition>)
    | Revoked(ks: set<Partition>, cooperative: bool)
    | Cleared(ks: set<Partition>, cooperative: bool)

  datatype State = State(
    known: bool, gen: nat, owned: map<Partition, nat>,
    driver: map<Partition, int>,           // the driver's assignment and fetch positions
    callback: Callback,
    phase: Phase,
    wave: seq<Message>,
    running: set<GroupKey>,                // groups that hold a dispatch lease
    started: set<GroupKey>,                // groups of the wave that were given a lease
    discarded: set<GroupKey>,
    results: map<GroupKey, Result>,
    pending: Plan,                         // pendingRewinds
    revoked: set<Partition>,               // revokedRewinds
    closing: bool,
    read: set<(Partition, nat, int)>,      // records read, with the generation they were read under
    settled: set<(Partition, nat, int)>)

  const INITIAL := State(false, 0, map[], map[], NoCallback, Idle, [], {}, {}, {}, map[], map[], {}, false, {}, {})

  datatype Event =
    | DriverAssign(starts: map<Partition, int>, cooperative: bool)
    | MarkAssigned
    | MarkRewindsAssigned
    | MarkRevoked(ks: set<Partition>, cooperative: bool)
    | ClearPending
    | DriverUnassign
    | BeginRun
    | FilterPending
    | SeekPending(ok: bool, sought: set<Partition>)
    | RemoveSought
    | Read(p: Position)
    | StopGathering
    | GatherFails(order: seq<GroupKey>, err: Error)
    | Dispatch(g: GroupKey)
    | Discard(g: GroupKey)
    | Finish(g: GroupKey, settled: nat, report: Error)
    | EndWave(order: seq<GroupKey>)
    | FilterFailed
    | SeekFailed(ok: bool, sought: set<Partition>)
    | RecordPending
    | Close

  /** Which offsets of a partition hold a record. */
  type Log = (Partition, int) -> bool

  // ------------------------------------------------------------------------
  // Pieces of the steps
  // ------------------------------------------------------------------------

  function GroupKeyOf(m: Message): GroupKey {
    m.Group()
  }

  function GroupOf(wave: seq<Message>, g: GroupKey): seq<Message> {
    Matching(wave, GroupKeyOf, g)
  }

  predicate InWave(wave: seq<Message>, g: GroupKey) {
    exists i :: 0 <= i < |wave| && wave[i].Group() == g
  }

  /** assignmentSnapshot: generation 0 means known to be unowned. */
  function SnapshotGen(s: State, k: Partition): nat {
    if s.known && k in s.owned then s.owned[k] else 0
  }

  /** beginPartitionDispatch grants a lease. */
  predicate Admits(s: State, g: GroupKey) {
    s.known ==> g.k in s.owned && (g.known ==> s.owned[g.k] == g.gen)
  }

  /** rewindPositionsStillOwned: not revoked since the last assignment, and in the driver's. */
  function StillOwned(s: State, plan: Plan): Plan {
    map k | k in plan && k !in s.revoked && k in s.driver :: plan[k]
  }

  function SeekTo(driver: map<Partition, int>, plan: Plan, ks: set<Partition>): map<Partition, int> {
    map k | k in driver :: if k in plan && k in ks then plan[k].offset else driver[k]
  }

  /** The partitions owned after an assignment or a revocation. */
  function OwnedAfterAssign(owned: map<Partition, nat>, ks: set<Partition>, cooperative: bool,
        gen: nat): map<Partition, nat> {
    (if cooperative then owned else map[]) + map k | k in ks :: gen
  }

  function OwnedAfterRevoke(owned: map<Partition, nat>, ks: set<Partition>, cooperative: bool): map<Partition, nat> {
    if cooperative then owned - ks else map[]
  }

  /** applyPendingRewinds removes exactly the positions it has copied and sought. */
  function AfterSought(pending: Plan, copied: Plan): Plan {
    map k | k in pending && !(k in copied && copied[k] == pending[k]) :: pending[k]
  }

  function Without(plan: Plan, ks: set<Partition>): Plan {
    map k | k in plan && k !in ks :: plan[k]
  }

  function Reports(results: map<GroupKey, Result>, order: seq<GroupKey>): seq<Error>
    requires forall g :: g in order ==> g in results
  {
    seq(|order|, i requires 0 <= i < |order| => results[order[i]].report)
  }

  /** A failed batch collection attaches the poll error to the first record of each group. */
  function FirstReports(wave: seq<Message>, order: seq<GroupKey>, err: Error): seq<Error>
    requires forall g :: g in order ==> GroupOf(wave, g) != []
  {
    seq(|order|, i requires 0 <= i < |order| => WithRewindPosition(err, GroupOf(wave, order[i])[0].position))
  }

  function PositionIn(group: seq<Message>, i: nat): Option<Position> {
    if i < |group| then Some(group[i].position) else None
  }

  function SettledOf(group: seq<Message>, n: nat): set<(Partition, nat, int)>
    requires n <= |group|
  {
    set i | 0 <= i < n :: (group[i].position.Key(), group[i].gen, group[i].position.offset)
  }

  /** Every group of the wave has come to an end. */
  predicate WaveOver(s: State) {
    forall i :: 0 <= i < |s.wave| ==> s.wave[i].Group() in s.results || s.wave[i].Group() in s.discarded
  }

  // ------------------------------------------------------------------------
  // Steps
  // ------------------------------------------------------------------------

  /** The driver returns the next record of the log at or after its fetch position. */
  ghost predicate ReadsNext(log: Log, driver: map<Partition, int>, p: Position) {
    && p.Key() in driver && driver[p.Key()] <= p.offset && log(p.Key(), p.offset)
    && forall o :: driver[p.Key()] <= o < p.offset ==> !log(p.Key(), o)
  }

  ghost predicate Enabled(log: Log, s: State, e: Event) {
    match e
    // The rebalance callback. Under the eager protocol a revocation names the whole assignment
    // and precedes the next assignment.
    case DriverAssign(starts, cooperative) =>
      s.callback == NoCallback && starts.Keys !! s.driver.Keys && (!cooperative ==> s.driver == map[])
    case MarkAssigned => s.callback.Assigning? && s.running == {}
    case MarkRewindsAssigned => s.callback.Assigned?
    case MarkRevoked(ks, cooperative) =>
      s.callback == NoCallback && s.running == {} && ks <= s.driver.Keys && (!cooperative ==> ks == s.driver.Keys)
    case ClearPending => s.callback.Revoked?
    case DriverUnassign => s.callback.Cleared?
    // A Consume call.
    case BeginRun => s.phase == Idle
    case FilterPending => s.phase.Seeking?
    case SeekPending(ok, sought) =>
      s.phase.Filtered? && sought <= s.phase.todo.Keys && (ok ==> sought == s.phase.todo.Keys <= s.driver.Keys)
    case RemoveSought => s.phase.Sought?
    case Read(p) =>
      && s.phase == Reading && s.callback == NoCallback
      && (s.known ==> ReadsNext(log, s.driver, p))
    case StopGathering => s.phase == Reading
    case GatherFails(order, err) =>
      && s.phase == Reading && !err.Nil? && !Decided(err)
      && (forall g :: g in order <==> InWave(s.wave, g) && Admits(s, g))
      && (forall g :: g in order ==> GroupOf(s.wave, g) != [])
    case Dispatch(g) =>
      s.phase == Dispatching && InWave(s.wave, g) && g !in s.started && g !in s.discarded && Admits(s, g)
    case Discard(g) =>
      s.phase == Dispatching && InWave(s.wave, g) && g !in s.started && g !in s.discarded && !Admits(s, g)
    case Finish(g, settled, report) =>
      && g in s.running && settled <= |GroupOf(s.wave, g)|
      && (report.Nil? ==> s.closing || settled == |GroupOf(s.wave, g)|)
      && (!report.Nil? ==> Decided(report) && PlanOf(report) == PlanFor(PositionIn(GroupOf(s.wave, g), settled)))
    case EndWave(order) =>
      s.phase == Dispatching && s.running == {} && (s.closing || WaveOver(s)) && forall g ::
        g in order <==> g in s.results && !s.results[g].report.Nil?
    case FilterFailed => s.phase.Failing?
    case SeekFailed(ok, sought) =>
      s.phase.Rewinding? && sought <= s.phase.plan.Keys && (ok ==> sought == s.phase.plan.Keys <= s.driver.Keys)
    case RecordPending => s.phase.Unsought?
    case Close => true
  }

  function Snapshot(s: State, p: Position): Message {
    Message(p, s.known, SnapshotGen(s, p.Key()))
  }

  /** A wave that failed with `plan`; with nothing to rewind the Consume call just returns. */
  function Failed(s: State, plan: Plan): State {
    s.(phase := if plan == map[] then Idle else Failing(plan),
       wave := [], started := {}, discarded := {}, results := map[])
  }

  function Apply(s: State, e: Event): State
    requires match e
      case GatherFails(order, _) => forall g :: g in order ==> GroupOf(s.wave, g) != []
      case Finish(g, settled, _) => settled <= |GroupOf(s.wave, g)|
      case EndWave(order) => forall g :: g in order ==> g in s.results
      case MarkAssigned => s.callback.Assigning?
      case MarkRewindsAssigned => s.callback.Assigned?
      case ClearPending => s.callback.Revoked?
      case DriverUnassign => s.callback.Cleared?
      case FilterPending => s.phase.Seeking?
      case SeekPending(_, _) => s.phase.Filtered?
      case RemoveSought => s.phase.Sought?
      case FilterFailed => s.phase.Failing?
      case SeekFailed(_, _) => s.phase.Rewinding?
      case RecordPending => s.phase.Unsought?
      case _ => true
  {
    match e
    case DriverAssign(starts, cooperative) =>
      s.(driver := s.driver + starts, callback := Assigning(starts.Keys, cooperative))
    case MarkAssigned =>
      s.(known := true, gen := s.gen + 1, callback := Assigned(s.callback.ks),
         owned := OwnedAfterAssign(s.owned, s.callback.ks, s.callback.cooperative, s.gen + 1))
    case MarkRewindsAssigned => s.(revoked := s.revoked - s.callback.ks, callback := NoCallback)
    case MarkRevoked(ks, cooperative) =>
      s.(known := true, gen := s.gen + 1, callback := Revoked(ks, cooperative),
         owned := OwnedAfterRevoke(s.owned, ks, cooperative))
    case ClearPending =>
      s.(revoked := s.revoked + s.callback.ks, pending := Without(s.pending, s.callback.ks),
         callback := Cleared(s.callback.ks, s.callback.cooperative))
    case DriverUnassign =>
      s.(driver := if s.callback.cooperative then s.driver - s.callback.ks else map[], callback := NoCallback)
    case BeginRun => s.(phase := if s.closing || s.pending == map[] then Reading else Seeking(s.pending))
    case FilterPending => s.(phase := Filtered(s.phase.copied, StillOwned(s, s.phase.copied)))
    case SeekPending(ok, sought) =>
      s.(driver := SeekTo(s.driver, s.phase.todo, sought), phase := if ok then Sought(s.phase.copied) else Idle)
    case RemoveSought =>
      s.(phase := Reading, pending := AfterSought(s.pending, s.phase.copied))
    case Read(p) =>
      var m := Snapshot(s, p);
      s.(wave := s.wave + [m],
         driver := if p.Key() in s.driver then s.driver[p.Key() := p.offset + 1] else s.driver,
         read := s.read + {(p.Key(), m.gen, p.offset)})
    case StopGathering => s.(phase := Dispatching)
    case GatherFails(order, err) => Failed(s, PlanOf(Joined(FirstReports(s.wave, order, err))))
    case Dispatch(g) => s.(running := s.running + {g}, started := s.started + {g})
    case Discard(g) => s.(discarded := s.discarded + {g})
    case Finish(g, settled, report) =>
      s.(running := s.running - {g}, results := s.results[g := Result(settled, report)],
         settled := s.settled + SettledOf(GroupOf(s.wave, g), settled))
    case EndWave(order) =>
      if order == [] then s.(phase := Reading, wave := [], started := {}, discarded := {}, results := map[])
      else Failed(s, PlanOf(Joined(Reports(s.results, order))))
    case FilterFailed =>
      var plan := StillOwned(s, s.phase.plan);
      s.(phase := if plan == map[] then Idle else Rewinding(plan))
    case SeekFailed(ok, sought) =>
      s.(driver := SeekTo(s.driver, s.phase.plan, sought), phase := if ok then Idle else Unsought(s.phase.plan))
    case RecordPending =>
      s.(phase := Idle,
         pending := if s.closing then s.pending else Remember(s.pending, Without(s.phase.plan, s.revoked)))
    case Close => s.(closing := true)
  }

  ghost predicate Step(log: Log, s: State, e: Event, s': State) {
    Enabled(log, s, e) && s' == Apply(s, e)
  }

  ghost predicate IsRun(log: Log, states: seq<State>, events: seq<Event>) {
    && |states| == |events| + 1 && states[0] == INITIAL
    && forall i :: 0 <= i < |events| ==> Step(log, states[i], events[i], states[i + 1])
  }
}
