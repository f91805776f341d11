/** One worker's pass over the records of one partition, for both backends
    (processMessageGroup and processBatchGroup in kafka/confluent.go, the group
    closures of consumeMessages and consumeBatches in
    kafka/franz_kafkajs2_compat_consumer.go, worker progress in kafka/consumer.go).

    A group is a list of records of one partition in fetch order. Each record either
    completes or ends the pass with an outcome; the error the worker then reports must
    plan a rewind to exactly the first record that is not behind its offset boundary. */
module PartitionWorkers {
  import opened Options
  import opened RewindPlans

  /** `control` marks a transaction marker, which never reaches a handler. */
  datatype Record = Record(position: Position, control: bool)

  /** What happens to one record; the errors come from the driver or from user code. */
  datatype Outcome =
    | Completes
    | PreCommitFails(e: Error)
    | HandlerFails(e: Error)
    | HandlerExits                 // runtime.Goexit: defers run, no return
    | ResolveFails(e: Error)

  /** The driver's errors carry no rewind decision and no handler error. */
  predicate FromDriver(e: Error) {
    !e.Nil? && !Decided(e) && !IsHandlerError(e)
  }

  /** The outcomes a record can have, with or without CommitBeforeHandler in manual commit mode. */
  predicate Possible(commitBefore: bool, control: bool, o: Outcome) {
    match o
    case Completes => true
    case PreCommitFails(e) => commitBefore && !control && FromDriver(e)
    case HandlerFails(e) => !control && !e.Nil?
    case HandlerExits => !control
    case ResolveFails(e) => (!commitBefore || control) && FromDriver(e)
  }

  /** Whether the record's offset boundary is behind it: it was committed before its handler
      ran, or everything about it succeeded. Such a record is never planned for a rewind. */
  predicate Settles(commitBefore: bool, o: Outcome) {
    o.Completes? || (commitBefore && (o.HandlerFails? || o.HandlerExits?))
  }

  // ------------------------------------------------------------------------
  // Worker progress
  // ------------------------------------------------------------------------

  class WorkerProgress {
    var position: Position
    var next: Position
    var hasPosition: bool
    var hasNext: bool
    var completed: bool

    ghost function Current(): Option<Position>
      reads this
    {
      if hasPosition then Some(position) else None
    }

    ghost function Following(): Option<Position>
      reads this
    {
      if hasNext then Some(next) else None
    }

    /** newConsumerWorkerContext */
    constructor (first: Option<Position>)
      ensures Current() == first && Following() == None && !completed
    {
      hasPosition := first.Some?;
      position := if first.Some? then first.value else Position("", 0, 0, 0);
      next := Position("", 0, 0, 0);
      hasNext := false;
      completed := false;
    }

    /** setConsumerWorkerPosition */
    method SetPosition(p: Position, following: Option<Position>)
      modifies this
      ensures Current() == Some(p) && Following() == following && completed == old(completed)
    {
      position, hasPosition := p, true;
      hasNext := following.Some?;
      if following.Some? {
        next := following.value;
      }
    }

    /** markConsumerWorkerCommitted: the boundary moves to the next record, if there is one. */
    method MarkCommitted()
      modifies this
      ensures Current() == old(Following()) && completed == old(completed)
      ensures Following() == old(Following())
    {
      position, hasPosition := next, hasNext;
    }

    /** reportIncomplete: what the deferred call sends when the worker never returned. */
    method ReportIncomplete() returns (report: Error)
      ensures report == if completed then Nil else WorkerAborted(Current())
    {
      report := Nil;
      if !completed {
        report := WorkerAborted(if hasPosition then Some(position) else None);
      }
    }
  }

  // ------------------------------------------------------------------------
  // Message groups
  // ------------------------------------------------------------------------

  /** The error a worker reports when `record` ends its pass; `next` follows it in the group. */
  function Report(commitBefore: bool, record: Position, next: Option<Position>, o: Outcome): Error {
    match o
    case Completes => Nil
    case PreCommitFails(e) => WithRewindPosition(e, record)
    case HandlerFails(e) =>
      if !commitBefore then HandlerFailed(e, Some(record))
      else if next.Some? then RewindTo(HandlerFailed(e, None), next.value)
      else HandlerFailed(e, None)
    case HandlerExits => WorkerAborted(if commitBefore then next else Some(record))
    case ResolveFails(e) => WithRewindPosition(e, record)
  }

  function PlanFor(p: Option<Position>): Plan {
    if p.Some? then map[p.value.Key() := p.value] else map[]
  }

  /** Every failed pass is decided, and plans the failed record itself unless its boundary is
      behind it; then it plans the next record of the group, or nothing at all. */
  lemma ReportPlansFirstUnsettled(commitBefore: bool, control: bool, record: Position, next: Option<Position>,
        o: Outcome)
    requires Possible(commitBefore, control, o) && !o.Completes?
    ensures var report := Report(commitBefore, record, next, o);
      && !report.Nil? && Decided(report)
      && PlanOf(report) == PlanFor(if Settles(commitBefore, o) then next else Some(record))
  {
    match o
    case PreCommitFails(e) => AttachedBoundary(e, record);
    case ResolveFails(e) => AttachedBoundary(e, record);
    case HandlerFails(e) =>
      SinglePlan(record);
      if next.Some? { SinglePlan(next.value); }
    case HandlerExits =>
      SinglePlan(record);
      if next.Some? { SinglePlan(next.value); }
  }

  lemma SinglePlan(p: Position)
    ensures Collect(map[], [p]) == map[p.Key() := p]
  {
    assert Collect(map[], [p]) == Collect(MinInto(map[], p), []);
  }

  function PositionAt(group: seq<Record>, i: nat): Option<Position> {
    if i < |group| then Some(group[i].position) else None
  }

  /** Positions of the records of a stretch that reach user code. */
  function Visible(group: seq<Record>): seq<Position> {
    if group == [] then []
    else Visible(group[..|group| - 1]) + if group[|group| - 1].control then [] else [group[|group| - 1].position]
  }

  predicate AllComplete(outcomes: seq<Outcome>) {
    forall i :: 0 <= i < |outcomes| ==> outcomes[i].Completes?
  }

  /** The pass ends at index `at`: everything before it completed, it did not. */
  predicate StopsAt(commitBefore: bool, group: seq<Record>, outcomes: seq<Outcome>, at: nat, report: Error,
        settled: nat, handed: seq<Position>)
    requires |outcomes| == |group| && at < |group|
  {
    && AllComplete(outcomes[..at]) && !outcomes[at].Completes?
    && settled == (if Settles(commitBefore, outcomes[at]) then at + 1 else at)
    && handed == Visible(group[..if outcomes[at].PreCommitFails? then at else at + 1])
    && report == Report(commitBefore, group[at].position, PositionAt(group, at + 1), outcomes[at])
  }

  /** The message-mode pass. `settled` counts the records behind their offset boundary,
      `handed` lists the records given to the handler, in order. */
  method ProcessMessageGroup(commitBefore: bool, group: seq<Record>, outcomes: seq<Outcome>)
    returns (report: Error, settled: nat, handed: seq<Position>)
    requires |outcomes| == |group|
    requires forall i :: 0 <= i < |group| ==> Possible(commitBefore, group[i].control, outcomes[i])
    ensures settled <= |group|
    ensures report.Nil? <==> AllComplete(outcomes)
    ensures report.Nil? ==> settled == |group| && handed == Visible(group)
    ensures !report.Nil? ==> Decided(report) && PlanOf(report) == PlanFor(PositionAt(group, settled))
    // The pass stops at the first record that does not complete, and every handler call
    // before a boundary-first failure belongs to a settled record.
    ensures !report.Nil? ==>
      exists at :: 0 <= at < |group| && StopsAt(commitBefore, group, outcomes, at, report, settled, handed)
  {
    var progress := new WorkerProgress(PositionAt(group, 0));
    report, settled, handed := Nil, 0, [];
    var index := 0;
    while index < |group|
      invariant 0 <= index <= |group|
      invariant settled == index
      invariant AllComplete(outcomes[..index])
      invariant handed == Visible(group[..index])
      invariant !progress.completed
    {
      var record := group[index].position;
      var next := PositionAt(group, index + 1);
      progress.SetPosition(record, next);
      assert group[..index + 1][..index] == group[..index];
      assert outcomes[..index + 1] == outcomes[..index] + [outcomes[index]];
      if !outcomes[index].Completes? {
        ReportPlansFirstUnsettled(commitBefore, group[index].control, record, next, outcomes[index]);
      }
      if group[index].control {
        if outcomes[index].ResolveFails? {
          report := WithRewindPosition(outcomes[index].e, record);
          break;
        }
      } else {
        if commitBefore {
          if outcomes[index].PreCommitFails? {
            report := WithRewindPosition(outcomes[index].e, record);
            break;
          }
          progress.MarkCommitted();
        }
        handed := handed + [record];
        if outcomes[index].HandlerExits? {
          report := progress.ReportIncomplete();
          settled := if commitBefore then index + 1 else index;
          break;
        }
        if outcomes[index].HandlerFails? {
          if commitBefore {
            report := HandlerFailed(outcomes[index].e, None);
            if index + 1 < |group| {
              report := RewindTo(report, group[index + 1].position);
            }
            settled := index + 1;
          } else {
            report := HandlerFailed(outcomes[index].e, Some(record));
          }
          break;
        }
        if outcomes[index].ResolveFails? {
          report := WithRewindPosition(outcomes[index].e, record);
          break;
        }
      }
      settled := index + 1;
      index := index + 1;
    }
    if index < |group| {
      assert StopsAt(commitBefore, group, outcomes, index, report, settled, handed);
      assert !AllComplete(outcomes);
    } else {
      assert outcomes[..index] == outcomes && group[..index] == group;
    }
  }

  // ------------------------------------------------------------------------
  // Batch groups
  // ------------------------------------------------------------------------

  /** Where a batch rewinds: its first record that reaches user code, or, when the whole group
      consists of markers, its last record. */
  function BatchStart(group: seq<Record>): Position
    requires group != []
  {
    if Visible(group) == [] then group[|group| - 1].position else Visible(group)[0]
  }

  /** A batch passes or fails as one unit: one outcome for the whole group. */
  function BatchReport(commitBefore: bool, start: Position, o: Outcome): Error {
    match o
    case Completes => Nil
    case PreCommitFails(e) => WithRewindPosition(e, start)
    case HandlerFails(e) => HandlerFailed(e, if commitBefore then None else Some(start))
    case HandlerExits => WorkerAborted(if commitBefore then None else Some(start))
    case ResolveFails(e) => WithRewindPosition(e, start)
  }

  lemma BatchReportPlansWholeBatch(commitBefore: bool, control: bool, start: Position, o: Outcome)
    requires Possible(commitBefore, control, o) && !o.Completes?
    ensures var report := BatchReport(commitBefore, start, o);
      && !report.Nil? && Decided(report)
      && PlanOf(report) == PlanFor(if Settles(commitBefore, o) then None else Some(start))
  {
    SinglePlan(start);
    match o
    case PreCommitFails(e) => AttachedBoundary(e, start);
    case ResolveFails(e) => AttachedBoundary(e, start);
    case _ =>
  }

  /** The batch-mode pass: the handler sees exactly the visible records, and a failure plans a
      rewind to the start of the batch, unless the batch was committed first. */
  method ProcessBatchGroup(commitBefore: bool, group: seq<Record>, o: Outcome)
    returns (report: Error, handed: seq<Position>)
    requires group != []
    requires Possible(commitBefore, Visible(group) == [], o)
    ensures report.Nil? <==> o.Completes?
    ensures !report.Nil? ==>
      Decided(report) && PlanOf(report) == PlanFor(if Settles(commitBefore, o) then None else Some(BatchStart(group)))
    ensures report == BatchReport(commitBefore, BatchStart(group), o)
    ensures handed == if o.PreCommitFails? then [] else Visible(group)
  {
    if !o.Completes? {
      BatchReportPlansWholeBatch(commitBefore, Visible(group) == [], BatchStart(group), o);
    }
    var progress := new WorkerProgress(PositionAt(group, 0));
    var visible: seq<Position> := [];
    var i := 0;
    while i < |group|
      invariant 0 <= i <= |group|
      invariant visible == Visible(group[..i])
    {
      assert group[..i + 1][..i] == group[..i];
      if !group[i].control {
        visible := visible + [group[i].position];
      }
      i := i + 1;
    }
    assert group[..i] == group;
    handed := [];
    report := Nil;
    if visible == [] {
      if o.ResolveFails? {
        report := WithRewindPosition(o.e, group[|group| - 1].position);
      }
      return;
    }
    progress.SetPosition(visible[0], None);
    if commitBefore {
      if o.PreCommitFails? {
        report := WithRewindPosition(o.e, visible[0]);
        return;
      }
      progress.MarkCommitted();
    }
    handed := visible;
    if o.HandlerExits? {
      report := progress.ReportIncomplete();
    } else if o.HandlerFails? {
      report := HandlerFailed(o.e, if commitBefore then None else Some(visible[0]));
    } else if o.ResolveFails? {
      report := WithRewindPosition(o.e, visible[0]);
    }
  }
}
