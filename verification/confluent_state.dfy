/** The fields of kafka/confluent.go behind ConfluentConsumer: the assignment with its generations,
    and the pending and revoked rewinds. Each method takes the state it represents to the state
    after the step it implements. */
module ConfluentFields {
  import opened RewindPlans
  import opened PositionLists
  import opened RecordGrouping
  import opened ConfluentConsumer

  function ToSet<T>(xs: seq<T>): set<T> {
    set x | x in xs
  }

  lemma AssignOne(owned: map<Partition, nat>, ks: seq<Partition>, k: Partition, gen: nat)
    ensures OwnedAfterAssign(owned, ToSet(ks + [k]), true, gen) == OwnedAfterAssign(owned, ToSet(ks), true,
      gen)[k := gen]
  {
    assert ToSet(ks + [k]) == ToSet(ks) + {k};
  }

  lemma AfterMarkAssigned(s: State)
    requires s.callback.Assigning?
    ensures var t := Apply(s, MarkAssigned);
      && t.known && t.gen == s.gen + 1 && t.pending == s.pending && t.revoked == s.revoked && t.closing == s.closing
      && t.owned == OwnedAfterAssign(s.owned, s.callback.ks, s.callback.cooperative, s.gen + 1)
  {
  }

  lemma KeptPlan(ps: seq<Position>, keep: Position -> bool, kept: seq<Position>, plan: Plan)
    requires UniqueKeys(ps) && FilteredBy(ps, keep, kept)
    requires forall k :: k in plan <==> k in AsPlan(ps) && keep(AsPlan(ps)[k])
    requires forall k :: k in plan ==> plan[k] == AsPlan(ps)[k]
    ensures UniqueKeys(kept) && AsPlan(kept) == plan
  {
    FilteredPlan(ps, keep, kept);
  }

  lemma SoughtPlan(pending: seq<Position>, positions: seq<Position>, keep: Position -> bool, kept: seq<Position>)
    requires UniqueKeys(pending) && UniqueKeys(positions) && FilteredBy(pending, keep, kept)
    requires forall p :: keep(p) <==> p !in positions
    ensures UniqueKeys(kept) && AsPlan(kept) == AfterSought(AsPlan(pending), AsPlan(positions))
  {
    AsPlanContents(pending);
    AsPlanContents(positions);
    KeptPlan(pending, keep, kept, AfterSought(AsPlan(pending), AsPlan(positions)));
  }

  /** The in-place filters of the revocation callback and of recording a failed seek. */
  method KeepOutside(positions: seq<Position>, revokedSet: set<Partition>) returns (kept: seq<Position>)
    requires UniqueKeys(positions)
    ensures UniqueKeys(kept) && AsPlan(kept) == Without(AsPlan(positions), revokedSet)
  {
    kept := [];
    ghost var keep := (p: Position) => p.Key() !in revokedSet;
    var i := 0;
    while i < |positions|
      invariant 0 <= i <= |positions|
      invariant FilteredBy(positions[..i], keep, kept)
    {
      var p := positions[i];
      assert positions[..i + 1] == positions[..i] + [p];
      if p.Key() !in revokedSet {
        kept := kept + [p];
      }
      i := i + 1;
    }
    assert positions[..i] == positions;
    AsPlanContents(positions);
    KeptPlan(positions, keep, kept, Without(AsPlan(positions), revokedSet));
  }

  class ConsumerFields {
    var assignmentKnown: bool
    var assignmentGeneration: nat
    var assignedPartitions: map<Partition, nat>
    var pendingRewinds: seq<Position>
    var revokedRewinds: set<Partition>
    var closed: bool

    ghost predicate Valid()
      reads this
    {
      UniqueKeys(pendingRewinds)
    }

    /** The object holds the consumer's part of a state of the step system. */
    ghost predicate Represents(s: State)
      reads this
    {
      && Valid() && assignmentKnown == s.known && assignmentGeneration == s.gen && assignedPartitions == s.owned
      && AsPlan(pendingRewinds) == s.pending && revokedRewinds == s.revoked && closed == s.closing
    }

    constructor ()
      ensures Represents(INITIAL)
    {
      assignmentKnown, assignmentGeneration, assignedPartitions := false, 0, map[];
      pendingRewinds, revokedRewinds, closed := [], {}, false;
    }

    /** markPartitionsAssigned: every partition of the callback, and no other, gets the new
        generation; an eager assignment forgets the rest. */
    method MarkPartitionsAssigned(partitions: seq<Partition>, cooperative: bool, ghost s: State)
      requires Represents(s) && s.callback == Assigning(ToSet(partitions), cooperative)
      modifies this
      ensures Represents(Apply(s, MarkAssigned))
    {
      assignmentKnown, assignmentGeneration := true, assignmentGeneration + 1;
      if !cooperative {
        assignedPartitions := map[];
      }
      AssignAll(partitions);
      AfterMarkAssigned(s);
    }

    method AssignAll(partitions: seq<Partition>)
      modifies this`assignedPartitions
      ensures assignedPartitions == OwnedAfterAssign(old(assignedPartitions), ToSet(partitions), true,
        assignmentGeneration)
    {
      ghost var start := assignedPartitions;
      assert OwnedAfterAssign(start, {}, true, assignmentGeneration) == start;
      var i := 0;
      while i < |partitions|
        invariant 0 <= i <= |partitions|
        invariant assignedPartitions == OwnedAfterAssign(start, ToSet(partitions[..i]), true, assignmentGeneration)
      {
        AssignOne(start, partitions[..i], partitions[i], assignmentGeneration);
        assert partitions[..i + 1] == partitions[..i] + [partitions[i]];
        assignedPartitions := assignedPartitions[partitions[i] := assignmentGeneration];
        i := i + 1;
      }
      assert partitions[..i] == partitions;
    }

    /** markPartitionsRevoked: an eager revocation drops everything. */
    method MarkPartitionsRevoked(partitions: seq<Partition>, cooperative: bool, ghost s: State)
      requires Represents(s)
      modifies this
      ensures Represents(Apply(s, MarkRevoked(ToSet(partitions), cooperative)))
    {
      assignmentKnown, assignmentGeneration := true, assignmentGeneration + 1;
      if !cooperative {
        assignedPartitions := map[];
        return;
      }
      var i := 0;
      while i < |partitions|
        invariant 0 <= i <= |partitions|
        invariant assignedPartitions == old(assignedPartitions) - ToSet(partitions[..i])
        invariant assignmentKnown && assignmentGeneration == s.gen + 1
        invariant pendingRewinds == old(pendingRewinds) && revokedRewinds == old(revokedRewinds) &&
          closed == old(closed)
      {
        assert ToSet(partitions[..i + 1]) == ToSet(partitions[..i]) + {partitions[i]};
        assignedPartitions := assignedPartitions - {partitions[i]};
        i := i + 1;
      }
      assert partitions[..i] == partitions;
    }

    /** beginPartitionDispatch: whether the group is given a lease. */
    method BeginPartitionDispatch(g: GroupKey, ghost s: State) returns (granted: bool)
      requires Represents(s)
      ensures granted == Admits(s, g)
    {
      if !assignmentKnown {
        return true;
      }
      if g.k !in assignedPartitions {
        return false;
      }
      granted := !(g.known && g.gen != assignedPartitions[g.k]);
    }

    /** assignmentSnapshot, taken right after a read. */
    method AssignmentSnapshot(p: Position, ghost s: State) returns (m: Message)
      requires Represents(s)
      ensures m == Snapshot(s, p)
    {
      if !assignmentKnown {
        return Message(p, false, 0);
      }
      m := Message(p, true, if p.Key() in assignedPartitions then assignedPartitions[p.Key()] else 0);
    }

    /** clearPendingRewindsForPartitions: the in-place filter of the revocation callback. */
    method ClearPendingRewindsForPartitions(partitions: seq<Partition>, cooperative: bool, ghost s: State)
      requires Represents(s) && s.callback == Revoked(ToSet(partitions), cooperative)
      modifies this
      ensures Represents(Apply(s, ClearPending))
    {
      var revokedSet := set k | k in partitions;
      assert revokedSet == ToSet(partitions);
      revokedRewinds := revokedRewinds + revokedSet;
      pendingRewinds := KeepOutside(pendingRewinds, revokedSet);
    }

    /** markRewindPartitionsAssigned. */
    method MarkRewindPartitionsAssigned(partitions: seq<Partition>, ghost s: State)
      requires Represents(s) && s.callback == Assigned(ToSet(partitions))
      modifies this
      ensures Represents(Apply(s, MarkRewindsAssigned))
    {
      var i := 0;
      while i < |partitions|
        invariant 0 <= i <= |partitions|
        invariant revokedRewinds == s.revoked - ToSet(partitions[..i])
        invariant pendingRewinds == old(pendingRewinds) && closed == s.closing
        invariant assignmentKnown == s.known && assignmentGeneration == s.gen && assignedPartitions == s.owned
      {
        assert ToSet(partitions[..i + 1]) == ToSet(partitions[..i]) + {partitions[i]};
        revokedRewinds := revokedRewinds - {partitions[i]};
        i := i + 1;
      }
      assert partitions[..i] == partitions;
    }

    /** rewindPositionsStillOwned, with the assignment the driver reports. */
    method RewindPositionsStillOwned(current: seq<Partition>, positions: seq<Position>, ghost s: State)
      returns (kept: seq<Position>)
      requires Represents(s) && ToSet(current) == s.driver.Keys && UniqueKeys(positions)
      ensures UniqueKeys(kept) && AsPlan(kept) == StillOwned(s, AsPlan(positions))
    {
      kept := [];
      ghost var keep := (p: Position) => p.Key() !in s.revoked && p.Key() in s.driver;
      var i := 0;
      while i < |positions|
        invariant 0 <= i <= |positions|
        invariant FilteredBy(positions[..i], keep, kept)
      {
        var p := positions[i];
        assert positions[..i + 1] == positions[..i] + [p];
        assert p.Key() in current <==> p.Key() in s.driver.Keys;
        if p.Key() !in revokedRewinds && p.Key() in current {
          kept := kept + [p];
        }
        i := i + 1;
      }
      assert positions[..i] == positions;
      AsPlanContents(positions);
      KeptPlan(positions, keep, kept, StillOwned(s, AsPlan(positions)));
    }

    /** The removal loop of applyPendingRewinds: only positions equal to a copied one go, so that
        what a concurrent revocation has pruned or left stays as it is. */
    method RemoveSoughtRewinds(positions: seq<Position>, ghost s: State)
      requires Represents(s) && UniqueKeys(positions) && s.phase == Sought(AsPlan(positions))
      modifies this
      ensures Represents(Apply(s, RemoveSought))
    {
      var kept: seq<Position> := [];
      ghost var keep := (p: Position) => p !in positions;
      var i := 0;
      while i < |pendingRewinds|
        invariant 0 <= i <= |pendingRewinds|
        invariant FilteredBy(pendingRewinds[..i], keep, kept)
      {
        var p := pendingRewinds[i];
        assert pendingRewinds[..i + 1] == pendingRewinds[..i] + [p];
        var handled, j := false, 0;
        while j < |positions| && !handled
          invariant 0 <= j <= |positions|
          invariant handled ==> p in positions
          invariant !handled ==> p !in positions[..j]
        {
          handled := p == positions[j];
          j := j + 1;
        }
        if !handled {
          kept := kept + [p];
        }
        i := i + 1;
      }
      assert pendingRewinds[..i] == pendingRewinds;
      SoughtPlan(pendingRewinds, positions, keep, kept);
      pendingRewinds := kept;
    }

    /** The critical section of prepareHandlerRunRetry after a failed seek: partitions revoked in
        the meantime are left out, and a closed consumer records nothing. */
    method RecordPendingRewinds(positions: seq<Position>, ghost s: State)
      requires Represents(s) && UniqueKeys(positions) && s.phase == Unsought(AsPlan(positions))
      modifies this
      ensures Represents(Apply(s, RecordPending))
    {
      if closed {
        return;
      }
      var kept := KeepOutside(positions, revokedRewinds);
      CollectIsRemember(AsPlan(pendingRewinds), kept);
      pendingRewinds := MergePositions(pendingRewinds, kept);
    }
  }

  /** groupConfluentBatchMessagesWithAssignments: one group per partition and generation. */
  method GroupMessages(messages: seq<Message>) returns (groups: seq<seq<Message>>)
    ensures Grouped(messages, GroupKeyOf, groups)
  {
    groups := GroupBy(messages, GroupKeyOf);
  }

  // ------------------------------------------------------------------------
  // Judging the driver's answer to a seek
  // ------------------------------------------------------------------------

  datatype SeekResult = SeekResult(k: Partition, failed: bool)

  /** The answer names every requested partition once, and nothing else, without an error. */
  ghost predicate Exact(positions: seq<Position>, answers: seq<SeekResult>) {
    && (forall i :: 0 <= i < |answers| ==> !answers[i].failed && answers[i].k in KeysOf(positions))
    && (forall i, j :: 0 <= i < j < |answers| ==> answers[i].k != answers[j].k)
    && (forall k :: k in KeysOf(positions) ==> exists i :: 0 <= i < |answers| && answers[i].k == k)
  }

  /** seekConfluentPositions accepts the driver's answer exactly when it is exact. */
  method SeekAccepted(positions: seq<Position>, answers: seq<SeekResult>) returns (accepted: bool)
    requires UniqueKeys(positions)
    ensures accepted <==> Exact(positions, answers)
  {
    if |answers| != |positions| {
      ghost var exact := Exact(positions, answers);
      if exact {
        ExactCounts(positions, answers);
      }
      return false;
    }
    var waiting := set i | 0 <= i < |positions| :: positions[i].Key();
    var i := 0;
    while i < |answers|
      invariant 0 <= i <= |answers|
      invariant forall j :: 0 <= j < i ==> !answers[j].failed && answers[j].k in KeysOf(positions)
      invariant forall j, n :: 0 <= j < n < i ==> answers[j].k != answers[n].k
      invariant forall k :: k in waiting <==> k in KeysOf(positions) && forall j :: 0 <= j < i ==> answers[j].k != k
    {
      if answers[i].failed || answers[i].k !in waiting {
        return false;
      }
      waiting := waiting - {answers[i].k};
      i := i + 1;
    }
    accepted := waiting == {};
    assert !accepted ==> exists k :: k in waiting;
  }

  lemma {:induction false} DistinctCount<T>(xs: seq<T>)
    requires forall i, j :: 0 <= i < j < |xs| ==> xs[i] != xs[j]
    ensures |ToSet(xs)| == |xs|
  {
    if xs != [] {
      var front, last := xs[..|xs| - 1], xs[|xs| - 1];
      DistinctCount(front);
      assert last !in front;
      assert ToSet(xs) == ToSet(front) + {last};
    }
  }

  lemma ExactCounts(positions: seq<Position>, answers: seq<SeekResult>)
    requires UniqueKeys(positions) && Exact(positions, answers)
    ensures |answers| == |positions|
  {
    var asked := seq(|positions|, i requires 0 <= i < |positions| => positions[i].Key());
    var answered := seq(|answers|, i requires 0 <= i < |answers| => answers[i].k);
    DistinctCount(asked);
    DistinctCount(answered);
    forall k
      ensures k in ToSet(asked) <==> k in ToSet(answered)
    {
      if k in ToSet(asked) {
        var i :| 0 <= i < |asked| && asked[i] == k;
        assert positions[i].Key() in KeysOf(positions);
        var j :| 0 <= j < |answers| && answers[j].k == k;
        assert answered[j] == k;
      }
      if k in ToSet(answered) {
        var i :| 0 <= i < |answered| && answered[i] == k;
        var j :| 0 <= j < |positions| && positions[j].Key() == answers[i].k;
        assert asked[j] == k;
      }
    }
    assert ToSet(asked) == ToSet(answered);
  }
}
