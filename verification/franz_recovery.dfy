/** The in-memory side of FranzConsumer: the pendingRecovery list and the loops over it, proved
    against the maps the step system uses. */
module FranzRecovery {
  import opened Options
  import opened RewindPlans
  import opened PositionLists
  import opened PartitionWorkers
  import opened FranzConsumer
  import opened RecordGrouping

  /** Committed offsets among the offsets of an assignment; a negative offset is symbolic. */
  function CommittedIn(offsets: map<Partition, int>): map<Partition, int> {
    map k | k in offsets && offsets[k] >= 0 :: offsets[k]
  }

  /** The offsets after the loop has seen `ps`: only symbolic ones of their partitions changed. */
  ghost predicate AdjustedBy(ps: seq<Position>, offsets: map<Partition, int>, result: map<Partition, int>) {
    && result.Keys == offsets.Keys
    && (forall p :: p in ps && p.Key() in offsets && offsets[p.Key()] < 0 ==> result[p.Key()] == p.offset)
    && (forall k :: k in offsets && (offsets[k] >= 0 || k !in KeysOf(ps)) ==> result[k] == offsets[k])
  }

  lemma NotAdjustedYet(ps: seq<Position>, i: nat, offsets: map<Partition, int>, result: map<Partition, int>)
    requires UniqueKeys(ps) && i < |ps| && AdjustedBy(ps[..i], offsets, result)
    ensures ps[i].Key() !in KeysOf(ps[..i])
    ensures ps[i].Key() in offsets ==> result[ps[i].Key()] == offsets[ps[i].Key()]
  {
    forall j | 0 <= j < i
      ensures ps[..i][j].Key() != ps[i].Key()
    {
    }
  }

  lemma AdjustNext(ps: seq<Position>, p: Position, offsets: map<Partition, int>, result: map<Partition, int>)
    requires AdjustedBy(ps, offsets, result) && p.Key() !in KeysOf(ps)
    ensures p.Key() in offsets && offsets[p.Key()] < 0 ==> AdjustedBy(ps + [p], offsets, result[p.Key() := p.offset])
    ensures !(p.Key() in offsets && offsets[p.Key()] < 0) ==> AdjustedBy(ps + [p], offsets, result)
  {
    var next := if p.Key() in offsets && offsets[p.Key()] < 0 then result[p.Key() := p.offset] else result;
    assert KeysOf(ps + [p]) == KeysOf(ps) + {p.Key()} by {
      forall k | k in KeysOf(ps) + {p.Key()}
        ensures k in KeysOf(ps + [p])
      {
        if k in KeysOf(ps) {
          var i :| 0 <= i < |ps| && ps[i].Key() == k;
          assert (ps + [p])[i].Key() == k;
        } else {
          assert (ps + [p])[|ps|].Key() == k;
        }
      }
    }
    forall q | q in ps + [p] && q.Key() in offsets && offsets[q.Key()] < 0
      ensures next[q.Key()] == q.offset
    {
      if q in ps {
        var i :| 0 <= i < |ps| && ps[i] == q;
        assert q.Key() in KeysOf(ps);
      }
    }
  }

  lemma AdjustedStarts(ps: seq<Position>, offsets: map<Partition, int>, result: map<Partition, int>)
    requires UniqueKeys(ps) && AdjustedBy(ps, offsets, result)
    ensures forall k :: k in offsets ==> result[k] == StartOffset(AsPlan(ps), CommittedIn(offsets), k, offsets[k])
  {
    AsPlanContents(ps);
    forall k | k in offsets
      ensures result[k] == StartOffset(AsPlan(ps), CommittedIn(offsets), k, offsets[k])
    {
      if k in AsPlan(ps) {
        assert AsPlan(ps)[k] in ps;
      }
    }
  }

  lemma KeptAfterAssign(ps: seq<Position>, offsets: map<Partition, int>, keep: Position -> bool, kept: seq<Position>)
    requires UniqueKeys(ps) && FilteredBy(ps, keep, kept)
    requires forall p :: keep(p) <==> !(p.Key() in offsets && offsets[p.Key()] >= 0 && offsets[p.Key()] >= p.offset)
    ensures UniqueKeys(kept) && AsPlan(kept) == KeptOnAssign(AsPlan(ps), CommittedIn(offsets), offsets.Keys)
  {
    FilteredPlan(ps, keep, kept);
    AsPlanContents(ps);
  }

  class RecoveryState {
    var pendingRecovery: seq<Position>
    var closed: bool

    ghost predicate Valid()
      reads this
    {
      UniqueKeys(pendingRecovery)
    }

    ghost function Pending(): Plan
      requires Valid()
      reads this
    {
      AsPlan(pendingRecovery)
    }

    constructor ()
      ensures Valid() && Pending() == map[] && !closed
    {
      pendingRecovery, closed := [], false;
    }

    /** rememberRecoveryPositions, for the list prepareTransientRunRetry takes from a plan. */
    method RememberRecoveryPositions(positions: seq<Position>)
      requires Valid() && UniqueKeys(positions)
      modifies this
      ensures Valid() && closed == old(closed)
      ensures Pending() == if closed then old(Pending()) else Remember(old(Pending()), AsPlan(positions))
    {
      if !closed {
        CollectIsRemember(Pending(), positions);
        pendingRecovery := MergePositions(pendingRecovery, positions);
      }
    }

    /** completeRecoveryPosition: the in-place filter keeps other partitions and later offsets. */
    method CompleteRecoveryPosition(completed: Position)
      requires Valid()
      modifies this
      ensures Valid() && closed == old(closed)
      ensures Pending() == Complete(old(Pending()), completed)
    {
      var kept: seq<Position> := [];
      ghost var unresolved := (p: Position) => !(p.Key() == completed.Key() && p.offset <= completed.offset);
      var i := 0;
      while i < |pendingRecovery|
        invariant 0 <= i <= |pendingRecovery|
        invariant pendingRecovery == old(pendingRecovery) && closed == old(closed)
        invariant FilteredBy(pendingRecovery[..i], unresolved, kept)
      {
        var p := pendingRecovery[i];
        assert pendingRecovery[..i + 1] == pendingRecovery[..i] + [p];
        if p.topic != completed.topic || p.partition != completed.partition || p.offset > completed.offset {
          kept := kept + [p];
        }
        i := i + 1;
      }
      assert pendingRecovery[..i] == pendingRecovery;
      FilteredPlan(pendingRecovery, unresolved, kept);
      pendingRecovery := kept;
    }

    /** adjustRecoveryOffsets: an ended context changes nothing; otherwise a real committed offset
        is preserved, a symbolic one is replaced by the remembered position of its partition, and
        remembered positions that a committed offset has reached are forgotten. */
    method AdjustRecoveryOffsets(ended: bool, offsets: map<Partition, int>)
      returns (adjusted: Option<map<Partition, int>>)
      requires Valid()
      modifies this
      ensures Valid() && closed == old(closed)
      ensures ended ==> adjusted == None && Pending() == old(Pending())
      ensures !ended ==> adjusted.Some? && adjusted.value.Keys == offsets.Keys
      ensures !ended ==>
        forall k ::
          k in offsets ==> adjusted.value[k] == StartOffset(old(Pending()), CommittedIn(offsets), k, offsets[k])
      ensures !ended ==> Pending() == KeptOnAssign(old(Pending()), CommittedIn(offsets), offsets.Keys)
    {
      if ended {
        return None;
      }
      var kept: seq<Position> := [];
      var result := offsets;
      var i := 0;
      ghost var keep := (p: Position) => !(p.Key() in offsets && offsets[p.Key()] >= 0 && offsets[p.Key()] >= p.offset);
      while i < |pendingRecovery|
        invariant 0 <= i <= |pendingRecovery|
        invariant pendingRecovery == old(pendingRecovery) && closed == old(closed)
        invariant FilteredBy(pendingRecovery[..i], keep, kept)
        invariant AdjustedBy(pendingRecovery[..i], offsets, result)
      {
        var p := pendingRecovery[i];
        assert pendingRecovery[..i + 1] == pendingRecovery[..i] + [p];
        NotAdjustedYet(pendingRecovery, i, offsets, result);
        AdjustNext(pendingRecovery[..i], p, offsets, result);
        var k := p.Key();
        var done := false;
        if k in result {
          var committed := result[k];
          if committed >= 0 {
            done := committed >= p.offset;
          } else {
            result := result[k := p.offset];
          }
        }
        if !done {
          kept := kept + [p];
        }
        i := i + 1;
      }
      assert pendingRecovery[..i] == pendingRecovery;
      AdjustedStarts(pendingRecovery, offsets, result);
      KeptAfterAssign(pendingRecovery, offsets, keep, kept);
      pendingRecovery := kept;
      adjusted := Some(result);
    }
  }

  /** groupKafkaJSRecords: one group per partition, each in fetch order. */
  method GroupRecords(records: seq<Record>) returns (groups: seq<seq<Record>>)
    ensures Grouped(records, (r: Record) => r.position.Key(), groups)
  {
    groups := GroupBy(records, (r: Record) => r.position.Key());
  }

  /** prepareTransientRunRetry reads the failed wave's plan and remembers it: the recovery state
      afterwards is exactly the step system's. */
  method RememberFailedWave(state: RecoveryState, err: Error) returns (rewound: seq<Position>)
    requires state.Valid() && !state.closed && Decided(err)
    modifies state
    ensures state.Valid() && state.Pending() == Remember(old(state.Pending()), PlanOf(err))
    ensures UniqueKeys(rewound) && AsPlan(rewound) == PlanOf(err)
  {
    var decided;
    rewound, decided := ConsumerRewindPositions(err);
    if |rewound| > 0 {
      state.RememberRecoveryPositions(rewound);
    } else {
      assert AsPlan(rewound) == map[];
      assert Remember(state.Pending(), map[]) == state.Pending();
    }
  }
}
