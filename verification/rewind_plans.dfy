/** Error trees of a consumer run and the rewind plan read from them
    (kafka/consumer.go, and mergeConsumerRewindPositions of kafka/confluent.go).

    A failed wave reports one error per partition worker. Some nodes of that tree
    are planning nodes: they say, possibly with an empty list, which positions have
    to be read again. The plan is the earliest position per partition over the
    outermost planning nodes. */
module RewindPlans {
  import opened Options
  import opened Lexical

  datatype Partition = Partition(topic: string, number: int)

  datatype Position = Position(topic: string, partition: int, offset: int, leaderEpoch: int) {
    function Key(): Partition {
      Partition(topic, partition)
    }
  }

  datatype Error =
    | Nil                                                     // the nil error
    | Plain(id: nat)                                          // no Unwrap method
    | Wrapped(inner: Error)                                   // Unwrap() error, possibly nil
    | Joined(children: seq<Error>)                            // Unwrap() []error
    | Transient(cause: Error)                                 // TransientConsumerError
    | HandlerFailed(cause: Error, failed: Option<Position>)   // consumerHandlerError
    | RewindTo(cause: Error, position: Position)              // consumerRewindError
    | WorkerAborted(next: Option<Position>)                   // consumerWorkerAbortedError
    | PollRewind(cause: Error, positions: seq<Position>)      // kafkaJSPollRewindError

  const ABORTED := Plain(0)

  // ------------------------------------------------------------------------
  // Planning nodes
  // ------------------------------------------------------------------------

  predicate IsPlanner(err: Error) {
    err.HandlerFailed? || err.RewindTo? || err.WorkerAborted? || err.PollRewind?
  }

  function PlannedHere(err: Error): seq<Position>
    requires IsPlanner(err)
  {
    match err
    case HandlerFailed(_, failed) => if failed.Some? then [failed.value] else []
    case RewindTo(_, position) => [position]
    case WorkerAborted(next) => if next.Some? then [next.value] else []
    case PollRewind(_, positions) => positions
  }

  /** Positions of the outermost planning nodes, in the order the walk meets them. */
  function Outermost(err: Error): seq<Position> {
    if IsPlanner(err) then PlannedHere(err)
    else match err
      case Nil => []
      case Plain(_) => []
      case Wrapped(inner) => Outermost(inner)
      case Transient(cause) => Outermost(cause)
      case Joined(children) => OutermostOfAll(children)
  }

  function OutermostOfAll(children: seq<Error>): seq<Position> {
    if children == [] then [] else Outermost(children[0]) + OutermostOfAll(children[1..])
  }

  /** Whether some layer has made a rewind decision, even the decision to rewind nothing. */
  predicate Decided(err: Error) {
    if IsPlanner(err) then true
    else match err
      case Nil => false
      case Plain(_) => false
      case Wrapped(inner) => Decided(inner)
      case Transient(cause) => Decided(cause)
      case Joined(children) => exists i :: 0 <= i < |children| && Decided(children[i])
  }

  // ------------------------------------------------------------------------
  // Plans as maps
  // ------------------------------------------------------------------------

  type Plan = map<Partition, Position>

  /** Keeps the earliest offset per partition; on a tie the position met first stays. */
  function MinInto(plan: Plan, p: Position): Plan {
    if p.Key() in plan && plan[p.Key()].offset <= p.offset then plan else plan[p.Key() := p]
  }

  function Collect(plan: Plan, ps: seq<Position>): Plan
    decreases ps
  {
    if ps == [] then plan else Collect(MinInto(plan, ps[0]), ps[1..])
  }

  function PlanOf(err: Error): Plan {
    Collect(map[], Outermost(err))
  }

  function Offsets(plan: Plan): map<Partition, int> {
    map k | k in plan :: plan[k].offset
  }

  ghost predicate UniqueKeys(ps: seq<Position>) {
    forall i, j :: 0 <= i < j < |ps| ==> ps[i].Key() != ps[j].Key()
  }

  /** The plan a list of positions with distinct partitions stands for. */
  ghost function AsPlan(ps: seq<Position>): Plan
    requires UniqueKeys(ps)
  {
    map k | k in KeysOf(ps) :: PositionOf(ps, k)
  }

  function KeysOf(ps: seq<Position>): set<Partition> {
    set i | 0 <= i < |ps| :: ps[i].Key()
  }

  ghost function PositionOf(ps: seq<Position>, k: Partition): Position
    requires k in KeysOf(ps)
  {
    var i :| 0 <= i < |ps| && ps[i].Key() == k;
    ps[i]
  }

  ghost predicate Keyed(plan: Plan) {
    forall k :: k in plan ==> plan[k].Key() == k
  }

  lemma AsPlanContents(ps: seq<Position>)
    requires UniqueKeys(ps)
    ensures Keyed(AsPlan(ps))
    ensures forall i :: 0 <= i < |ps| ==> ps[i].Key() in AsPlan(ps) && AsPlan(ps)[ps[i].Key()] == ps[i]
    ensures forall k :: k in AsPlan(ps) ==> AsPlan(ps)[k] in ps
  {
    forall i | 0 <= i < |ps|
      ensures ps[i].Key() in AsPlan(ps) && AsPlan(ps)[ps[i].Key()] == ps[i]
    {
    }
  }

  lemma AsPlanByMembers(ps: seq<Position>, plan: Plan)
    requires UniqueKeys(ps)
    requires forall i :: 0 <= i < |ps| ==> ps[i].Key() in plan && plan[ps[i].Key()] == ps[i]
    requires forall k :: k in plan ==> exists i :: 0 <= i < |ps| && ps[i].Key() == k
    ensures AsPlan(ps) == plan
  {
    AsPlanContents(ps);
  }

  lemma {:induction false} CollectAppend(plan: Plan, a: seq<Position>, b: seq<Position>)
    ensures Collect(plan, a + b) == Collect(Collect(plan, a), b)
    decreases a
  {
    if a == [] {
      assert a + b == b;
    } else {
      assert (a + b)[1..] == a[1..] + b;
      CollectAppend(MinInto(plan, a[0]), a[1..], b);
    }
  }

  /** Where a collected position comes from, and that nothing collected is earlier. */
  lemma {:induction false} CollectIsMinimum(plan: Plan, ps: seq<Position>)
    requires Keyed(plan)
    ensures Keyed(Collect(plan, ps))
    ensures forall k :: k in Collect(plan, ps) <==> k in plan || exists p :: p in ps && p.Key() == k
    ensures forall k :: k in Collect(plan, ps) ==>
      (k in plan && Collect(plan, ps)[k] == plan[k]) || Collect(plan, ps)[k] in ps
    ensures forall k :: k in plan ==> Collect(plan, ps)[k].offset <= plan[k].offset
    ensures forall p :: p in ps ==> Collect(plan, ps)[p.Key()].offset <= p.offset
    decreases ps
  {
    if ps != [] {
      var next := MinInto(plan, ps[0]);
      CollectIsMinimum(next, ps[1..]);
      assert ps == [ps[0]] + ps[1..];
      forall p | p in ps
        ensures p.Key() in Collect(plan, ps) && Collect(plan, ps)[p.Key()].offset <= p.offset
      {
        assert p == ps[0] || p in ps[1..];
      }
    }
  }

  /** The plan of an error tree is the pointwise minimum over its outermost planning nodes. */
  lemma PlanIsPointwiseMinimum(err: Error)
    ensures Keyed(PlanOf(err))
    ensures forall k :: k in PlanOf(err) <==> exists p :: p in Outermost(err) && p.Key() == k
    ensures forall k :: k in PlanOf(err) ==> PlanOf(err)[k] in Outermost(err)
    ensures forall p :: p in Outermost(err) ==> PlanOf(err)[p.Key()].offset <= p.offset
  {
    CollectIsMinimum(map[], Outermost(err));
  }

  // ------------------------------------------------------------------------
  // Collecting the plan
  // ------------------------------------------------------------------------

  lemma ReplaceAt(ps: seq<Position>, i: nat, p: Position)
    requires UniqueKeys(ps) && i < |ps| && ps[i].Key() == p.Key()
    ensures UniqueKeys(ps[i := p])
    ensures AsPlan(ps[i := p]) == AsPlan(ps)[p.Key() := p]
  {
    var plan, qs := AsPlan(ps)[p.Key() := p], ps[i := p];
    AsPlanContents(ps);
    forall k | k in plan
      ensures exists j :: 0 <= j < |qs| && qs[j].Key() == k
    {
      if k == p.Key() {
        assert qs[i] == p;
      } else {
        var j :| 0 <= j < |ps| && ps[j] == AsPlan(ps)[k];
        assert qs[j] == ps[j];
      }
    }
    AsPlanByMembers(qs, plan);
  }

  /** The `add` step: a linear search for the partition, replaced only by an earlier offset. */
  method Add(positions: seq<Position>, p: Position) returns (result: seq<Position>)
    requires UniqueKeys(positions)
    ensures UniqueKeys(result)
    ensures AsPlan(result) == MinInto(AsPlan(positions), p)
  {
    AsPlanContents(positions);
    var i := 0;
    while i < |positions|
      invariant 0 <= i <= |positions|
      invariant forall j :: 0 <= j < i ==> positions[j].Key() != p.Key()
    {
      if positions[i].topic == p.topic && positions[i].partition == p.partition {
        if p.offset < positions[i].offset {
          ReplaceAt(positions, i, p);
          return positions[i := p];
        }
        return positions;
      }
      i := i + 1;
    }
    result := positions + [p];
    AppendNew(positions, p);
  }

  lemma AppendNew(ps: seq<Position>, p: Position)
    requires UniqueKeys(ps)
    requires forall i :: 0 <= i < |ps| ==> ps[i].Key() != p.Key()
    ensures UniqueKeys(ps + [p])
    ensures p.Key() !in AsPlan(ps)
    ensures AsPlan(ps + [p]) == AsPlan(ps)[p.Key() := p]
  {
    var plan := AsPlan(ps)[p.Key() := p];
    AsPlanContents(ps);
    forall k | k in plan
      ensures exists i :: 0 <= i < |ps + [p]| && (ps + [p])[i].Key() == k
    {
      if k == p.Key() {
        assert (ps + [p])[|ps|] == p;
      } else {
        var i :| 0 <= i < |ps| && ps[i] == AsPlan(ps)[k];
        assert (ps + [p])[i] == ps[i];
      }
    }
    AsPlanByMembers(ps + [p], plan);
  }

  /** mergeConsumerRewindPositions: keeps the earliest offset per partition. */
  method MergePositions(current: seq<Position>, added: seq<Position>) returns (merged: seq<Position>)
    requires UniqueKeys(current)
    ensures UniqueKeys(merged)
    ensures AsPlan(merged) == Collect(AsPlan(current), added)
  {
    merged := current;
    var i := 0;
    while i < |added|
      invariant 0 <= i <= |added|
      invariant UniqueKeys(merged)
      invariant AsPlan(merged) == Collect(AsPlan(current), added[..i])
    {
      merged := Add(merged, added[i]);
      assert added[..i + 1] == added[..i] + [added[i]];
      CollectAppend(AsPlan(current), added[..i], [added[i]]);
      i := i + 1;
    }
    assert added[..i] == added;
  }

  /** The recursive walk: it stops at a planning node and looks through every other wrapper. */
  method Walk(current: Error, positions: seq<Position>, decided: bool)
    returns (positions': seq<Position>, decided': bool)
    requires UniqueKeys(positions)
    ensures UniqueKeys(positions')
    ensures AsPlan(positions') == Collect(AsPlan(positions), Outermost(current))
    ensures decided' == (decided || Decided(current))
    decreases current
  {
    positions', decided' := positions, decided;
    if IsPlanner(current) {
      decided' := true;
      positions' := MergePositions(positions, PlannedHere(current));
      return;
    }
    match current
    case Joined(children) =>
      var i := 0;
      while i < |children|
        invariant 0 <= i <= |children|
        invariant UniqueKeys(positions')
        invariant AsPlan(positions') == Collect(AsPlan(positions), OutermostOfAll(children[..i]))
        invariant decided' == (decided || exists j :: 0 <= j < i && Decided(children[j]))
      {
        positions', decided' := Walk(children[i], positions', decided');
        assert children[..i + 1] == children[..i] + [children[i]];
        OutermostAppend(children[..i], [children[i]]);
        assert OutermostOfAll([children[i]]) == Outermost(children[i]);
        CollectAppend(AsPlan(positions), OutermostOfAll(children[..i]), Outermost(children[i]));
        i := i + 1;
      }
      assert children[..i] == children;
    case Wrapped(inner) =>
      positions', decided' := Walk(inner, positions', decided');
    case Transient(cause) =>
      positions', decided' := Walk(cause, positions', decided');
    case _ =>
  }

  lemma {:induction false} OutermostAppend(a: seq<Error>, b: seq<Error>)
    ensures OutermostOfAll(a + b) == OutermostOfAll(a) + OutermostOfAll(b)
  {
    if a == [] {
      assert a + b == b;
    } else {
      assert (a + b)[1..] == a[1..] + b;
      OutermostAppend(a[1..], b);
    }
  }

  // ------------------------------------------------------------------------
  // The order of the result
  // ------------------------------------------------------------------------

  predicate Before(a: Position, b: Position) {
    if a.topic != b.topic then StringBefore(a.topic, b.topic) else a.partition < b.partition
  }

  lemma BeforeTotal(a: Position, b: Position)
    ensures a.Key() != b.Key() ==> (Before(a, b) <==> !Before(b, a))
    ensures a.Key() == b.Key() ==> !Before(a, b)
  {
    StringBeforeTotal(a.topic, b.topic);
  }

  lemma BeforeTransitive(a: Position, b: Position, c: Position)
    requires Before(a, b) && Before(b, c)
    ensures Before(a, c)
  {
    StringBeforeTotal(a.topic, b.topic);
    StringBeforeTotal(b.topic, c.topic);
    if a.topic != b.topic && b.topic != c.topic {
      StringBeforeTransitive(a.topic, b.topic, c.topic);
      StringBeforeTotal(a.topic, c.topic);
    }
  }

  ghost predicate Sorted(ps: seq<Position>) {
    forall i, j :: 0 <= i < j < |ps| ==> Before(ps[i], ps[j])
  }

  /** A sorted list with given contents is unique, so the order of the reports cannot show. */
  lemma {:induction false} SortedIsCanonical(a: seq<Position>, b: seq<Position>)
    requires UniqueKeys(a) && UniqueKeys(b) && Sorted(a) && Sorted(b)
    requires forall p :: p in a <==> p in b
    ensures a == b
    decreases |a|
  {
    if a == [] {
      if b != [] {
        FirstIsMember(b);
        assert false;
      }
    } else {
      assert a[0] in b;
      SameFirst(a, b);
      forall p | p in a[1..] || p in b[1..]
        ensures p in a[1..] && p in b[1..]
      {
        NotFirst(a, p);
        NotFirst(b, p);
      }
      TailSorted(a);
      TailSorted(b);
      SortedIsCanonical(a[1..], b[1..]);
      assert a == [a[0]] + a[1..] && b == [b[0]] + b[1..];
    }
  }

  lemma FirstIsMember(ps: seq<Position>)
    requires ps != []
    ensures ps[0] in ps
  {
  }

  lemma SameFirst(a: seq<Position>, b: seq<Position>)
    requires a != [] && b != [] && Sorted(a) && Sorted(b)
    requires forall p :: p in a <==> p in b
    ensures a[0] == b[0]
  {
    assert b[0] in a && a[0] in b;
    var i :| 0 <= i < |a| && a[i] == b[0];
    var j :| 0 <= j < |b| && b[j] == a[0];
    if i != 0 && j != 0 {
      assert Before(a[0], a[i]) && Before(b[0], b[j]);
      BeforeTotal(a[0], b[0]);
      assert false;
    }
  }

  lemma NotFirst(ps: seq<Position>, p: Position)
    requires ps != [] && Sorted(ps)
    ensures p in ps[1..] <==> p in ps && p != ps[0]
  {
    assert ps == [ps[0]] + ps[1..];
    if p in ps[1..] {
      var i :| 0 <= i < |ps| - 1 && ps[1..][i] == p;
      assert Before(ps[0], ps[i + 1]);
      BeforeTotal(ps[0], p);
    }
  }

  lemma TailSorted(ps: seq<Position>)
    requires ps != [] && Sorted(ps) && UniqueKeys(ps)
    ensures Sorted(ps[1..]) && UniqueKeys(ps[1..])
  {
    forall i, j | 0 <= i < j < |ps[1..]|
      ensures Before(ps[1..][i], ps[1..][j]) && ps[1..][i].Key() != ps[1..][j].Key()
    {
      assert Before(ps[i + 1], ps[j + 1]) && ps[i + 1].Key() != ps[j + 1].Key();
    }
  }

  /** sort.Slice by topic and partition. */
  method SortByPartition(ps: seq<Position>) returns (sorted: seq<Position>)
    requires UniqueKeys(ps)
    ensures UniqueKeys(sorted) && Sorted(sorted)
    ensures multiset(sorted) == multiset(ps)
    ensures AsPlan(sorted) == AsPlan(ps)
  {
    sorted := [];
    var i := 0;
    while i < |ps|
      invariant 0 <= i <= |ps|
      invariant Sorted(sorted)
      invariant multiset(sorted) == multiset(ps[..i])
    {
      var at := 0;
      while at < |sorted| && Before(sorted[at], ps[i])
        invariant 0 <= at <= |sorted|
        invariant forall k :: 0 <= k < at ==> Before(sorted[k], ps[i])
      {
        at := at + 1;
      }
      assert ps[..i + 1] == ps[..i] + [ps[i]];
      assert sorted == sorted[..at] + sorted[at..];
      NewKey(ps, i, sorted);
      InsertSorted(sorted, at, ps[i]);
      sorted := sorted[..at] + [ps[i]] + sorted[at..];
      i := i + 1;
    }
    assert ps[..i] == ps;
    SortedHasUniqueKeys(sorted);
    SameMembersSamePlan(sorted, ps);
  }

  lemma NewKey(ps: seq<Position>, i: nat, sorted: seq<Position>)
    requires UniqueKeys(ps) && i < |ps| && multiset(sorted) == multiset(ps[..i])
    ensures forall k :: 0 <= k < |sorted| ==> sorted[k].Key() != ps[i].Key()
  {
    forall k | 0 <= k < |sorted|
      ensures sorted[k].Key() != ps[i].Key()
    {
      assert sorted[k] in multiset(ps[..i]);
      var j :| 0 <= j < i && ps[..i][j] == sorted[k];
      assert ps[j].Key() != ps[i].Key();
    }
  }

  lemma InsertSorted(sorted: seq<Position>, at: nat, p: Position)
    requires Sorted(sorted) && at <= |sorted|
    requires forall k :: 0 <= k < |sorted| ==> sorted[k].Key() != p.Key()
    requires forall k :: 0 <= k < at ==> Before(sorted[k], p)
    requires at < |sorted| ==> !Before(sorted[at], p)
    ensures Sorted(sorted[..at] + [p] + sorted[at..])
  {
    forall k | at <= k < |sorted|
      ensures Before(p, sorted[k])
    {
      BeforeTotal(sorted[at], p);
      if at < k {
        BeforeTransitive(p, sorted[at], sorted[k]);
      }
    }
  }

  lemma SortedHasUniqueKeys(ps: seq<Position>)
    requires Sorted(ps)
    ensures UniqueKeys(ps)
  {
    forall i, j | 0 <= i < j < |ps|
      ensures ps[i].Key() != ps[j].Key()
    {
      assert Before(ps[i], ps[j]);
      BeforeTotal(ps[i], ps[j]);
    }
  }

  lemma SameMembersSamePlan(a: seq<Position>, b: seq<Position>)
    requires UniqueKeys(a) && UniqueKeys(b) && multiset(a) == multiset(b)
    ensures AsPlan(a) == AsPlan(b)
  {
    assert forall p :: p in a <==> p in multiset(a);
    assert forall p :: p in b <==> p in multiset(b);
    AsPlanContents(a);
    AsPlanContents(b);
    forall i | 0 <= i < |a|
      ensures a[i].Key() in AsPlan(b) && AsPlan(b)[a[i].Key()] == a[i]
    {
      assert a[i] in b;
    }
    forall k | k in AsPlan(b)
      ensures exists i :: 0 <= i < |a| && a[i].Key() == k
    {
      assert AsPlan(b)[k] in a;
    }
    AsPlanByMembers(a, AsPlan(b));
  }

  /** consumerRewindPositions: the canonical listing of the plan, and whether one was decided. */
  method ConsumerRewindPositions(err: Error) returns (positions: seq<Position>, decided: bool)
    ensures UniqueKeys(positions) && Sorted(positions)
    ensures AsPlan(positions) == PlanOf(err)
    ensures decided == Decided(err)
  {
    if err.Nil? {
      return [], false;
    }
    positions, decided := Walk(err, [], false);
    positions := SortByPartition(positions);
  }

  // ------------------------------------------------------------------------
  // Independence of the order in which workers report
  // ------------------------------------------------------------------------

  lemma {:induction false} OutermostOfAllMembers(children: seq<Error>, p: Position)
    ensures p in OutermostOfAll(children) <==> exists c :: c in children && p in Outermost(c)
  {
    if children != [] {
      OutermostOfAllMembers(children[1..], p);
      if p in Outermost(children[0]) {
        assert children[0] in children;
      }
      if c :| c in children[1..] && p in Outermost(c) {
        assert c in children;
      }
      assert forall c :: c in children <==> c == children[0] || c in children[1..];
    }
  }

  /** Reordering the joined worker errors never changes a planned offset. */
  lemma PlanIgnoresReportOrder(reports: seq<Error>, reordered: seq<Error>)
    requires multiset(reports) == multiset(reordered)
    ensures Offsets(PlanOf(Joined(reports))) == Offsets(PlanOf(Joined(reordered)))
    ensures Decided(Joined(reports)) == Decided(Joined(reordered))
  {
    assert forall c :: c in reports <==> c in multiset(reports);
    assert forall c :: c in reordered <==> c in multiset(reordered);
    forall p
      ensures p in Outermost(Joined(reports)) <==> p in Outermost(Joined(reordered))
    {
      OutermostOfAllMembers(reports, p);
      OutermostOfAllMembers(reordered, p);
    }
    PlanIsPointwiseMinimum(Joined(reports));
    PlanIsPointwiseMinimum(Joined(reordered));
    MinimumByMembers(Outermost(Joined(reports)), Outermost(Joined(reordered)), PlanOf(Joined(reports)),
      PlanOf(Joined(reordered)));
    assert Decided(Joined(reports)) <==> exists c :: c in reports && Decided(c);
    assert Decided(Joined(reordered)) <==> exists c :: c in reordered && Decided(c);
  }

  /** The plan of joined reports is at or below each report's own plan, and has nothing else. */
  lemma JoinedPlan(reports: seq<Error>)
    ensures Keyed(PlanOf(Joined(reports)))
    ensures forall i, k :: 0 <= i < |reports| && k in PlanOf(reports[i]) ==>
      k in PlanOf(Joined(reports)) && PlanOf(Joined(reports))[k].offset <= PlanOf(reports[i])[k].offset
    ensures forall k :: k in PlanOf(Joined(reports)) ==> exists i :: 0 <= i < |reports| && k in PlanOf(reports[i])
  {
    PlanIsPointwiseMinimum(Joined(reports));
    forall i, k | 0 <= i < |reports| && k in PlanOf(reports[i])
      ensures k in PlanOf(Joined(reports)) && PlanOf(Joined(reports))[k].offset <= PlanOf(reports[i])[k].offset
    {
      PlanIsPointwiseMinimum(reports[i]);
      var p := PlanOf(reports[i])[k];
      assert reports[i] in reports;
      OutermostOfAllMembers(reports, p);
    }
    forall k | k in PlanOf(Joined(reports))
      ensures exists i :: 0 <= i < |reports| && k in PlanOf(reports[i])
    {
      var p := PlanOf(Joined(reports))[k];
      OutermostOfAllMembers(reports, p);
      var c :| c in reports && p in Outermost(c);
      var i :| 0 <= i < |reports| && reports[i] == c;
      PlanIsPointwiseMinimum(reports[i]);
    }
  }

  ghost predicate IsMinimumOf(plan: Plan, ps: seq<Position>) {
    && (forall k :: k in plan <==> exists p :: p in ps && p.Key() == k)
    && (forall k :: k in plan ==> plan[k] in ps && plan[k].Key() == k)
    && (forall p :: p in ps ==> p.Key() in plan && plan[p.Key()].offset <= p.offset)
  }

  lemma CollectIsMinimumOf(ps: seq<Position>)
    ensures IsMinimumOf(Collect(map[], ps), ps)
  {
    CollectIsMinimum(map[], ps);
  }

  lemma MinimumByMembers(ps: seq<Position>, qs: seq<Position>, a: Plan, b: Plan)
    requires IsMinimumOf(a, ps) && IsMinimumOf(b, qs)
    requires forall p :: p in ps <==> p in qs
    ensures Offsets(a) == Offsets(b)
  {
    forall k | k in a
      ensures k in b && a[k].offset == b[k].offset
    {
      assert a[k] in qs;
      assert b[k] in ps;
    }
    forall k | k in b
      ensures k in a
    {
      assert b[k] in ps;
    }
  }

  // ------------------------------------------------------------------------
  // Attaching a boundary
  // ------------------------------------------------------------------------

  /** withConsumerRewindPosition: keeps an inner decision, even the decision to rewind nothing. */
  function WithRewindPosition(err: Error, position: Position): Error {
    if err.Nil? then Nil
    else if Decided(err) then err
    else RewindTo(err, position)
  }

  /** A chain of the wrappers a caller may put around a worker's error. */
  datatype Wrapping = Bare | InWrapped(w: Wrapping) | InTransient(w: Wrapping) | Attach(w: Wrapping, position: Position)

  function Wrap(w: Wrapping, err: Error): Error {
    match w
    case Bare => err
    case InWrapped(w') => Wrapped(Wrap(w', err))
    case InTransient(w') => Transient(Wrap(w', err))
    case Attach(w', position) => WithRewindPosition(Wrap(w', err), position)
  }

  /** Once a layer has decided, no later wrapper or attached boundary changes the plan. */
  lemma {:induction false} DecisionIsNeverOverridden(w: Wrapping, err: Error)
    requires Decided(err)
    ensures Decided(Wrap(w, err))
    ensures Outermost(Wrap(w, err)) == Outermost(err) && PlanOf(Wrap(w, err)) == PlanOf(err)
  {
    match w
    case Bare =>
    case InWrapped(w') => DecisionIsNeverOverridden(w', err);
    case InTransient(w') => DecisionIsNeverOverridden(w', err);
    case Attach(w', position) => DecisionIsNeverOverridden(w', err);
  }

  /** An undecided error gets exactly the attached boundary, and always a decision. */
  lemma AttachedBoundary(err: Error, position: Position)
    requires !err.Nil?
    ensures Decided(WithRewindPosition(err, position))
    ensures PlanOf(WithRewindPosition(err, position)) ==
      if Decided(err) then PlanOf(err) else map[position.Key() := position]
  {
    if !Decided(err) {
      assert Outermost(RewindTo(err, position)) == [position];
      assert Collect(map[], [position]) == Collect(MinInto(map[], position), []);
    }
  }

  // ------------------------------------------------------------------------
  // errors.As and cancellation
  // ------------------------------------------------------------------------

  /** The child nodes errors.Is and errors.As visit. */
  function Unwrap(err: Error): seq<Error> {
    match err
    case Nil => []
    case Plain(_) => []
    case Wrapped(inner) => if inner.Nil? then [] else [inner]
    case Joined(children) => children
    case Transient(cause) => [cause]
    case HandlerFailed(cause, _) => [cause]
    case RewindTo(cause, _) => [cause]
    case WorkerAborted(_) => [ABORTED]
    case PollRewind(cause, _) => [cause]
  }

  predicate IsTransient(err: Error) {
    match err
    case Nil => false
    case Plain(_) => false
    case Transient(_) => true
    case Wrapped(inner) => IsTransient(inner)
    case Joined(children) => exists i :: 0 <= i < |children| && IsTransient(children[i])
    case HandlerFailed(cause, _) => IsTransient(cause)
    case RewindTo(cause, _) => IsTransient(cause)
    case WorkerAborted(_) => false
    case PollRewind(cause, _) => IsTransient(cause)
  }

  predicate IsHandlerError(err: Error) {
    match err
    case Nil => false
    case Plain(_) => false
    case HandlerFailed(_, _) => true
    case Wrapped(inner) => IsHandlerError(inner)
    case Joined(children) => exists i :: 0 <= i < |children| && IsHandlerError(children[i])
    case Transient(cause) => IsHandlerError(cause)
    case RewindTo(cause, _) => IsHandlerError(cause)
    case WorkerAborted(_) => false
    case PollRewind(cause, _) => IsHandlerError(cause)
  }

  /** The recursive closure of isConsumerRunCancellation; the run's own error unwraps to nothing. */
  predicate OnlyCancellation(current: Error, runErr: nat) {
    match current
    case Nil => false
    case Plain(id) => id == runErr
    case Wrapped(inner) => if inner.Nil? then false else OnlyCancellation(inner, runErr)
    case Joined(children) =>
      |children| != 0 && forall i :: 0 <= i < |children| ==> OnlyCancellation(children[i], runErr)
    case Transient(cause) => OnlyCancellation(cause, runErr)
    case HandlerFailed(cause, _) => OnlyCancellation(cause, runErr)
    case RewindTo(cause, _) => OnlyCancellation(cause, runErr)
    case WorkerAborted(_) => ABORTED.id == runErr
    case PollRewind(cause, _) => OnlyCancellation(cause, runErr)
  }

  /** isConsumerRunCancellation: runErr is the run context's error, if it has ended. */
  predicate IsRunCancellation(runErr: Option<nat>, err: Error) {
    !err.Nil? && runErr.Some? && OnlyCancellation(err, runErr.value)
  }

  /** `leaf` ends some unwrapping path from `err`: it has nothing further to unwrap. */
  ghost predicate ReachesLeaf(err: Error, path: seq<nat>, leaf: Error)
    decreases path
  {
    if path == [] then err == leaf && Unwrap(err) == []
    else path[0] < |Unwrap(err)| && ReachesLeaf(Unwrap(err)[path[0]], path[1..], leaf)
  }

  lemma {:induction false} LeafBlocksSuppression(err: Error, path: seq<nat>, leaf: Error, runErr: nat)
    requires ReachesLeaf(err, path, leaf) && leaf != Plain(runErr)
    ensures !OnlyCancellation(err, runErr)
    decreases path
  {
    if path != [] {
      LeafBlocksSuppression(Unwrap(err)[path[0]], path[1..], leaf, runErr);
    }
  }

  lemma {:induction false} FindForeignLeaf(err: Error, runErr: nat) returns (path: seq<nat>, leaf: Error)
    requires !OnlyCancellation(err, runErr)
    ensures ReachesLeaf(err, path, leaf) && leaf != Plain(runErr)
  {
    var below := Unwrap(err);
    if below == [] {
      path, leaf := [], err;
    } else {
      var i :| 0 <= i < |below| && !OnlyCancellation(below[i], runErr);
      var rest;
      assert err.WorkerAborted? || below[i] < err;
      if err.WorkerAborted? {
        rest, leaf := [], ABORTED;
      } else {
        rest, leaf := FindForeignLeaf(below[i], runErr);
      }
      path := [i] + rest;
      assert path[1..] == rest;
    }
  }

  ghost predicate EveryLeafIs(err: Error, runErr: nat) {
    forall path, leaf :: ReachesLeaf(err, path, leaf) ==> leaf == Plain(runErr)
  }

  /** A run error is suppressed exactly when the run has ended and every leaf of the tree,
      nil children and empty joins included, is the run context's own error. */
  lemma SuppressedIffEveryLeafIsTheRunError(runErr: Option<nat>, err: Error)
    ensures IsRunCancellation(runErr, err) <==> runErr.Some? && EveryLeafIs(err, runErr.value)
  {
    if runErr.Some? {
      if OnlyCancellation(err, runErr.value) {
        forall path, leaf | ReachesLeaf(err, path, leaf)
          ensures leaf == Plain(runErr.value)
        {
          if leaf != Plain(runErr.value) {
            LeafBlocksSuppression(err, path, leaf, runErr.value);
          }
        }
      } else {
        var path, leaf := FindForeignLeaf(err, runErr.value);
        assert ReachesLeaf(err, path, leaf);
        assert !EveryLeafIs(err, runErr.value);
      }
    }
  }
}
