/** What the order in which workers report can change in a rewind plan (kafka/consumer.go): no
    offset, and a leader epoch exactly when two reports plan the same earliest offset of a partition
    with different epochs. */
module ReportOrder {
  import opened Options
  import opened RewindPlans
  import opened PositionLists

  // ------------------------------------------------------------------------
  // The plan of joined reports, report by report
  // ------------------------------------------------------------------------

  /** Collecting into a plan keeps, per partition, the earlier of it and what is collected; on a tie
      the plan's. */
  lemma {:induction false} CollectInto(plan: Plan, ps: seq<Position>)
    ensures Collect(plan, ps) == Remember(plan, Collect(map[], ps))
    decreases ps
  {
    if ps == [] {
      assert Remember(plan, map[]) == plan;
    } else {
      CollectInto(MinInto(plan, ps[0]), ps[1..]);
      CollectInto(MinInto(map[], ps[0]), ps[1..]);
      RememberTwice(plan, ps[0], Collect(map[], ps[1..]));
    }
  }

  lemma RememberTwice(plan: Plan, p: Position, rest: Plan)
    ensures Remember(MinInto(plan, p), rest) == Remember(plan, Remember(MinInto(map[], p), rest))
  {
    var a, b := Remember(MinInto(plan, p), rest), Remember(plan, Remember(MinInto(map[], p), rest));
    assert a.Keys == plan.Keys + {p.Key()} + rest.Keys == b.Keys;
    forall k | k in a
      ensures a[k] == b[k]
    {
    }
  }

  lemma {:induction false} CollectBoth(plan: Plan, ps: seq<Position>, qs: seq<Position>)
    ensures Collect(plan, ps + qs) == Collect(Collect(plan, ps), qs)
    decreases ps
  {
    if ps == [] {
      assert ps + qs == qs;
    } else {
      assert (ps + qs)[0] == ps[0] && (ps + qs)[1..] == ps[1..] + qs;
      CollectBoth(MinInto(plan, ps[0]), ps[1..], qs);
    }
  }

  /** The first report's plan has the say wherever it is as early as the others. */
  lemma FirstReport(reports: seq<Error>)
    requires reports != []
    ensures PlanOf(Joined(reports)) == Remember(PlanOf(reports[0]), PlanOf(Joined(reports[1..])))
  {
    assert Outermost(Joined(reports)) == OutermostOfAll(reports);
    assert OutermostOfAll(reports) == Outermost(reports[0]) + OutermostOfAll(reports[1..]);
    CollectBoth(map[], Outermost(reports[0]), OutermostOfAll(reports[1..]));
    CollectInto(PlanOf(reports[0]), OutermostOfAll(reports[1..]));
  }

  /** A planned position is one that some report plans itself. */
  lemma {:induction false} PlannedByReport(reports: seq<Error>, k: Partition) returns (i: nat)
    requires k in PlanOf(Joined(reports))
    ensures i < |reports| && k in PlanOf(reports[i]) && PlanOf(reports[i])[k] == PlanOf(Joined(reports))[k]
  {
    assert reports == [] ==> Outermost(Joined(reports)) == [];
    FirstReport(reports);
    var own, rest := PlanOf(reports[0]), PlanOf(Joined(reports[1..]));
    if k in rest && Remember(own, rest)[k] == rest[k] {
      var j := PlannedByReport(reports[1..], k);
      i := j + 1;
    } else {
      i := 0;
    }
  }

  // ------------------------------------------------------------------------
  // Ties
  // ------------------------------------------------------------------------

  /** Reports i and j plan the earliest offset of partition k, each with another position. */
  predicate Tied(reports: seq<Error>, i: nat, j: nat, k: Partition) {
    && i < |reports| && j < |reports| && k in PlanOf(reports[i]) && k in PlanOf(reports[j])
    && PlanOf(reports[i])[k] != PlanOf(reports[j])[k]
    && k in PlanOf(Joined(reports))
    && PlanOf(reports[i])[k].offset == PlanOf(reports[j])[k].offset == PlanOf(Joined(reports))[k].offset
  }

  ghost predicate Untied(reports: seq<Error>) {
    forall i, j, k :: !Tied(reports, i, j, k)
  }

  ghost predicate Reordering(reports: seq<Error>, reordered: seq<Error>) {
    multiset(reordered) == multiset(reports)
  }

  lemma ReportAt(reports: seq<Error>, reordered: seq<Error>, j: nat) returns (i: nat)
    requires Reordering(reports, reordered) && j < |reordered|
    ensures i < |reports| && reports[i] == reordered[j]
  {
    assert reordered[j] in multiset(reordered);
    assert reordered[j] in multiset(reports);
    i :| 0 <= i < |reports| && reports[i] == reordered[j];
  }

  lemma UntiedIsStable(reports: seq<Error>, reordered: seq<Error>)
    requires Untied(reports) && Reordering(reports, reordered)
    ensures PlanOf(Joined(reordered)) == PlanOf(Joined(reports))
  {
    var a, b := PlanOf(Joined(reports)), PlanOf(Joined(reordered));
    PlanIgnoresReportOrder(reports, reordered);
    assert a.Keys == Offsets(a).Keys == Offsets(b).Keys == b.Keys;
    forall k | k in a
      ensures a[k] == b[k]
    {
      assert Offsets(a)[k] == Offsets(b)[k];
      var i := PlannedByReport(reports, k);
      var n := PlannedByReport(reordered, k);
      var j := ReportAt(reports, reordered, n);
      assert !Tied(reports, i, j, k);
    }
  }

  function ToFront(reports: seq<Error>, i: nat): (reordered: seq<Error>)
    requires i < |reports|
    ensures multiset(reordered) == multiset(reports)
  {
    assert reports == reports[..i] + [reports[i]] + reports[i + 1..];
    [reports[i]] + (reports[..i] + reports[i + 1..])
  }

  /** A report in front has its own earliest positions planned. */
  lemma FrontIsPlanned(reports: seq<Error>, i: nat, k: Partition)
    requires i < |reports| && k in PlanOf(reports[i]) && k in PlanOf(Joined(reports))
    requires PlanOf(reports[i])[k].offset == PlanOf(Joined(reports))[k].offset
    ensures k in PlanOf(Joined(ToFront(reports, i))) && PlanOf(Joined(ToFront(reports, i)))[k] == PlanOf(reports[i])[k]
  {
    var front := ToFront(reports, i);
    PlanIgnoresReportOrder(reports, front);
    assert k in Offsets(PlanOf(Joined(reports)));
    assert k in Offsets(PlanOf(Joined(front)));
    assert Offsets(PlanOf(Joined(front)))[k] == PlanOf(reports[i])[k].offset;
    FirstReport(front);
  }

  /** The joined plan, epochs included, ignores the order of reports exactly when no two of them tie. */
  lemma EpochIgnoresOrderIffUntied(reports: seq<Error>)
    ensures (forall reordered ::
      Reordering(reports, reordered) ==> PlanOf(Joined(reordered)) == PlanOf(Joined(reports)))
      <==> Untied(reports)
  {
    if Untied(reports) {
      forall reordered | Reordering(reports, reordered)
        ensures PlanOf(Joined(reordered)) == PlanOf(Joined(reports))
      {
        UntiedIsStable(reports, reordered);
      }
    } else {
      var i, j, k :| Tied(reports, i, j, k);
      FrontIsPlanned(reports, i, k);
      FrontIsPlanned(reports, j, k);
      assert Reordering(reports, ToFront(reports, i)) && Reordering(reports, ToFront(reports, j));
    }
  }

  /** Then the list that consumerRewindPositions returns is the same for every reporting order, too. */
  lemma ListingIgnoresReportOrder(reports: seq<Error>, reordered: seq<Error>, a: seq<Position>, b: seq<Position>)
    requires Untied(reports) && Reordering(reports, reordered)
    requires UniqueKeys(a) && Sorted(a) && AsPlan(a) == PlanOf(Joined(reports))
    requires UniqueKeys(b) && Sorted(b) && AsPlan(b) == PlanOf(Joined(reordered))
    ensures a == b
  {
    UntiedIsStable(reports, reordered);
    AsPlanContents(a);
    AsPlanContents(b);
    SortedIsCanonical(a, b);
  }

  const OLD_EPOCH := HandlerFailed(Plain(1), Some(Position("orders", 0, 5, 1)))
  const NEW_EPOCH := HandlerFailed(Plain(1), Some(Position("orders", 0, 5, 2)))

  /** Two failed handlers at one offset, read under different leader epochs. */
  lemma ReportOrderShows()
    ensures PlanOf(Joined([OLD_EPOCH, NEW_EPOCH])) != PlanOf(Joined([NEW_EPOCH, OLD_EPOCH]))
  {
    var k := Partition("orders", 0);
    assert Outermost(OLD_EPOCH) == [Position("orders", 0, 5, 1)] &&
      Outermost(NEW_EPOCH) == [Position("orders", 0, 5, 2)];
    assert PlanOf(OLD_EPOCH) == map[k := Position("orders", 0, 5, 1)];
    assert PlanOf(NEW_EPOCH) == map[k := Position("orders", 0, 5, 2)];
    FirstReport([OLD_EPOCH, NEW_EPOCH]);
    FirstReport([NEW_EPOCH, OLD_EPOCH]);
    FirstReport([OLD_EPOCH]);
    FirstReport([NEW_EPOCH]);
    assert PlanOf(Joined([])) == map[];
    assert [OLD_EPOCH, NEW_EPOCH][1..] == [NEW_EPOCH] && [NEW_EPOCH, OLD_EPOCH][1..] == [OLD_EPOCH];
  }
}
