/** CommitBeforeHandler on ConfluentConsumer, where settling a record means that its commit before
    the handler succeeded (or that a control record was passed over). No record is read, let alone
    handed to a handler, once it is settled: not after a failed wave, a failed seek, or a
    revocation and a later assignment. */
module ConfluentAtMostOnce {
  import opened RewindPlans
  import opened ConfluentConsumer
  import opened ConfluentSafety
  import opened ConfluentFailClosed

  /** The broker hands out the committed offset, which lies behind every committed record, and
      the driver returns no message before the first assignment. */
  predicate BrokerHolds(s: State, e: Event) {
    match e
    case DriverAssign(starts, _) => forall r :: r in s.settled && r.0 in starts ==> r.2 < starts[r.0]
    case Read(_) => s.known
    case _ => true
  }

  function Carried(phase: Phase): Plan {
    match phase
    case Seeking(copied) => copied
    case Filtered(copied, todo) => copied
    case Sought(copied) => copied
    case Failing(plan) => plan
    case Rewinding(plan) => plan
    case Unsought(plan) => plan
    case _ => map[]
  }

  predicate TodoCarried(phase: Phase) {
    phase.Filtered? ==> Within(phase.todo, phase.copied)
  }

  function SettledCount(s: State, g: GroupKey): nat {
    if g in s.results then s.results[g].settled else 0
  }

  predicate GroupAhead(s: State, g: GroupKey, o: int) {
    forall j :: SettledCount(s, g) <= j < |GroupOf(s.wave, g)| ==> o < GroupOf(s.wave, g)[j].position.offset
  }

  /** The fetch position and every position that may still be sought lie beyond the offset. */
  predicate Passed(s: State, k: Partition, o: int) {
    && (k in s.driver ==> o < s.driver[k])
    && (k in s.pending && !s.closing ==> o < s.pending[k].offset)
    && (k in Carried(s.phase) ==> o < Carried(s.phase)[k].offset)
    && (forall g :: g in s.started + Current(s, k) && g.k == k ==> GroupAhead(s, g, o))
  }

  ghost predicate AtMostOnce(s: State) {
    && (forall m :: m in s.wave ==> m.known)
    && (forall g :: g in s.results ==> Reported(s, g))
    && s.running !! s.results.Keys
    && TodoCarried(s.phase)
    && (forall r :: r in s.settled ==> Passed(s, r.0, r.2))
  }

  predicate Reported(s: State, g: GroupKey) {
    g in s.results ==>
      var group, settled, report := GroupOf(s.wave, g), s.results[g].settled, s.results[g].report;
      settled <= |group| && (!report.Nil? ==> PlansFrom(s.wave, g, report, settled))
  }

  /** Between waves no group is left, so that positions alone matter. */
  lemma NoGroup(s: State, g: GroupKey, o: int)
    requires s.wave == []
    ensures GroupAhead(s, g, o)
  {
  }

  lemma RebalanceKeepsPassed(log: Log, s: State, e: Event, k: Partition, o: int)
    requires All(log, s) && Passed(s, k, o) && Enabled(log, s, e) && RebalanceStep(e)
    requires e.DriverAssign? && k in e.starts ==> o < e.starts[k]
    ensures Passed(Apply(s, e), k, o)
  {
    var s' := Apply(s, e);
    CallbackKeepsOrRenews(log, s, e);
    assert KeptOrFresh(s, s', k);
    forall g | g in s'.started + Current(s', k) && g.k == k
      ensures GroupAhead(s', g, o)
    {
      if g in s.started + Current(s, k) {
        assert GroupAhead(s, g, o);
      } else {
        assert g == GroupKey(k, true, s.gen + 1);
        NoneOfGroup(s, g);
      }
    }
  }

  lemma NoneOfGroup(s: State, g: GroupKey)
    requires Ownership(s) && g.gen == s.gen + 1
    ensures GroupOf(s.wave, g) == []
  {
    GroupMembers(s.wave, g);
    assert forall i :: 0 <= i < |s.wave| ==> MessageOk(s, s.wave[i]);
  }

  lemma ReadKeepsPassed(log: Log, s: State, e: Event, k: Partition, o: int)
    requires All(log, s) && Passed(s, k, o) && Enabled(log, s, e) && e.Read? && s.known
    ensures Passed(Apply(s, e), k, o)
  {
    var s', m := Apply(s, e), Snapshot(s, e.p);
    forall g | g in s'.started + Current(s', k) && g.k == k
      ensures GroupAhead(s', g, o)
    {
      assert GroupAhead(s, g, o);
      GroupAppend(s.wave, m, g);
    }
  }

  lemma GroupAppend(wave: seq<Message>, m: Message, g: GroupKey)
    ensures GroupOf(wave + [m], g) == GroupOf(wave, g) + if m.Group() == g then [m] else []
  {
    assert (wave + [m])[..|wave|] == wave;
  }

  lemma DispatchKeepsPassed(log: Log, s: State, e: Event, k: Partition, o: int)
    requires All(log, s) && AtMostOnce(s) && Passed(s, k, o) && Enabled(log, s, e) && e.Dispatch?
    ensures Passed(Apply(s, e), k, o)
  {
    var s' := Apply(s, e);
    forall g | g in s'.started + Current(s', k) && g.k == k
      ensures GroupAhead(s', g, o)
    {
      if g == e.g {
        var i :| 0 <= i < |s.wave| && s.wave[i].Group() == g;
        assert s.wave[i] in s.wave;
        assert g in Current(s, k);
      }
      assert GroupAhead(s, g, o);
    }
  }

  lemma FinishKeepsPassed(log: Log, s: State, e: Event, k: Partition, o: int)
    requires All(log, s) && AtMostOnce(s) && Passed(s, k, o) && Enabled(log, s, e) && e.Finish?
    ensures Passed(Apply(s, e), k, o)
  {
    var s' := Apply(s, e);
    forall g | g in s'.started + Current(s', k) && g.k == k
      ensures GroupAhead(s', g, o)
    {
      assert GroupAhead(s, g, o);
      assert SettledCount(s, g) <= SettledCount(s', g);
    }
  }

  lemma OtherKeepsPassed(log: Log, s: State, e: Event, k: Partition, o: int)
    requires All(log, s) && AtMostOnce(s) && Passed(s, k, o) && Enabled(log, s, e) && HandlerStep(e) && !e.Finish?
    ensures Passed(Apply(s, e), k, o)
  {
    var s' := Apply(s, e);
    forall g | g in s'.started + Current(s', k) && g.k == k
      ensures GroupAhead(s', g, o)
    {
      assert GroupAhead(s, g, o);
    }
  }

  lemma PendingKeepsPassed(log: Log, s: State, e: Event, k: Partition, o: int)
    requires All(log, s) && AtMostOnce(s) && Passed(s, k, o) && Enabled(log, s, e) && PendingStep(e)
    ensures Passed(Apply(s, e), k, o)
  {
    SameGroupsAhead(s, Apply(s, e), k, o);
  }

  lemma FailedKeepsPassed(log: Log, s: State, e: Event, k: Partition, o: int)
    requires All(log, s) && AtMostOnce(s) && Passed(s, k, o) && Enabled(log, s, e) && FailedStep(e)
    ensures Passed(Apply(s, e), k, o)
  {
    SameGroupsAhead(s, Apply(s, e), k, o);
  }

  lemma SameGroupsAhead(s: State, s': State, k: Partition, o: int)
    requires Passed(s, k, o) && s'.wave == s.wave && s'.started == s.started && s'.owned == s.owned &&
      s'.results == s.results
    ensures forall g :: g in s'.started + Current(s', k) && g.k == k ==> GroupAhead(s', g, o)
  {
    forall g | g in s'.started + Current(s', k) && g.k == k
      ensures GroupAhead(s', g, o)
    {
      assert GroupAhead(s, g, o);
    }
  }

  /** The plan of a failed wave lies beyond every settled record. */
  lemma PlanPassed(s: State, reports: seq<Error>, order: seq<GroupKey>, k: Partition, o: int)
    requires AtMostOnce(s) && Passed(s, k, o) && |reports| == |order|
    requires forall i :: 0 <= i < |order| ==> PlansFrom(s.wave, order[i], reports[i], SettledCount(s, order[i]))
    requires forall g :: g in order && g.k == k ==> g in s.started + Current(s, k)
    requires k in PlanOf(Joined(reports))
    ensures o < PlanOf(Joined(reports))[k].offset
  {
    PlanIsPointwiseMinimum(Joined(reports));
    var p := PlanOf(Joined(reports))[k];
    OutermostOfAllMembers(reports, p);
    var report :| report in reports && p in Outermost(report);
    var i :| 0 <= i < |reports| && reports[i] == report;
    assert PlansFrom(s.wave, order[i], reports[i], SettledCount(s, order[i]));
    PlanIsPointwiseMinimum(reports[i]);
    var n := SettledCount(s, order[i]);
    var group := GroupOf(s.wave, order[i]);
    assert k in PlanOf(reports[i]);
    GroupMembers(s.wave, order[i]);
    assert group[n] in group && group[n].position.Key() == k;
    assert order[i] in order && GroupAhead(s, order[i], o);
  }

  lemma GatherFailurePasses(log: Log, s: State, e: Event, k: Partition, o: int)
    requires All(log, s) && AtMostOnce(s) && Passed(s, k, o) && Enabled(log, s, e) && e.GatherFails?
    ensures Passed(Apply(s, e), k, o)
  {
    var s', reports := Apply(s, e), FirstReports(s.wave, e.order, e.err);
    assert s.started == {} && s.results == map[];
    forall i | 0 <= i < |e.order|
      ensures PlansFrom(s.wave, e.order[i], reports[i], SettledCount(s, e.order[i]))
    {
      assert e.order[i] in e.order;
      AttachedBoundary(e.err, GroupOf(s.wave, e.order[i])[0].position);
    }
    forall g | g in e.order && g.k == k
      ensures g in s.started + Current(s, k)
    {
      var i :| 0 <= i < |s.wave| && s.wave[i].Group() == g;
      assert s.wave[i] in s.wave;
    }
    if k in PlanOf(Joined(reports)) {
      PlanPassed(s, reports, e.order, k, o);
    }
    forall g
      ensures GroupAhead(s', g, o)
    {
      NoGroup(s', g, o);
    }
  }

  lemma FailedPasses(s: State, plan: Plan, k: Partition, o: int)
    requires Passed(s, k, o) && (k in plan ==> o < plan[k].offset)
    ensures Passed(Failed(s, plan), k, o)
  {
    forall g
      ensures GroupAhead(Failed(s, plan), g, o)
    {
      NoGroup(Failed(s, plan), g, o);
    }
  }

  lemma WaveEndPasses(log: Log, s: State, e: Event, k: Partition, o: int)
    requires All(log, s) && AtMostOnce(s) && Passed(s, k, o) && Enabled(log, s, e) && e.EndWave?
    ensures Passed(Apply(s, e), k, o)
  {
    var reports := Reports(s.results, e.order);
    forall i | 0 <= i < |e.order|
      ensures PlansFrom(s.wave, e.order[i], reports[i], SettledCount(s, e.order[i]))
    {
      assert e.order[i] in e.order && Reported(s, e.order[i]);
    }
    if e.order == [] {
      FailedPasses(s, map[], k, o);
    } else {
      if k in PlanOf(Joined(reports)) {
        PlanPassed(s, reports, e.order, k, o);
      }
      FailedPasses(s, PlanOf(Joined(reports)), k, o);
    }
  }

  /** Every record of a running group lies behind the driver, and no other group of its partition
      is or was given a lease. */
  lemma RunningGroupBehind(s: State, g: GroupKey, j: nat)
    requires Ownership(s) && Rebalanced(s) && WaveHolds(s) && AtMostOnce(s) && g in s.running &&
      j < |GroupOf(s.wave, g)|
    ensures var m := GroupOf(s.wave, g)[j];
      && m.Group() == g && g.k in s.driver && m.position.offset < s.driver[g.k]
    ensures Current(s, g.k) == {g}
    ensures forall h :: h in s.started && h.k == g.k ==> h == g
  {
    var m := GroupOf(s.wave, g)[j];
    GroupMembers(s.wave, g);
    assert m in GroupOf(s.wave, g) && m.known && s.known;
    assert BehindDriver(s, m);
    OwnershipMeansOneGroup(s);
    forall h | h in s.started && h.k == g.k
      ensures h == g
    {
      var i :| 0 <= i < |s.wave| && s.wave[i].Group() == h;
      assert s.wave[i] in s.wave;
    }
  }

  lemma JustSettledPasses(log: Log, s: State, e: Event, j: nat)
    requires All(log, s) && AtMostOnce(s) && Enabled(log, s, e) && e.Finish? && j < e.settled
    ensures Passed(Apply(s, e), e.g.k, GroupOf(s.wave, e.g)[j].position.offset)
  {
    var s', group := Apply(s, e), GroupOf(s.wave, e.g);
    RunningGroupBehind(s, e.g, j);
    GroupInOrder(s, e.g);
    assert s.phase == Dispatching;
    assert s'.wave == s.wave && s'.started == s.started && s'.owned == s.owned;
    assert GroupAhead(s', e.g, group[j].position.offset);
    assert !s.closing ==> s.pending == map[];
  }

  lemma StepKeepsPassed(log: Log, s: State, e: Event, k: Partition, o: int)
    requires All(log, s) && AtMostOnce(s) && Enabled(log, s, e) && BrokerHolds(s, e)
    requires exists gen :: (k, gen, o) in s.settled
    ensures Passed(Apply(s, e), k, o)
  {
    var gen :| (k, gen, o) in s.settled;
    var r := (k, gen, o);
    assert Passed(s, r.0, r.2);
    if RebalanceStep(e) {
      RebalanceKeepsPassed(log, s, e, k, o);
    } else if e.Read? {
      ReadKeepsPassed(log, s, e, k, o);
    } else if e.Dispatch? {
      DispatchKeepsPassed(log, s, e, k, o);
    } else if e.Finish? {
      FinishKeepsPassed(log, s, e, k, o);
    } else if HandlerStep(e) {
      OtherKeepsPassed(log, s, e, k, o);
    } else if e.GatherFails? {
      GatherFailurePasses(log, s, e, k, o);
    } else if e.EndWave? {
      WaveEndPasses(log, s, e, k, o);
    } else if PendingStep(e) {
      PendingKeepsPassed(log, s, e, k, o);
    } else {
      FailedKeepsPassed(log, s, e, k, o);
    }
  }

  predicate WaveKept(s: State, s': State) {
    s'.wave == s.wave || s'.wave == []
  }

  lemma ReportsStay(s: State, s': State)
    requires AtMostOnce(s) && WaveKept(s, s') && s'.running <= s.running &&
      (s'.results == s.results || s'.results == map[])
    requires s'.results == map[] || s'.wave == s.wave
    ensures s'.running !! s'.results.Keys
    ensures forall m :: m in s'.wave ==> m.known
    ensures forall g :: g in s'.results ==> Reported(s', g)
  {
    forall g | g in s'.results
      ensures Reported(s', g)
    {
      assert Reported(s, g);
    }
  }

  lemma RewindKeepsGroups(log: Log, s: State, e: Event)
    requires Enabled(log, s, e) && (PendingStep(e) || FailedStep(e))
    ensures var s' := Apply(s, e); s'.wave == s.wave && s'.results == s.results && s'.running == s.running
  {
  }

  lemma HandlerKeepsReports(log: Log, s: State, e: Event)
    requires All(log, s) && AtMostOnce(s) && Enabled(log, s, e) && (e.Dispatch? || HandlerStep(e))
    ensures var s' := Apply(s, e);
      && s'.running !! s'.results.Keys
      && (forall m :: m in s'.wave ==> m.known)
      && forall g :: g in s'.results ==> Reported(s', g)
  {
    var s' := Apply(s, e);
    forall g | g in s'.results
      ensures Reported(s', g)
    {
      assert g in s.results ==> Reported(s, g);
    }
  }

  lemma StepKeepsReports(log: Log, s: State, e: Event)
    requires All(log, s) && AtMostOnce(s) && Enabled(log, s, e) && !e.Read?
    ensures var s' := Apply(s, e);
      && s'.running !! s'.results.Keys
      && (forall m :: m in s'.wave ==> m.known)
      && forall g :: g in s'.results ==> Reported(s', g)
  {
    if RebalanceStep(e) {
      CallbackKeepsOrRenews(log, s, e);
      ReportsStay(s, Apply(s, e));
    } else if e.Dispatch? || HandlerStep(e) {
      HandlerKeepsReports(log, s, e);
    } else if PendingStep(e) || FailedStep(e) {
      RewindKeepsGroups(log, s, e);
      ReportsStay(s, Apply(s, e));
    } else {
      WaveEndDrops(log, s, e);
      ReportsStay(s, Apply(s, e));
    }
  }

  lemma OnlyFinishSettles(log: Log, s: State, e: Event)
    requires Rebalanced(s) && Enabled(log, s, e) && !e.Finish?
    ensures Apply(s, e).settled == s.settled
  {
    if RebalanceStep(e) {
      CallbackKeepsOrRenews(log, s, e);
    } else if PendingStep(e) || FailedStep(e) {
      RewindSettlesNothing(log, s, e);
    } else {
      WaveSettlesNothing(log, s, e);
    }
  }

  lemma RewindSettlesNothing(log: Log, s: State, e: Event)
    requires Enabled(log, s, e) && (PendingStep(e) || FailedStep(e))
    ensures Apply(s, e).settled == s.settled
  {
  }

  lemma WaveSettlesNothing(log: Log, s: State, e: Event)
    requires Enabled(log, s, e) && (e.Read? || e.Dispatch? || HandlerStep(e) || WaveEnds(e)) && !e.Finish?
    ensures Apply(s, e).settled == s.settled
  {
  }

  lemma NewlySettledPasses(log: Log, s: State, e: Event, r: (Partition, nat, int))
    requires All(log, s) && AtMostOnce(s) && Enabled(log, s, e)
    requires r in Apply(s, e).settled && r !in s.settled
    ensures Passed(Apply(s, e), r.0, r.2)
  {
    if !e.Finish? {
      OnlyFinishSettles(log, s, e);
    }
    var group := GroupOf(s.wave, e.g);
    var j :| 0 <= j < e.settled && r == (group[j].position.Key(), group[j].gen, group[j].position.offset);
    RunningGroupBehind(s, e.g, j);
    JustSettledPasses(log, s, e, j);
  }

  lemma PiecesKept(log: Log, s: State, e: Event)
    requires All(log, s) && AtMostOnce(s) && Enabled(log, s, e) && BrokerHolds(s, e)
    ensures var s' := Apply(s, e);
      && (forall m :: m in s'.wave ==> m.known)
      && (forall g :: g in s'.results ==> Reported(s', g))
      && s'.running !! s'.results.Keys
  {
    if !e.Read? {
      StepKeepsReports(log, s, e);
    }
  }

  lemma PendingKeepsTodoCarried(log: Log, s: State, e: Event)
    requires Enabled(log, s, e) && PendingStep(e)
    ensures TodoCarried(Apply(s, e).phase)
  {
  }

  lemma FailedKeepsTodoCarried(log: Log, s: State, e: Event)
    requires Enabled(log, s, e) && FailedStep(e)
    ensures TodoCarried(Apply(s, e).phase)
  {
  }

  lemma HandlerKeepsTodoCarried(log: Log, s: State, e: Event)
    requires TodoCarried(s.phase) && Enabled(log, s, e) && (e.Read? || e.Dispatch? || HandlerStep(e))
    ensures TodoCarried(Apply(s, e).phase)
  {
  }

  lemma StepKeepsTodoCarried(log: Log, s: State, e: Event)
    requires Rebalanced(s) && TodoCarried(s.phase) && Enabled(log, s, e)
    ensures TodoCarried(Apply(s, e).phase)
  {
    if RebalanceStep(e) {
      CallbackKeepsOrRenews(log, s, e);
    } else if PendingStep(e) {
      PendingKeepsTodoCarried(log, s, e);
    } else if FailedStep(e) {
      FailedKeepsTodoCarried(log, s, e);
    } else if WaveEnds(e) {
      WaveEndDrops(log, s, e);
    } else {
      HandlerKeepsTodoCarried(log, s, e);
    }
  }

  lemma StepKeepsAtMostOnce(log: Log, s: State, e: Event)
    requires All(log, s) && AtMostOnce(s) && Enabled(log, s, e) && BrokerHolds(s, e)
    ensures AtMostOnce(Apply(s, e))
  {
    var s' := Apply(s, e);
    PiecesKept(log, s, e);
    StepKeepsTodoCarried(log, s, e);
    forall r | r in s'.settled
      ensures Passed(s', r.0, r.2)
    {
      if r in s.settled {
        assert (r.0, r.1, r.2) == r;
        StepKeepsPassed(log, s, e, r.0, r.2);
      } else {
        NewlySettledPasses(log, s, e, r);
      }
    }
  }

  lemma {:induction false} RunKeepsAtMostOnce(log: Log, states: seq<State>, events: seq<Event>, n: nat)
    requires IsRun(log, states, events) && n < |states|
    requires forall i :: 0 <= i < |events| ==> BrokerHolds(states[i], events[i])
    ensures AtMostOnce(states[n])
  {
    if n > 0 {
      RunKeepsAtMostOnce(log, states, events, n - 1);
      RunKeepsAll(log, states, events, n - 1);
      assert Step(log, states[n - 1], events[n - 1], states[n]);
      StepKeepsAtMostOnce(log, states[n - 1], events[n - 1]);
    }
  }

  /** In every run, under whatever generation: a settled record is never read again, and a group
      that is given a lease holds no settled record. */
  lemma SettledIsNeverHandedAgain(log: Log, states: seq<State>, events: seq<Event>, n: nat, r: (Partition, nat, int))
    requires IsRun(log, states, events) && n < |events| && r in states[n].settled
    requires forall i :: 0 <= i < |events| ==> BrokerHolds(states[i], events[i])
    ensures events[n].Read? && events[n].p.Key() == r.0 ==> r.2 < events[n].p.offset
    ensures events[n].Dispatch? && events[n].g.k == r.0 ==>
      forall m :: m in GroupOf(states[n].wave, events[n].g) ==> r.2 < m.position.offset
  {
    var s, e := states[n], events[n];
    RunKeepsAtMostOnce(log, states, events, n);
    RunKeepsAll(log, states, events, n);
    assert Step(log, s, e, states[n + 1]) && Passed(s, r.0, r.2) && BrokerHolds(s, e);
    if e.Dispatch? && e.g.k == r.0 {
      var i :| 0 <= i < |s.wave| && s.wave[i].Group() == e.g;
      assert s.wave[i] in s.wave && e.g in Current(s, r.0);
      assert GroupAhead(s, e.g, r.2) && e.g !in s.results;
    }
  }
}
