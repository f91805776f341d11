/** Lists of record positions with distinct partitions (pendingRecovery, pendingRewinds), against
    the plans they stand for. */
module PositionLists {
  import opened RewindPlans

  /** The earlier of the two positions of each partition. */
  function Remember(pending: Plan, plan: Plan): Plan {
    map k | k in pending.Keys + plan.Keys ::
      if k !in plan then pending[k]
      else if k in pending && pending[k].offset <= plan[k].offset then pending[k]
      else plan[k]
  }

  /** On a list with distinct partitions, merging position by position is the pointwise minimum. */
  lemma {:induction false} CollectIsRemember(pending: Plan, ps: seq<Position>)
    requires UniqueKeys(ps)
    ensures Collect(pending, ps) == Remember(pending, AsPlan(ps))
    decreases ps
  {
    if ps == [] {
      assert Remember(pending, map[]) == pending;
    } else {
      var p := ps[0];
      assert UniqueKeys(ps[1..]) by {
        forall i, j | 0 <= i < j < |ps[1..]| ensures ps[1..][i].Key() != ps[1..][j].Key() {
          assert ps[i + 1].Key() != ps[j + 1].Key();
        }
      }
      CollectIsRemember(MinInto(pending, p), ps[1..]);
      TailPlan(ps);
      RememberOne(pending, p, AsPlan(ps[1..]));
    }
  }

  lemma RememberOne(pending: Plan, p: Position, rest: Plan)
    requires p.Key() !in rest
    ensures Remember(MinInto(pending, p), rest) == Remember(pending, rest[p.Key() := p])
  {
    var a, b := Remember(MinInto(pending, p), rest), Remember(pending, rest[p.Key() := p]);
    assert a.Keys == pending.Keys + rest.Keys + {p.Key()} == b.Keys;
    forall k | k in a
      ensures a[k] == b[k]
    {
    }
  }

  lemma TailPlan(ps: seq<Position>)
    requires ps != [] && UniqueKeys(ps) && UniqueKeys(ps[1..])
    ensures ps[0].Key() !in AsPlan(ps[1..])
    ensures AsPlan(ps) == AsPlan(ps[1..])[ps[0].Key() := ps[0]]
  {
    AsPlanContents(ps[1..]);
    AsPlanContents(ps);
    var plan := AsPlan(ps[1..])[ps[0].Key() := ps[0]];
    forall i | 0 <= i < |ps|
      ensures ps[i].Key() in plan && plan[ps[i].Key()] == ps[i]
    {
      if i > 0 {
        assert ps[1..][i - 1] == ps[i];
      }
    }
    forall k | k in plan
      ensures exists i :: 0 <= i < |ps| && ps[i].Key() == k
    {
      if k == ps[0].Key() {
      } else {
        assert AsPlan(ps[1..])[k] in ps[1..];
        var i :| 0 <= i < |ps[1..]| && ps[1..][i] == AsPlan(ps[1..])[k];
        assert ps[i + 1].Key() == k;
      }
    }
    AsPlanByMembers(ps, plan);
  }

  ghost predicate FilteredBy(ps: seq<Position>, keep: Position -> bool, kept: seq<Position>) {
    kept == Filter(ps, keep)
  }

  ghost function Filter(ps: seq<Position>, keep: Position -> bool): seq<Position> {
    if ps == [] then []
    else Filter(ps[..|ps| - 1], keep) + if keep(ps[|ps| - 1]) then [ps[|ps| - 1]] else []
  }

  lemma {:induction false} FilterMembers(ps: seq<Position>, keep: Position -> bool)
    requires UniqueKeys(ps)
    ensures forall p :: p in Filter(ps, keep) <==> p in ps && keep(p)
    ensures UniqueKeys(Filter(ps, keep))
  {
    if ps != [] {
      var front, last := ps[..|ps| - 1], ps[|ps| - 1];
      FilterMembers(front, keep);
      assert ps == front + [last];
      forall i | 0 <= i < |Filter(front, keep)|
        ensures Filter(front, keep)[i].Key() != last.Key()
      {
        assert Filter(front, keep)[i] in front;
        var j :| 0 <= j < |front| && front[j] == Filter(front, keep)[i];
        assert ps[j].Key() != ps[|ps| - 1].Key();
      }
    }
  }

  lemma FilteredPlan(ps: seq<Position>, keep: Position -> bool, kept: seq<Position>)
    requires UniqueKeys(ps) && FilteredBy(ps, keep, kept)
    ensures UniqueKeys(kept)
    ensures AsPlan(kept) == map k | k in AsPlan(ps) && keep(AsPlan(ps)[k]) :: AsPlan(ps)[k]
  {
    FilterMembers(ps, keep);
    AsPlanContents(ps);
    AsPlanContents(kept);
    var plan := map k | k in AsPlan(ps) && keep(AsPlan(ps)[k]) :: AsPlan(ps)[k];
    forall i | 0 <= i < |kept|
      ensures kept[i].Key() in plan && plan[kept[i].Key()] == kept[i]
    {
      assert kept[i] in ps;
    }
    forall k | k in plan
      ensures exists i :: 0 <= i < |kept| && kept[i].Key() == k
    {
      assert plan[k] in kept;
    }
    AsPlanByMembers(kept, plan);
  }
}
