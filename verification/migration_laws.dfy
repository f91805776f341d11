/** What the checkpoints of Migrations are worth: which of them validate, when migrations are
    suppressed, and that a failed call can be repeated. */
module MigrationLaws {
  import opened Options
  import opened Migrations

  // ------------------------------------------------------------------------
  // Checkpoints validate
  // ------------------------------------------------------------------------

  /** A checksum is recorded for a migration that is not applied and has none compiled in: marking
      the migration would keep it. */
  predicate Stale(s: Durable, m: Migration) {
    !IsApplied(s, m.id) && m.checksum == "" && ChecksumOf(s, m.id) != ""
  }

  lemma CompiledAt(reg: seq<Migration>, s: Durable, i: nat)
    requires Distinct(reg) && i < |reg|
    ensures AppliedIsCompiled(reg, s, reg[i].id) <==>
      ChecksumOf(s, reg[i].id) == "" || ChecksumOf(s, reg[i].id) == reg[i].checksum
  {
  }

  /** Marking a migration, applied or skipped, keeps the state valid exactly when nothing stale is
      recorded for it. */
  lemma MarkingKeepsValid(reg: seq<Migration>, s: Durable, i: nat, t: Durable)
    requires Distinct(reg) && i < |reg| && Validates(reg, s) && !IsApplied(s, reg[i].id)
    requires exists now :: t == MarkApplied(s, reg[i], now) || t == MarkSkipped(s, reg[i], now)
    ensures Validates(reg, t) <==> !Stale(s, reg[i])
    ensures forall m: Migration :: m.id != reg[i].id ==> (Stale(t, m) <==> Stale(s, m))
  {
    CompiledAt(reg, t, i);
    assert IsApplied(t, reg[i].id);
    forall id | id != reg[i].id && IsApplied(t, id)
      ensures AppliedIsCompiled(reg, t, id)
    {
      assert IsApplied(s, id) && AppliedIsCompiled(reg, s, id);
      assert ChecksumOf(t, id) == ChecksumOf(s, id);
    }
    forall id | id in t.checksums
      ensures Registered(reg, id)
    {
      assert id == reg[i].id || id in s.checksums;
    }
  }

  lemma {:induction false} BackfillKeepsValid(reg: seq<Migration>, s: Durable, n: nat)
    requires Distinct(reg) && n <= |reg| && Validates(reg, s)
    ensures Validates(reg, Backfilled(reg, s, n))
    ensures forall m: Migration ::
      !IsApplied(s, m.id) ==> ChecksumOf(Backfilled(reg, s, n), m.id) == ChecksumOf(s, m.id)
  {
    if n > 0 {
      BackfillKeepsValid(reg, s, n - 1);
      BackfillKeepsMarks(reg, s, n - 1);
      var t, u := Backfilled(reg, s, n - 1), Backfilled(reg, s, n);
      forall id | id in u.applied && IsApplied(u, id)
        ensures AppliedIsCompiled(reg, u, id)
      {
        assert AppliedIsCompiled(reg, t, id);
        CompiledAt(reg, u, n - 1);
      }
    }
  }

  predicate NoStale(reg: seq<Migration>, s: Durable, from: nat, k: nat)
    requires from <= k <= |reg|
  {
    forall i :: from <= i < k ==> !Stale(s, reg[i])
  }

  /** Along the run loop a state validates exactly as long as nothing stale has been marked. */
  lemma {:induction false} RanToValidates(reg: seq<Migration>, s: Durable, from: nat, k: nat, clock: nat -> int)
    requires Distinct(reg) && from <= k <= |reg| && Validates(reg, s)
    ensures NoStale(reg, s, from, k) ==> Validates(reg, RanTo(reg, s, from, k, clock))
    ensures NoStale(reg, s, from, k) ==>
      forall i ::
        0 <= i < |reg| && (i < from || i >= k) ==> (Stale(RanTo(reg, s, from, k, clock), reg[i]) <==> Stale(s, reg[i]))
  {
    if from < k {
      RanToValidates(reg, s, from, k - 1, clock);
      var t := RanTo(reg, s, from, k - 1, clock);
      if NoStale(reg, s, from, k) && !IsApplied(t, reg[k - 1].id) {
        assert NoStale(reg, s, from, k - 1) && !Stale(s, reg[k - 1]);
        assert !Stale(t, reg[k - 1]);
        MarkingKeepsValid(reg, t, k - 1, MarkApplied(t, reg[k - 1], clock(k - 1)));
      }
    }
  }

  lemma {:induction false} SkippedToValidates(reg: seq<Migration>, s: Durable, k: nat, clock: nat -> int)
    requires Distinct(reg) && k <= |reg| && Validates(reg, s)
    ensures NoStale(reg, s, 0, k) ==> Validates(reg, SkippedTo(reg, s, k, clock))
    ensures NoStale(reg, s, 0, k) ==>
      forall i :: k <= i < |reg| ==> (Stale(SkippedTo(reg, s, k, clock), reg[i]) <==> Stale(s, reg[i]))
  {
    if k > 0 {
      SkippedToValidates(reg, s, k - 1, clock);
      var t := SkippedTo(reg, s, k - 1, clock);
      if NoStale(reg, s, 0, k) && !IsApplied(t, reg[k - 1].id) {
        assert NoStale(reg, s, 0, k - 1) && !Stale(s, reg[k - 1]);
        assert !Stale(t, reg[k - 1]);
        MarkingKeepsValid(reg, t, k - 1, MarkSkipped(t, reg[k - 1], clock(k - 1)));
      }
    }
  }

  /** What marking never repairs: an applied migration whose checksum differs stays a drift. */
  predicate Drifts(s: Durable, m: Migration) {
    IsApplied(s, m.id) && ChecksumOf(s, m.id) != "" && ChecksumOf(s, m.id) != m.checksum
  }

  lemma {:induction false} StaleStaysInRun(reg: seq<Migration>, s: Durable, from: nat, k: nat, clock: nat -> int,
        i: nat)
    requires Distinct(reg) && from <= k <= |reg| && i < |reg|
    requires (from <= i < k && Stale(s, reg[i])) || Drifts(s, reg[i])
    ensures Drifts(RanTo(reg, s, from, k, clock), reg[i])
  {
    if from < k {
      if i == k - 1 && Stale(s, reg[i]) {
        RanToMarks(reg, s, from, k - 1, clock);
        RanKeepsOthers(reg, s, from, k - 1, clock, reg[i].id);
      } else {
        StaleStaysInRun(reg, s, from, k - 1, clock, i);
      }
    }
  }

  lemma {:induction false} RanKeepsOthers(reg: seq<Migration>, s: Durable, from: nat, k: nat, clock: nat -> int,
        id: string)
    requires Distinct(reg) && from <= k <= |reg| && id !in Ids(reg, from, k)
    ensures var t := RanTo(reg, s, from, k, clock);
      (IsApplied(t, id) <==> IsApplied(s, id)) && ChecksumOf(t, id) == ChecksumOf(s, id) &&
        (id in t.skipped <==> id in s.skipped)
  {
    if from < k {
      assert Ids(reg, from, k) == Ids(reg, from, k - 1) + {reg[k - 1].id};
      RanKeepsOthers(reg, s, from, k - 1, clock, id);
    }
  }

  lemma {:induction false} StaleStaysInSkip(reg: seq<Migration>, s: Durable, k: nat, clock: nat -> int, i: nat)
    requires Distinct(reg) && k <= |reg| && i < |reg|
    requires (i < k && Stale(s, reg[i])) || Drifts(s, reg[i])
    ensures Drifts(SkippedTo(reg, s, k, clock), reg[i])
  {
    if k > 0 {
      if i == k - 1 && Stale(s, reg[i]) {
        SkipKeepsOthers(reg, s, k - 1, clock, reg[i].id);
      } else {
        StaleStaysInSkip(reg, s, k - 1, clock, i);
      }
    }
  }

  lemma {:induction false} SkipKeepsOthers(reg: seq<Migration>, s: Durable, k: nat, clock: nat -> int, id: string)
    requires Distinct(reg) && k <= |reg| && id !in Ids(reg, 0, k)
    ensures var t := SkippedTo(reg, s, k, clock);
      (IsApplied(t, id) <==> IsApplied(s, id)) && ChecksumOf(t, id) == ChecksumOf(s, id)
  {
    if k > 0 {
      assert Ids(reg, 0, k) == Ids(reg, 0, k - 1) + {reg[k - 1].id};
      SkipKeepsOthers(reg, s, k - 1, clock, id);
    }
  }

  lemma DriftsDoesNotValidate(reg: seq<Migration>, s: Durable, i: nat)
    requires Distinct(reg) && i < |reg| && Drifts(s, reg[i])
    ensures !Validates(reg, s)
  {
    CompiledAt(reg, s, i);
    assert reg[i].id in s.applied;
  }

  /** A valid state stays valid at every checkpoint of a Run if no checksum is recorded for a
      migration up to the end of the range that is neither applied nor compiled with one... */
  lemma EveryCheckpointValidates(reg: seq<Migration>, s: Durable, from: nat, through: nat, clock: nat -> int,
        t: Durable)
    requires Distinct(reg) && from <= through < |reg| && Validates(reg, s) && NoStale(reg, s, 0, through + 1)
    requires t in RunCheckpoints(reg, s, from, through, clock)
    ensures Validates(reg, t)
  {
    var base := Backfilled(reg, s, |reg|);
    BackfillKeepsValid(reg, s, |reg|);
    BackfillKeepsMarks(reg, s, |reg|);
    assert forall i :: 0 <= i < |reg| ==> (Stale(base, reg[i]) <==> Stale(s, reg[i]));
    if t in RunPassed(reg, base, from, through + 1, clock) {
      var j :| from <= j <= through + 1 && t == RanTo(reg, base, from, j, clock);
      RanToValidates(reg, base, from, j, clock);
    } else if t != s && t != base {
      var j :| 0 <= j <= from && t == SkippedTo(reg, RanTo(reg, base, from, through + 1, clock), j, clock);
      SuppressionValidates(reg, base, from, through, clock, j);
    }
  }

  lemma SuppressionValidates(reg: seq<Migration>, base: Durable, from: nat, through: nat, clock: nat -> int, j: nat)
    requires Distinct(reg) && j <= from <= through < |reg| && Validates(reg, base) && NoStale(reg, base, 0, through + 1)
    ensures Validates(reg, SkippedTo(reg, RanTo(reg, base, from, through + 1, clock), j, clock))
  {
    assert NoStale(reg, base, from, through + 1);
    RanToValidates(reg, base, from, through + 1, clock);
    assert NoStale(reg, RanTo(reg, base, from, through + 1, clock), 0, j);
    SkippedToValidates(reg, RanTo(reg, base, from, through + 1, clock), j, clock);
  }

  /** ... and only then: otherwise the state that a successful Run leaves is refused as drift by
      every later call. */
  lemma RunResultValidatesIff(reg: seq<Migration>, s: Durable, from: nat, through: nat, clock: nat -> int)
    requires Distinct(reg) && from <= through < |reg| && Validates(reg, s)
    ensures Validates(reg, RunResult(reg, s, from, through, clock)) <==> NoStale(reg, s, 0, through + 1)
  {
    var base := Backfilled(reg, s, |reg|);
    var ran := RanTo(reg, base, from, through + 1, clock);
    BackfillKeepsValid(reg, s, |reg|);
    BackfillKeepsMarks(reg, s, |reg|);
    if NoStale(reg, s, 0, through + 1) {
      SkippedPassed(reg, ran, from, from, clock);
      EveryCheckpointValidates(reg, s, from, through, clock, RunResult(reg, s, from, through, clock));
    } else {
      var i :| 0 <= i < through + 1 && Stale(s, reg[i]);
      assert Stale(base, reg[i]);
      StaleSpoils(reg, base, from, through, clock, i);
    }
  }

  lemma StaleSpoils(reg: seq<Migration>, base: Durable, from: nat, through: nat, clock: nat -> int, i: nat)
    requires Distinct(reg) && from <= through < |reg| && i <= through && Stale(base, reg[i])
    ensures !Validates(reg, SkippedTo(reg, RanTo(reg, base, from, through + 1, clock), from, clock))
  {
    var ran := RanTo(reg, base, from, through + 1, clock);
    if i >= from {
      StaleStaysInRun(reg, base, from, through + 1, clock, i);
    } else {
      assert reg[i].id !in Ids(reg, from, through + 1);
      RanKeepsOthers(reg, base, from, through + 1, clock, reg[i].id);
    }
    StaleStaysInSkip(reg, ran, from, clock, i);
    DriftsDoesNotValidate(reg, SkippedTo(reg, ran, from, clock), i);
  }

  /** Checksums that belong only to applied migrations leave nothing stale. */
  lemma OwnedChecksumsAreNotStale(reg: seq<Migration>, s: Durable)
    requires forall id :: id in s.checksums ==> IsApplied(s, id)
    ensures NoStale(reg, s, 0, |reg|)
  {
  }

  /** Such a state exists, validates, and is spoilt by a Run. */
  lemma StaleChecksumSpoilsRun()
    ensures var reg, s := [Migration("a", "", false)], Durable("", 0, map[], map[], map["a" := "x"]);
      Validates(reg, s) && !Validates(reg, RunResult(reg, s, 0, 0, _ => 0))
  {
    var reg, s := [Migration("a", "", false)], Durable("", 0, map[], map[], map["a" := "x"]);
    assert reg[0].id == "a";
    assert Stale(s, reg[0]);
    RunResultValidatesIff(reg, s, 0, 0, _ => 0);
  }

  /** Reverting cannot spoil a state: every checkpoint of a valid one validates. */
  lemma {:induction false} RevertKeepsValid(reg: seq<Migration>, s: Durable, k: nat)
    requires Distinct(reg) && k <= |reg| && Validates(reg, s)
    ensures Validates(reg, RevertedTo(reg, s, k))
    decreases |reg| - k
  {
    if k < |reg| {
      RevertKeepsValid(reg, s, k + 1);
      var t, u := RevertedTo(reg, s, k + 1), RevertedTo(reg, s, k);
      forall id | id in u.applied && IsApplied(u, id)
        ensures AppliedIsCompiled(reg, u, id)
      {
        assert IsApplied(t, id) && AppliedIsCompiled(reg, t, id);
        assert ChecksumOf(u, id) == ChecksumOf(t, id);
      }
    }
  }

  // ------------------------------------------------------------------------
  // Suppressed only at the end
  // ------------------------------------------------------------------------

  /** No checkpoint of a Run shows an earlier migration newly suppressed before every migration of
      the requested range is applied. */
  lemma SuppressedOnlyAfterRange(reg: seq<Migration>, s: Durable, from: nat, through: nat, clock: nat -> int,
        t: Durable, id: string)
    requires Distinct(reg) && from <= through < |reg|
    requires t in RunCheckpoints(reg, s, from, through, clock) && id in t.skipped && id !in s.skipped
    ensures forall i :: from <= i <= through ==> IsApplied(t, reg[i].id)
    ensures id in Ids(reg, 0, from)
  {
    var base := Backfilled(reg, s, |reg|);
    BackfillKeepsMarks(reg, s, |reg|);
    var ran := RanTo(reg, base, from, through + 1, clock);
    PassedNeverSkips(reg, base, from, through + 1, clock, id);
    var j := SkipCheckpoint(reg, s, from, through, clock, t);
    RanToMarks(reg, base, from, through + 1, clock);
    AppliedStays(reg, ran, j, clock, from, through, id);
  }

  lemma SkipCheckpoint(reg: seq<Migration>, s: Durable, from: nat, through: nat, clock: nat -> int, t: Durable)
    returns (j: nat)
    requires from <= through < |reg| && t in RunCheckpoints(reg, s, from, through, clock)
    requires var base := Backfilled(reg, s, |reg|);
      t != s && t != base && t !in RunPassed(reg, base, from, through + 1, clock)
    ensures j <= from && t == SkippedTo(reg, RanTo(reg, Backfilled(reg, s, |reg|), from, through + 1, clock), j, clock)
  {
    j :| 0 <= j <= from && t == SkippedTo(reg, RanTo(reg, Backfilled(reg, s, |reg|), from, through + 1, clock), j,
      clock);
  }

  lemma PassedNeverSkips(reg: seq<Migration>, s: Durable, from: nat, k: nat, clock: nat -> int, id: string)
    requires from <= k <= |reg| && id !in s.skipped
    ensures forall t :: t in RunPassed(reg, s, from, k, clock) ==> id !in t.skipped
    ensures id !in RanTo(reg, s, from, k, clock).skipped
  {
    forall j | from <= j <= k
      ensures id !in RanTo(reg, s, from, j, clock).skipped
    {
      RanNeverSkips(reg, s, from, j, clock, id);
    }
  }

  lemma AppliedStays(reg: seq<Migration>, ran: Durable, j: nat, clock: nat -> int, from: nat, through: nat, id: string)
    requires j <= from <= through < |reg| && id !in ran.skipped && id in SkippedTo(reg, ran, j, clock).skipped
    requires forall id :: id in Ids(reg, from, through + 1) ==> IsApplied(ran, id)
    ensures forall i :: from <= i <= through ==> IsApplied(SkippedTo(reg, ran, j, clock), reg[i].id)
    ensures id in Ids(reg, 0, from)
  {
    SkippedToMarks(reg, ran, j, clock);
    forall i | from <= i <= through
      ensures IsApplied(SkippedTo(reg, ran, j, clock), reg[i].id)
    {
      assert reg[i].id in Ids(reg, from, through + 1);
    }
    assert Ids(reg, 0, j) <= Ids(reg, 0, from);
  }

  lemma {:induction false} RanNeverSkips(reg: seq<Migration>, s: Durable, from: nat, k: nat, clock: nat -> int,
        id: string)
    requires from <= k <= |reg| && id !in s.skipped
    ensures id !in RanTo(reg, s, from, k, clock).skipped
  {
    if from < k {
      RanNeverSkips(reg, s, from, k - 1, clock, id);
    }
  }

  lemma {:induction false} SkippedToMarks(reg: seq<Migration>, s: Durable, k: nat, clock: nat -> int)
    requires k <= |reg|
    ensures var t := SkippedTo(reg, s, k, clock);
      && (forall id :: IsApplied(t, id) <==> IsApplied(s, id) || id in Ids(reg, 0, k))
      && (forall id :: id in t.skipped ==> id in s.skipped || id in Ids(reg, 0, k))
  {
    if k > 0 {
      SkippedToMarks(reg, s, k - 1, clock);
      assert Ids(reg, 0, k) == Ids(reg, 0, k - 1) + {reg[k - 1].id};
    }
  }

  /** What a successful Run leaves: everything up to the end of the range is applied; the pending
      migrations of the range are in force, and the pending ones before it are suppressed. */
  lemma RunResultMeans(reg: seq<Migration>, s: Durable, from: nat, through: nat, clock: nat -> int, i: nat)
    requires Distinct(reg) && from <= through < |reg| && i < |reg| &&
      (forall id :: id in s.skipped ==> IsApplied(s, id))
    ensures var t := RunResult(reg, s, from, through, clock); var id := reg[i].id;
      && (IsApplied(t, id) <==> IsApplied(s, id) || i <= through)
      && (InForce(t, id) <==> InForce(s, id) || (from <= i <= through && !IsApplied(s, id)))
  {
    var base := Backfilled(reg, s, |reg|);
    BackfillKeepsMarks(reg, s, |reg|);
    var ran := RanTo(reg, base, from, through + 1, clock);
    RanToMarks(reg, base, from, through + 1, clock);
    SkippedToMarks(reg, ran, from, clock);
    InIds(reg, from, through + 1, i);
    InIds(reg, 0, from, i);
    RanForce(reg, base, from, through + 1, clock, reg[i].id);
    SkipForce(reg, ran, from, clock, reg[i].id);
  }

  lemma InIds(reg: seq<Migration>, from: nat, k: nat, i: nat)
    requires Distinct(reg) && from <= k <= |reg| && i < |reg|
    ensures reg[i].id in Ids(reg, from, k) <==> from <= i < k
  {
  }

  lemma {:induction false} RanForce(reg: seq<Migration>, s: Durable, from: nat, k: nat, clock: nat -> int, id: string)
    requires Distinct(reg) && from <= k <= |reg| && (id in s.skipped ==> IsApplied(s, id))
    ensures InForce(RanTo(reg, s, from, k, clock), id) <==>
      InForce(s, id) || (id in Ids(reg, from, k) && !IsApplied(s, id))
    ensures id in RanTo(reg, s, from, k, clock).skipped <==> id in s.skipped
  {
    if from < k {
      RanForce(reg, s, from, k - 1, clock, id);
      RanToMarks(reg, s, from, k - 1, clock);
      assert Ids(reg, from, k) == Ids(reg, from, k - 1) + {reg[k - 1].id};
    }
  }

  lemma {:induction false} SkipForce(reg: seq<Migration>, s: Durable, k: nat, clock: nat -> int, id: string)
    requires k <= |reg|
    ensures InForce(SkippedTo(reg, s, k, clock), id) <==> InForce(s, id)
  {
    if k > 0 {
      SkipForce(reg, s, k - 1, clock, id);
    }
  }

  /** After each step of a revert the recorded last run is the latest migration still applied. */
  lemma {:induction false} LatestIsLatest(reg: seq<Migration>, s: Durable, n: nat)
    requires n <= |reg|
    ensures (exists i :: 0 <= i < n && IsApplied(s, reg[i].id)) ==>
      exists i :: 0 <= i < n && IsApplied(s, reg[i].id) && (forall j :: i < j < n ==> !IsApplied(s, reg[j].id))
        && Latest(reg, s, n) == (reg[i].id, s.applied[reg[i].id].value)
    ensures !(exists i :: 0 <= i < n && IsApplied(s, reg[i].id)) ==> Latest(reg, s, n) == ("", 0)
  {
    if n > 0 && !IsApplied(s, reg[n - 1].id) {
      LatestIsLatest(reg, s, n - 1);
    }
  }

  // ------------------------------------------------------------------------
  // A failed call can be repeated
  // ------------------------------------------------------------------------

  /** From agreement, every moment of a Run differs from agreement by the migration being executed
      at most, and every checkpoint validates. If the call fails, then repeating it, with functions
      that can be run again and no further failure, ends in agreement. */
  method RunTwice(runner: Runner, from: nat, through: nat) returns (r: Outcome, ghost h: nat, ghost again: nat)
    requires Distinct(runner.reg) && from <= through < |runner.reg|
    requires AgreeBut(World(runner.durable, runner.effects, None), {})
    requires Validates(runner.reg, runner.durable) && NoStale(runner.reg, runner.durable, 0, through + 1)
    modifies runner
    ensures |old(runner.history)| <= h <= |runner.history|
    ensures forall k ::
      |old(runner.history)| <= k < h ==>
        AgreeBut(runner.history[k], {}) && Validates(runner.reg, runner.history[k].durable)
    ensures runner.Quiet(again) ==> r == Done
    ensures r == Done ==> AgreeBut(World(runner.durable, runner.effects, None), {})
  {
    ghost var s0, h0, rest := runner.durable, |runner.history|, {};
    r, rest := runner.Run(from, through, {});
    h, again := |runner.history|, runner.step;
    forall k | h0 <= k < h
      ensures Validates(runner.reg, runner.history[k].durable)
    {
      EveryCheckpointValidates(runner.reg, s0, from, through, runner.clock, runner.history[k].durable);
    }
    EveryCheckpointValidates(runner.reg, s0, from, through, runner.clock, runner.durable);
    if r != Done {
      r, rest := runner.Run(from, through, rest);
    }
  }

  /** The same for Revert. */
  method RevertTwice(runner: Runner, target: nat) returns (r: Outcome, ghost h: nat, ghost again: nat)
    requires Distinct(runner.reg) && target < |runner.reg|
    requires AgreeBut(World(runner.durable, runner.effects, None), {})
    requires Validates(runner.reg, runner.durable) && !Stuck(runner.reg, runner.durable, target)
    modifies runner
    ensures |old(runner.history)| <= h <= |runner.history|
    ensures forall k ::
      |old(runner.history)| <= k < h ==>
        AgreeBut(runner.history[k], {}) && Validates(runner.reg, runner.history[k].durable)
    ensures runner.Quiet(again) ==> r == Done
    ensures r == Done ==> AgreeBut(World(runner.durable, runner.effects, None), {})
  {
    ghost var s0, h0, rest := runner.durable, |runner.history|, {};
    r, rest := runner.Revert(target, {});
    h, again := |runner.history|, runner.step;
    forall k | h0 <= k < h
      ensures Validates(runner.reg, runner.history[k].durable)
    {
      RevertCheckpoint(runner.reg, s0, target, runner.history[k].durable);
    }
    RevertCheckpoint(runner.reg, s0, target, runner.durable);
    if r != Done {
      r, rest := runner.Revert(target, rest);
    }
  }

  /** The latest marked migration was never run. */
  predicate NewestOnlyMarked(reg: seq<Migration>, s: Durable) {
    Newest(reg, s, |reg|) < |reg| && reg[Newest(reg, s, |reg|)].id in s.skipped
  }

  /** The same for RevertOne, which is not idempotent. The first call reverts the latest migration in
      the store exactly if its checkpoint gets there, and succeeds exactly if the save also says so.
      Where the two differ the repeated call goes on to the migration before, which may have no
      Down; agreement holds in any case. */
  method RevertOneTwice(runner: Runner)
    returns (first: Outcome, r: Outcome, ghost between: Durable, ghost h: nat, ghost again: nat)
    requires Distinct(runner.reg) && AgreeBut(World(runner.durable, runner.effects, None), {})
    requires Validates(runner.reg, runner.durable)
    requires !Stuck(runner.reg, runner.durable, Newest(runner.reg, runner.durable, |runner.reg|))
    modifies runner
    ensures |old(runner.history)| <= h <= |runner.history|
    ensures forall k ::
      |old(runner.history)| <= k < h ==>
        AgreeBut(runner.history[k], {}) && Validates(runner.reg, runner.history[k].durable)
    // The first call.
    ensures var s := old(runner.durable);
      if Newest(runner.reg, s, |runner.reg|) == |runner.reg| then first == Done && between == s
      else runner.OneRevert(old(runner.step), NewestOnlyMarked(runner.reg, s), s, OneReverted(runner.reg, s),
        between, first == Done, again)
    // Both calls.
    ensures first == Done ==> r == Done && runner.durable == between
    ensures first != Done && r == Done ==> runner.durable == OneReverted(runner.reg, between)
    ensures runner.Quiet(again) ==> AgreeBut(World(runner.durable, runner.effects, None), {})
    ensures runner.Quiet(again) ==>
      var stuck := first != Done && Stuck(runner.reg, between, Newest(runner.reg, between, |runner.reg|));
      r == if stuck then Failed(Irreversible) else Done
    // Repeating reverts one migration exactly unless a checkpoint was stored that seemed to fail.
    ensures r == Done ==>
      var once := OneReverted(runner.reg, old(runner.durable));
      var further := first != Done && between == once && OneReverted(runner.reg, once) != once;
      (runner.durable == once <==> !further) && (further ==> runner.durable == OneReverted(runner.reg, once))
  {
    ghost var s0, h0, rest := runner.durable, |runner.history|, {};
    RevertKeepsValid(runner.reg, s0, Newest(runner.reg, s0, |runner.reg|));
    first, rest := runner.RevertOne({});
    h, again, between, r := |runner.history|, runner.step, runner.durable, first;
    if first != Done {
      r, rest := runner.RevertOne(rest);
    }
  }

  /** Two migrations, both run; the save of the first RevertOne fails but reaches the store. */
  method RevertOneGoesFurther() returns (first: Outcome, r: Outcome, runner: Runner)
    ensures first != Done && r == Done
    ensures !IsApplied(runner.durable, "a") && !IsApplied(runner.durable, "b")
    ensures EffectOf(runner.effects, "a") == Off && EffectOf(runner.effects, "b") == Off
  {
    var reg := [Migration("a", "", true), Migration("b", "", true)];
    var s := Durable("b", 2, map["a" := Some(1), "b" := Some(2)], map[], map[]);
    runner := new Runner(reg, _ => 0, n => if n == 3 then SaveFails(true) else Fine, s, map["a" := On, "b" := On]);
    BothMarked(reg, s);
    ghost var between, h, again;
    first, r, between, h, again := RevertOneTwice(runner);
    assert Agrees(World(runner.durable, runner.effects, None), "a");
    assert Agrees(World(runner.durable, runner.effects, None), "b");
  }

  lemma BothMarked(reg: seq<Migration>, s: Durable)
    requires reg == [Migration("a", "", true), Migration("b", "", true)]
    requires s == Durable("b", 2, map["a" := Some(1), "b" := Some(2)], map[], map[])
    ensures Distinct(reg) && Validates(reg, s) && Newest(reg, s, 2) == 1 && !Stuck(reg, s, 1)
    ensures AgreeBut(World(s, map["a" := On, "b" := On], None), {})
    ensures var once := OneReverted(reg, s);
      once != s && !Stuck(reg, once, Newest(reg, once, 2))
      && !IsApplied(OneReverted(reg, once), "a") && !IsApplied(OneReverted(reg, once), "b")
  {
    assert reg[0].id == "a" && reg[1].id == "b";
    assert IsApplied(s, reg[1].id);
    var once := RevertedTo(reg, s, 1);
    RevertedToMarks(reg, s, 1);
    assert Ids(reg, 1, 2) == {"b"} && IsApplied(once, reg[0].id) && !IsApplied(once, reg[1].id);
    assert Newest(reg, once, 2) == Newest(reg, once, 1) == 0;
    RevertedToMarks(reg, once, 0);
    assert Ids(reg, 0, 2) == {"a", "b"};
  }

  lemma RevertCheckpoint(reg: seq<Migration>, s: Durable, target: nat, t: Durable)
    requires Distinct(reg) && target <= |reg| && Validates(reg, s) && t in RevertPassed(reg, s, target)
    ensures Validates(reg, t)
    ensures Stuck(reg, t, target) ==> Stuck(reg, s, target)
  {
    var j :| target <= j <= |reg| && t == RevertedTo(reg, s, j);
    RevertKeepsValid(reg, s, j);
    RevertedToMarks(reg, s, j);
    if Stuck(reg, t, target) {
      var i :| target <= i < |reg| && NeedsMissingDown(t, reg[i]);
      assert InForce(t, reg[i].id) && NeedsMissingDown(s, reg[i]);
    }
  }
}
