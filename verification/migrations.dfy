/** The migration runner of migration/migration.go: checkpoints of the durable state against what
    the migrations have done in place, with a failure possible at every step. */
module Migrations {
  import opened Options

  datatype Migration = Migration(id: string, checksum: string, reversible: bool)

  /** The persisted State; a migration that was reverted keeps its key without a timestamp. */
  datatype Durable = Durable(last: string, lastTime: int, applied: map<string, Option<int>>, skipped: map<string, int>,
    checksums: map<string, string>)

  predicate IsApplied(s: Durable, id: string) {
    id in s.applied && s.applied[id].Some?
  }

  function ChecksumOf(s: Durable, id: string): string {
    if id in s.checksums then s.checksums[id] else ""
  }

  predicate Distinct(reg: seq<Migration>) {
    forall i, j :: 0 <= i < j < |reg| ==> reg[i].id != reg[j].id
  }

  predicate Registered(reg: seq<Migration>, id: string) {
    exists i :: 0 <= i < |reg| && reg[i].id == id
  }

  // ------------------------------------------------------------------------
  // Validation
  // ------------------------------------------------------------------------

  predicate AppliedIsCompiled(reg: seq<Migration>, s: Durable, id: string) {
    exists i :: 0 <= i < |reg| && reg[i].id == id && (ChecksumOf(s, id) == "" || ChecksumOf(s, id) == reg[i].checksum)
  }

  /** validateState. */
  predicate Validates(reg: seq<Migration>, s: Durable) {
    && (forall id :: id in s.applied && IsApplied(s, id) ==> AppliedIsCompiled(reg, s, id))
    && (forall id :: id in s.skipped ==> IsApplied(s, id))
    && (forall id :: id in s.checksums ==> Registered(reg, id))
  }

  // ------------------------------------------------------------------------
  // Checkpoints
  // ------------------------------------------------------------------------

  function Recorded(s: Durable, m: Migration): map<string, string> {
    if m.checksum != "" then s.checksums[m.id := m.checksum] else s.checksums
  }

  function MarkApplied(s: Durable, m: Migration, now: int): Durable {
    Durable(m.id, now, s.applied[m.id := Some(now)], s.skipped - {m.id}, Recorded(s, m))
  }

  function MarkSkipped(s: Durable, m: Migration, now: int): Durable {
    s.(applied := s.applied[m.id := Some(now)], skipped := s.skipped[m.id := now], checksums := Recorded(s, m))
  }

  function Unmarked(s: Durable, m: Migration): Durable {
    s.(applied := s.applied[m.id := None], skipped := s.skipped - {m.id}, checksums := s.checksums - {m.id})
  }

  /** latestApplied, over the first `n` migrations. */
  function Latest(reg: seq<Migration>, s: Durable, n: nat): (string, int)
    requires n <= |reg|
  {
    if n == 0 then ("", 0)
    else if IsApplied(s, reg[n - 1].id) then (reg[n - 1].id, s.applied[reg[n - 1].id].value)
    else Latest(reg, s, n - 1)
  }

  function MarkReverted(reg: seq<Migration>, s: Durable, m: Migration): Durable {
    var t := Unmarked(s, m);
    t.(last := Latest(reg, t, |reg|).0, lastTime := Latest(reg, t, |reg|).1)
  }

  predicate NeedsBaseline(s: Durable, m: Migration) {
    IsApplied(s, m.id) && m.checksum != "" && ChecksumOf(s, m.id) == ""
  }

  /** backfillChecksums, over the first `n` migrations. */
  function Backfilled(reg: seq<Migration>, s: Durable, n: nat): Durable
    requires n <= |reg|
  {
    if n == 0 then s
    else
      var t := Backfilled(reg, s, n - 1);
      if NeedsBaseline(t, reg[n - 1]) then t.(checksums := t.checksums[reg[n - 1].id := reg[n - 1].checksum]) else t
  }

  /** The state after the run loop has passed the migrations from `from` to before `k`. */
  function RanTo(reg: seq<Migration>, s: Durable, from: nat, k: nat, clock: nat -> int): Durable
    requires from <= k <= |reg|
  {
    if k == from then s
    else
      var t := RanTo(reg, s, from, k - 1, clock);
      if IsApplied(t, reg[k - 1].id) then t else MarkApplied(t, reg[k - 1], clock(k - 1))
  }

  function SkippedTo(reg: seq<Migration>, s: Durable, k: nat, clock: nat -> int): Durable
    requires k <= |reg|
  {
    if k == 0 then s
    else
      var t := SkippedTo(reg, s, k - 1, clock);
      if IsApplied(t, reg[k - 1].id) then t else MarkSkipped(t, reg[k - 1], clock(k - 1))
  }

  /** The state after the revert loop has passed the migrations from the last down to `k`. */
  function RevertedTo(reg: seq<Migration>, s: Durable, k: nat): Durable
    requires k <= |reg|
    decreases |reg| - k
  {
    if k == |reg| then s
    else
      var t := RevertedTo(reg, s, k + 1);
      if IsApplied(t, reg[k].id) then MarkReverted(reg, t, reg[k]) else t
  }

  // ------------------------------------------------------------------------
  // What has happened in place
  // ------------------------------------------------------------------------

  datatype Effect = Off | On | Torn    // Torn: a function failed part of the way

  /** A moment of a call: what a crash here would leave behind. */
  datatype World = World(durable: Durable, effects: map<string, Effect>, executing: Option<string>)

  function EffectOf(effects: map<string, Effect>, id: string): Effect {
    if id in effects then effects[id] else Off
  }

  /** A skipped migration counts as applied but was never run. */
  predicate InForce(s: Durable, id: string) {
    IsApplied(s, id) && id !in s.skipped
  }

  predicate Agrees(w: World, id: string) {
    EffectOf(w.effects, id) == if InForce(w.durable, id) then On else Off
  }

  /** Durable state and effects agree on everything but the given migrations and the one being
      executed. */
  ghost predicate AgreeBut(w: World, left: set<string>) {
    forall id :: id !in left && w.executing != Some(id) ==> Agrees(w, id)
  }

  /** What goes wrong at a step, if anything. A failed save may or may not have reached the store. */
  datatype Fault = Fine | ContextEnds | FunctionFails | SaveFails(reached: bool)

  datatype Failure = Drift | Ended | UpFailed | DownFailed | CheckpointFailed | Irreversible

  datatype Outcome = Done | Failed(reason: Failure)

  class Runner {
    const reg: seq<Migration>
    const clock: nat -> int         // the time when a migration is marked
    const faults: nat -> Fault      // what the environment does at each step
    var step: nat
    var durable: Durable
    var effects: map<string, Effect>
    var executing: Option<string>
    ghost var history: seq<World>   // every moment so far

    constructor (reg: seq<Migration>, clock: nat -> int, faults: nat -> Fault, durable: Durable,
          effects: map<string, Effect>)
      ensures this.reg == reg && this.clock == clock && this.faults == faults
      ensures this.durable == durable && this.effects == effects && executing == None && history == [] && step == 0
    {
      this.reg, this.clock, this.faults, this.durable, this.effects := reg, clock, faults, durable, effects;
      executing, history, step := None, [], 0;
    }

    /** Nothing goes wrong from step `n` on. */
    ghost predicate Quiet(n: nat) {
      forall k :: n <= k ==> faults(k) == Fine
    }

    /** A revert that starts at step `n` gets as far as its checkpoint; one of a migration that was
        only marked does so at once. */
    ghost predicate ReachesSave(n: nat, marked: bool) {
      marked || (faults(n) != ContextEnds && faults(n + 1) != FunctionFails && faults(n + 2) != ContextEnds)
    }

    ghost function SaveStep(n: nat, marked: bool): nat {
      if marked then n else n + 3
    }

    /** ... and the save succeeds. */
    ghost predicate Completes(n: nat, marked: bool) {
      var fault := faults(SaveStep(n, marked));
      ReachesSave(n, marked) && !fault.ContextEnds? && !fault.SaveFails?
    }

    /** ... or fails, but has reached the store. */
    ghost predicate Stores(n: nat, marked: bool) {
      Completes(n, marked) || (ReachesSave(n, marked) && faults(SaveStep(n, marked)) == SaveFails(true))
    }

    /** What the environment makes of the revert of one migration, which would take s to t. */
    ghost predicate OneRevert(n: nat, marked: bool, s: Durable, t: Durable, now: Durable, done: bool, after: nat) {
      && (done <==> Completes(n, marked))
      && now == (if Stores(n, marked) then t else s)
      && (ReachesSave(n, marked) ==> after == SaveStep(n, marked) + 1)
    }

    ghost function Now(): World
      reads this
    {
      World(durable, effects, executing)
    }

    /** checkExecutionContext. */
    method Check() returns (ok: bool)
      modifies this`step, this`history
      ensures step == old(step) + 1 && history == old(history) + [Now()]
      ensures ok <==> faults(old(step)) != ContextEnds
    {
      ok := faults(step) != ContextEnds;
      step, history := step + 1, history + [Now()];
    }

    /** An application's Up or Down: it takes effect, or fails and leaves anything behind. */
    method Perform(id: string, effect: Effect) returns (ok: bool)
      modifies this`step, this`history, this`effects
      ensures step == old(step) + 1 && history == old(history) + [Now()]
      ensures ok <==> faults(old(step)) != FunctionFails
      ensures effects == old(effects)[id := if ok then effect else Torn]
    {
      ok := faults(step) != FunctionFails;
      effects := effects[id := if ok then effect else Torn];
      step, history := step + 1, history + [Now()];
    }

    /** saveState: refused once the context has ended; a failed write may have reached the store. */
    method Save(s: Durable) returns (ok: bool)
      modifies this`step, this`history, this`durable
      ensures step == old(step) + 1 && history == old(history) + [Now()]
      ensures ok <==> !faults(old(step)).ContextEnds? && !faults(old(step)).SaveFails?
      ensures durable == if ok || faults(old(step)) == SaveFails(true) then s else old(durable)
    {
      var fault := faults(step);
      ok := !fault.ContextEnds? && !fault.SaveFails?;
      if ok || fault == SaveFails(true) {
        durable := s;
      }
      step, history := step + 1, history + [Now()];
    }

    /** One turn of the run loop for a pending migration: the effect comes first, the checkpoint
        after it, and the context is looked at around both. */
    method ApplyOne(index: nat, ghost left: set<string>) returns (failure: Option<Failure>)
      requires index < |reg| && !IsApplied(durable, reg[index].id)
      requires executing == None && AgreeBut(Now(), left)
      modifies this
      ensures Grown(old(history), history) &&
        Since(history, |old(history)|, left, old(durable), MarkApplied(old(durable), reg[index], clock(index)))
      ensures failure == None ==> durable == MarkApplied(old(durable), reg[index], clock(index))
      ensures failure == None ==> executing == None && AgreeBut(Now(), left - {reg[index].id})
      ensures failure.Some? ==>
        durable == old(durable) || durable == MarkApplied(old(durable), reg[index], clock(index))
      ensures failure.Some? ==> executing == Some(reg[index].id) && AgreeBut(Now(), left)
      ensures failure.Some? && durable != old(durable) ==> Agrees(Now(), reg[index].id)
      ensures old(step) <= step && (Quiet(old(step)) ==> failure == None) && failure != Some(Drift) &&
        failure != Some(Irreversible)
    {
      var m := reg[index];
      executing := Some(m.id);
      ghost var marked := MarkApplied(durable, m, clock(index));
      OthersAgree(durable, marked, effects, m.id, left);
      failure := Execute(m.id, On, UpFailed);
      if failure == None {
        var ok := Save(MarkApplied(durable, m, clock(index)));
        if ok {
          executing := None;
        } else {
          failure := Some(CheckpointFailed);
        }
      }
    }

    /** The context check, the migration's function, and the context check again. */
    method Execute(id: string, effect: Effect, failed: Failure) returns (failure: Option<Failure>)
      requires failed != Drift && failed != Irreversible
      modifies this`step, this`history, this`effects
      ensures Grown(old(history), history) && Moments(history, |old(history)|, durable, old(effects), id, executing)
      ensures OnlyChanges(old(effects), effects, id)
      ensures failure == None ==> effects == old(effects)[id := effect]
      ensures old(step) <= step && (Quiet(old(step)) ==> failure == None) && failure != Some(Drift) &&
        failure != Some(Irreversible)
      ensures failure == None <==> ReachesSave(old(step), false)
      ensures failure == None ==> step == old(step) + 3
    {
      var ok := Check();
      if !ok {
        return Some(Ended);
      }
      ok := Perform(id, effect);
      if !ok {
        return Some(failed);
      }
      ok := Check();
      failure := if ok then None else Some(Ended);
    }

    /** One turn of the loop that suppresses earlier migrations: nothing is run. */
    method SkipOne(index: nat) returns (failure: Option<Failure>)
      requires index < |reg| && !IsApplied(durable, reg[index].id)
      requires executing == None && AgreeBut(Now(), {})
      modifies this`step, this`history, this`durable
      ensures Grown(old(history), history) &&
        Since(history, |old(history)|, {}, old(durable), MarkSkipped(old(durable), reg[index], clock(index)))
      ensures failure == None ==> durable == MarkSkipped(old(durable), reg[index], clock(index))
      ensures durable == old(durable) || durable == MarkSkipped(old(durable), reg[index], clock(index))
      ensures AgreeBut(Now(), {})
      ensures old(step) <= step && (Quiet(old(step)) ==> failure == None) && failure != Some(Drift) &&
        failure != Some(Irreversible)
    {
      ghost var marked := MarkSkipped(durable, reg[index], clock(index));
      SameForce(durable, marked, effects, {});
      var ok := Save(MarkSkipped(durable, reg[index], clock(index)));
      failure := if ok then None else Some(CheckpointFailed);
    }

    /** backfillChecksums: one save, and only if something was missing. */
    method BackfillChecksums(ghost left: set<string>) returns (failure: Option<Failure>)
      requires executing == None && AgreeBut(Now(), left)
      modifies this`step, this`history, this`durable
      ensures Grown(old(history), history) &&
        Since(history, |old(history)|, left, old(durable), Backfilled(reg, old(durable), |reg|))
      ensures failure == None ==> durable == Backfilled(reg, old(durable), |reg|)
      ensures durable == old(durable) || durable == Backfilled(reg, old(durable), |reg|)
      ensures AgreeBut(Now(), left)
      ensures old(step) <= step && (Quiet(old(step)) ==> failure == None) && failure != Some(Drift) &&
        failure != Some(Irreversible)
    {
      var state, changed, index := durable, false, 0;
      while index < |reg|
        invariant 0 <= index <= |reg| && state == Backfilled(reg, durable, index)
        invariant !changed ==> state == durable
      {
        if NeedsBaseline(state, reg[index]) {
          state := state.(checksums := state.checksums[reg[index].id := reg[index].checksum]);
          changed := true;
        }
        index := index + 1;
      }
      failure := None;
      BackfillKeepsMarks(reg, durable, |reg|);
      SameForce(durable, state, effects, left);
      if changed {
        var ok := Save(state);
        failure := if ok then None else Some(CheckpointFailed);
      }
    }

    /** The run loop over an inclusive range. On failure `rest` is what a repeated call still finds
        out of step, and it will find all of it pending. */
    method RunRange(from: nat, through: nat, ghost left: set<string>)
      returns (failure: Option<Failure>, ghost rest: set<string>)
      requires Distinct(reg) && from <= through < |reg| && executing == None
      requires AgreeBut(Now(), left) && left <= Pending(reg, durable, from, through + 1)
      modifies this
      ensures Grown(old(history), history) &&
        During(history, |old(history)|, left, RunPassed(reg, old(durable), from, through + 1, clock))
      ensures durable in RunPassed(reg, old(durable), from, through + 1, clock)
      ensures failure == None ==>
        executing == None && AgreeBut(Now(), {}) && durable == RanTo(reg, old(durable), from, through + 1, clock)
      ensures failure.Some? ==>
        AgreeBut(World(durable, effects, None), rest) && rest <= Pending(reg, durable, from, through + 1)
      ensures old(step) <= step && (Quiet(old(step)) ==> failure == None) && failure != Some(Drift) &&
        failure != Some(Irreversible)
    {
      ghost var s0, h0 := durable, |history|;
      failure, rest := None, left;
      var index := from;
      while index <= through && failure == None
        invariant old(step) <= step && (Quiet(old(step)) ==> failure == None) && failure != Some(Drift) &&
          failure != Some(Irreversible)
        invariant from <= index <= through + 1
        invariant Grown(old(history), history) &&
          During(history, h0, left, RunPassed(reg, s0, from, through + 1, clock))
        invariant failure == None ==> executing == None && durable == RanTo(reg, s0, from, index, clock)
        invariant failure == None ==> AgreeBut(Now(), left - Ids(reg, from, index))
        invariant failure.Some? ==>
          AgreeBut(World(durable, effects, None), rest) && rest <= Pending(reg, durable, from, through + 1)
        invariant durable in RunPassed(reg, s0, from, through + 1, clock)
        decreases through + 1 - index, failure.None?
      {
        if IsApplied(durable, reg[index].id) {
          PassedOver(reg, s0, from, through, index, clock, left);
          index := index + 1;
        } else {
          failure, rest := RunOne(from, through, index, s0, left);
          index := if failure == None then index + 1 else index;
        }
      }
      if failure == None {
        assert left - Ids(reg, from, through + 1) == {};
      }
    }

    /** A pending migration of the run loop. */
    method RunOne(from: nat, through: nat, index: nat, ghost s0: Durable, ghost left: set<string>)
      returns (failure: Option<Failure>, ghost rest: set<string>)
      requires Distinct(reg) && from <= index <= through < |reg| && executing == None
      requires durable == RanTo(reg, s0, from, index, clock) && !IsApplied(durable, reg[index].id)
      requires AgreeBut(Now(), left - Ids(reg, from, index)) && left <= Pending(reg, s0, from, through + 1)
      modifies this
      ensures Grown(old(history), history) &&
        During(history, |old(history)|, left, RunPassed(reg, s0, from, through + 1, clock))
      ensures durable in RunPassed(reg, s0, from, through + 1, clock)
      ensures failure == None ==> executing == None && durable == RanTo(reg, s0, from, index + 1, clock)
      ensures failure == None ==> AgreeBut(Now(), left - Ids(reg, from, index + 1))
      ensures failure.Some? ==>
        AgreeBut(World(durable, effects, None), rest) && rest <= Pending(reg, durable, from, through + 1)
      ensures old(step) <= step && (Quiet(old(step)) ==> failure == None) && failure != Some(Drift) &&
        failure != Some(Irreversible)
    {
      ghost var todo, h0 := left - Ids(reg, from, index), |history|;
      failure := ApplyOne(index, todo);
      rest := (todo + {reg[index].id}) - 
        (if durable == RanTo(reg, s0, from, index, clock) then {} else {reg[index].id});
      assert Ids(reg, from, index + 1) == Ids(reg, from, index) + {reg[index].id};
      assert left - Ids(reg, from, index + 1) == todo - {reg[index].id};
      InPassed(reg, s0, from, index, through + 1, clock);
      InPassed(reg, s0, from, index + 1, through + 1, clock);
      DuringOneStep(history, h0, todo, left, RanTo(reg, s0, from, index, clock),
        RanTo(reg, s0, from, index + 1, clock), RunPassed(reg, s0, from, through + 1, clock));
      if failure.Some? {
        StillPending(reg, s0, from, through, index, clock, left);
        RestAgrees(Now(), todo, reg[index].id, rest);
      }
    }

    /** The loop that suppresses the migrations before the range. */
    method SkipEarlier(from: nat) returns (failure: Option<Failure>)
      requires from <= |reg| && executing == None && AgreeBut(Now(), {})
      modifies this`step, this`history, this`durable
      ensures Grown(old(history), history) &&
        During(history, |old(history)|, {}, SkipPassed(reg, old(durable), from, clock))
      ensures durable in SkipPassed(reg, old(durable), from, clock) && AgreeBut(Now(), {})
      ensures failure == None ==> durable == SkippedTo(reg, old(durable), from, clock)
      ensures old(step) <= step && (Quiet(old(step)) ==> failure == None) && failure != Some(Drift) &&
        failure != Some(Irreversible)
    {
      ghost var s0, h0 := durable, |history|;
      failure := None;
      var index := 0;
      while index < from && failure == None
        invariant 0 <= index <= from
        invariant old(step) <= step && (Quiet(old(step)) ==> failure == None) && failure != Some(Drift) &&
          failure != Some(Irreversible)
        invariant Grown(old(history), history) && During(history, h0, {}, SkipPassed(reg, s0, from, clock))
        invariant AgreeBut(Now(), {})
        invariant failure == None ==> durable == SkippedTo(reg, s0, index, clock)
        invariant durable in SkipPassed(reg, s0, from, clock)
        decreases from - index, failure.None?
      {
        if !IsApplied(durable, reg[index].id) {
          ghost var h := |history|;
          failure := SkipOne(index);
          SkippedPassed(reg, s0, index, from, clock);
          SkippedPassed(reg, s0, index + 1, from, clock);
          DuringOneStep(history, h, {}, {}, SkippedTo(reg, s0, index, clock), SkippedTo(reg, s0, index + 1, clock),
            SkipPassed(reg, s0, from, clock));
        }
        index := if failure == None then index + 1 else index;
      }
    }

    /** Run, once the targets are resolved. `left` is what an earlier, failed call of the same range
        may have left out of step; `rest` is what this one leaves. */
    method Run(from: nat, through: nat, ghost left: set<string>) returns (r: Outcome, ghost rest: set<string>)
      requires Distinct(reg) && from <= through < |reg|
      requires AgreeBut(World(durable, effects, None), left) && left <= Pending(reg, durable, from, through + 1)
      modifies this
      ensures Grown(old(history), history) &&
        During(history, |old(history)|, left, RunCheckpoints(reg, old(durable), from, through, clock))
      ensures durable in RunCheckpoints(reg, old(durable), from, through, clock)
      ensures r == Failed(Drift) <==> !Validates(reg, old(durable))
      ensures r == Failed(Drift) ==> durable == old(durable) && effects == old(effects)
      ensures r == Done ==>
        AgreeBut(World(durable, effects, None), {}) && durable == RunResult(reg, old(durable), from, through, clock)
      ensures AgreeBut(World(durable, effects, None), rest) && rest <= Pending(reg, durable, from, through + 1)
      ensures old(step) <= step && (Quiet(old(step)) && Validates(reg, old(durable)) ==> r == Done)
    {
      executing, rest := None, left;
      if !Validates(reg, durable) {
        return Failed(Drift), left;
      }
      ghost var s0, h0 := durable, |history|;
      ghost var base := Backfilled(reg, s0, |reg|);
      BackfillKeepsMarks(reg, s0, |reg|);
      SamePending(reg, s0, base, from, through + 1);
      var failure := BackfillChecksums(left);
      DuringOneStep(history, h0, left, left, s0, base, RunCheckpoints(reg, s0, from, through, clock));
      if failure == None {
        ghost var h1 := |history|;
        failure, rest := RunRange(from, through, left);
        DuringMore(history, h0, h1, left, RunPassed(reg, base, from, through + 1, clock),
          RunCheckpoints(reg, s0, from, through, clock));
        if failure == None {
          ghost var ran, h2 := durable, |history|;
          rest := {};
          failure := SkipEarlier(from);
          DuringMore(history, h0, h2, left, SkipPassed(reg, ran, from, clock),
            RunCheckpoints(reg, s0, from, through, clock));
        }
      }
      r := if failure == None then Done else Failed(failure.value);
    }

    /** One turn of the revert loop: Down runs unless the migration was only marked. */
    method RevertStep(index: nat, ghost left: set<string>) returns (failure: Option<Failure>)
      requires index < |reg| && IsApplied(durable, reg[index].id)
      requires executing == None && AgreeBut(Now(), left) && forall id :: id in left ==> InForce(durable, id)
      modifies this
      ensures Grown(old(history), history) &&
        Since(history, |old(history)|, left, old(durable), MarkReverted(reg, old(durable), reg[index]))
      ensures failure == None ==> durable == MarkReverted(reg, old(durable), reg[index])
      ensures failure == None ==> executing == None && AgreeBut(Now(), left - {reg[index].id})
      ensures durable == old(durable) || durable == MarkReverted(reg, old(durable), reg[index])
      ensures failure.Some? ==> executing == Some(reg[index].id) && AgreeBut(Now(), left)
      ensures failure.Some? && (durable != old(durable) || !InForce(old(durable), reg[index].id)) ==>
        Agrees(Now(), reg[index].id)
      ensures old(step) <= step && (Quiet(old(step)) ==> failure == None) && failure != Some(Drift) &&
        failure != Some(Irreversible)
      ensures OneRevert(old(step), reg[index].id in old(durable).skipped, old(durable),
        MarkReverted(reg, old(durable), reg[index]), durable, failure == None, step)
    {
      var m := reg[index];
      executing := Some(m.id);
      ghost var marked := MarkReverted(reg, durable, m);
      OthersAgree(durable, marked, effects, m.id, left);
      assert !InForce(durable, m.id) ==> Agrees(World(durable, effects, None), m.id) by {
        if !InForce(durable, m.id) { assert m.id !in left && Agrees(old(Now()), m.id); }
      }
      failure := None;
      if m.id !in durable.skipped {
        failure := Execute(m.id, Off, DownFailed);
      }
      if failure == None {
        var ok := Save(MarkReverted(reg, durable, m));
        if ok {
          executing := None;
        } else {
          failure := Some(CheckpointFailed);
        }
      }
    }

    /** The revert loop from the last migration down to `target`. */
    method RevertRange(target: nat, ghost left: set<string>) returns (failure: Option<Failure>, ghost rest: set<string>)
      requires Distinct(reg) && target < |reg| && executing == None
      requires AgreeBut(Now(), left) && left <= Forced(reg, durable, target)
      modifies this
      ensures Grown(old(history), history) &&
        During(history, |old(history)|, left, RevertPassed(reg, old(durable), target))
      ensures durable in RevertPassed(reg, old(durable), target)
      ensures failure == None ==>
        executing == None && AgreeBut(Now(), {}) && durable == RevertedTo(reg, old(durable), target)
      ensures failure.Some? ==> AgreeBut(World(durable, effects, None), rest) && rest <= Forced(reg, durable, target)
      ensures old(step) <= step && (Quiet(old(step)) ==> failure == None) && failure != Some(Drift) &&
        failure != Some(Irreversible)
      ensures target == Newest(reg, old(durable), |reg|) ==>
        OneRevert(old(step), reg[target].id in old(durable).skipped, old(durable),
          RevertedTo(reg, old(durable), target), durable, failure == None, step)
    {
      ghost var s0, h0 := durable, |history|;
      failure, rest := None, left;
      var index := |reg|;
      RevertedPassed(reg, s0, index, target);
      ghost var last := target == Newest(reg, s0, |reg|);
      NewestIs(reg, s0, |reg|);
      while index > target && failure == None
        invariant target <= index <= |reg|
        invariant old(step) <= step && (Quiet(old(step)) ==> failure == None) && failure != Some(Drift) &&
          failure != Some(Irreversible)
        invariant Grown(old(history), history) && During(history, h0, left, RevertPassed(reg, s0, target))
        invariant failure == None ==> executing == None && durable == RevertedTo(reg, s0, index)
        invariant failure == None ==> AgreeBut(Now(), left - Ids(reg, index, |reg|))
        invariant failure.Some? ==>
          AgreeBut(World(durable, effects, None), rest) && rest <= Forced(reg, durable, target)
        invariant durable in RevertPassed(reg, s0, target)
        invariant last && failure == None && index > target ==> durable == s0 && step == old(step)
        invariant last && (failure.Some? || index == target) ==>
          OneRevert(old(step), reg[target].id in s0.skipped, s0, RevertedTo(reg, s0, target), durable, failure == None,
            step)
      {
        index := index - 1;
        failure, rest := RevertTurn(target, index, s0, left);
      }
      if failure == None {
        assert left - Ids(reg, target, |reg|) == {};
      }
    }

    /** One turn of the revert loop: a migration that is not marked is passed over. */
    method RevertTurn(target: nat, index: nat, ghost s0: Durable, ghost left: set<string>)
      returns (failure: Option<Failure>, ghost rest: set<string>)
      requires Distinct(reg) && target <= index < |reg| && executing == None
      requires durable == RevertedTo(reg, s0, index + 1)
      requires AgreeBut(Now(), left - Ids(reg, index + 1, |reg|)) && left <= Forced(reg, s0, target)
      modifies this
      ensures Grown(old(history), history) && During(history, |old(history)|, left, RevertPassed(reg, s0, target))
      ensures durable in RevertPassed(reg, s0, target)
      ensures failure == None ==> executing == None && durable == RevertedTo(reg, s0, index)
      ensures failure == None ==> AgreeBut(Now(), left - Ids(reg, index, |reg|))
      ensures failure.Some? ==> AgreeBut(World(durable, effects, None), rest) && rest <= Forced(reg, durable, target)
      ensures old(step) <= step && (Quiet(old(step)) ==> failure == None) && failure != Some(Drift) &&
        failure != Some(Irreversible)
      ensures !IsApplied(old(durable), reg[index].id) ==>
        failure == None && durable == old(durable) && step == old(step)
      ensures IsApplied(old(durable), reg[index].id) ==>
        OneRevert(old(step), reg[index].id in old(durable).skipped, old(durable),
          RevertedTo(reg, s0, index), durable, failure == None, step)
    {
      if IsApplied(durable, reg[index].id) {
        failure, rest := RevertMarked(target, index, s0, left);
      } else {
        failure, rest := None, left;
        NotForced(reg, s0, target, index, left);
        RevertedPassed(reg, s0, index, target);
      }
    }

    /** A marked migration of the revert loop. */
    method RevertMarked(target: nat, index: nat, ghost s0: Durable, ghost left: set<string>)
      returns (failure: Option<Failure>, ghost rest: set<string>)
      requires Distinct(reg) && target <= index < |reg| && executing == None
      requires durable == RevertedTo(reg, s0, index + 1) && IsApplied(durable, reg[index].id)
      requires AgreeBut(Now(), left - Ids(reg, index + 1, |reg|)) && left <= Forced(reg, s0, target)
      modifies this
      ensures Grown(old(history), history) && During(history, |old(history)|, left, RevertPassed(reg, s0, target))
      ensures durable in RevertPassed(reg, s0, target)
      ensures failure == None ==> executing == None && durable == RevertedTo(reg, s0, index)
      ensures failure == None ==> AgreeBut(Now(), left - Ids(reg, index, |reg|))
      ensures failure.Some? ==> AgreeBut(World(durable, effects, None), rest) && rest <= Forced(reg, durable, target)
      ensures old(step) <= step && (Quiet(old(step)) ==> failure == None) && failure != Some(Drift) &&
        failure != Some(Irreversible)
      ensures OneRevert(old(step), reg[index].id in old(durable).skipped, old(durable),
        RevertedTo(reg, s0, index), durable, failure == None, step)
    {
      ghost var todo, h0, before := left - Ids(reg, index + 1, |reg|), |history|, durable;
      StillForced(reg, s0, target, index, left);
      failure := RevertStep(index, todo);
      rest := if durable == before && InForce(before, reg[index].id) then todo + {reg[index].id}
        else todo - {reg[index].id};
      assert Ids(reg, index, |reg|) == Ids(reg, index + 1, |reg|) + {reg[index].id};
      assert left - Ids(reg, index, |reg|) == todo - {reg[index].id};
      RevertedPassed(reg, s0, index + 1, target);
      RevertedPassed(reg, s0, index, target);
      DuringOneStep(history, h0, todo, left, before, RevertedTo(reg, s0, index), RevertPassed(reg, s0, target));
      if failure.Some? {
        RestAgrees(Now(), todo, reg[index].id, rest);
      }
    }

    /** Revert, once the target is resolved: nothing is touched if any migration of the range would
        need a Down it does not have. */
    method Revert(target: nat, ghost left: set<string>) returns (r: Outcome, ghost rest: set<string>)
      requires Distinct(reg) && target < |reg|
      requires AgreeBut(World(durable, effects, None), left) && left <= Forced(reg, durable, target)
      modifies this
      ensures Grown(old(history), history) &&
        During(history, |old(history)|, left, RevertPassed(reg, old(durable), target))
      ensures durable in RevertPassed(reg, old(durable), target)
      ensures r == Failed(Drift) <==> !Validates(reg, old(durable))
      ensures r == Failed(Irreversible) <==> Validates(reg, old(durable)) && Stuck(reg, old(durable), target)
      ensures r == Failed(Drift) || r == Failed(Irreversible) ==>
        durable == old(durable) && effects == old(effects) && history == old(history)
      ensures r == Done ==>
        AgreeBut(World(durable, effects, None), {}) && durable == RevertedTo(reg, old(durable), target)
      ensures AgreeBut(World(durable, effects, None), rest) && rest <= Forced(reg, durable, target)
      ensures old(step) <= step
      ensures Quiet(old(step)) && Validates(reg, old(durable)) && !Stuck(reg, old(durable), target) ==> r == Done
      ensures Validates(reg, old(durable)) && target == Newest(reg, old(durable), |reg|) ==>
        Stuck(reg, old(durable), target) ||
        OneRevert(old(step), reg[target].id in old(durable).skipped, old(durable),
          RevertedTo(reg, old(durable), target), durable, r == Done, step)
    {
      executing, rest := None, left;
      RevertedPassed(reg, durable, |reg|, target);
      if !Validates(reg, durable) {
        return Failed(Drift), left;
      }
      var index := |reg|;
      while index > target
        invariant target <= index <= |reg|
        invariant forall i :: index <= i < |reg| ==> !NeedsMissingDown(durable, reg[i])
      {
        index := index - 1;
        if NeedsMissingDown(durable, reg[index]) {
          return Failed(Irreversible), left;
        }
      }
      ghost var s0 := durable;
      var failure;
      failure, rest := RevertRange(target, left);
      if failure == None {
        rest := {};
      }
      r := if failure == None then Done else Failed(failure.value);
    }

    /** RevertOne: the latest marked migration, if there is one. `left` is what an earlier, failed call
        may have left out of step; `rest` is what this one leaves, and nothing once its checkpoint
        has reached the store. */
    method RevertOne(ghost left: set<string>) returns (r: Outcome, ghost rest: set<string>)
      requires Distinct(reg) && AgreeBut(World(durable, effects, None), left)
      requires left <= Forced(reg, durable, Newest(reg, durable, |reg|))
      modifies this
      ensures Grown(old(history), history) &&
        Since(history, |old(history)|, left, old(durable), OneReverted(reg, old(durable)))
      ensures durable == old(durable) || durable == OneReverted(reg, old(durable))
      ensures r == Failed(Drift) <==> !Validates(reg, old(durable))
      ensures r == Failed(Irreversible) <==>
        Validates(reg, old(durable)) && Stuck(reg, old(durable), Newest(reg, old(durable), |reg|))
      ensures r == Failed(Drift) || r == Failed(Irreversible) ==>
        durable == old(durable) && effects == old(effects) && history == old(history)
      ensures r == Done ==> AgreeBut(World(durable, effects, None), {}) && durable == OneReverted(reg, old(durable))
      ensures AgreeBut(World(durable, effects, None), rest) && rest <= Forced(reg, durable, Newest(reg, durable, |reg|))
      ensures durable != old(durable) ==> rest == {}
      ensures old(step) <= step
      ensures Quiet(old(step)) && Validates(reg, old(durable)) ==>
        r == Done || Stuck(reg, old(durable), Newest(reg, old(durable), |reg|))
      ensures Validates(reg, old(durable)) && Newest(reg, old(durable), |reg|) == |reg| ==> r == Done
      ensures var i := Newest(reg, old(durable), |reg|);
        Validates(reg, old(durable)) && !Stuck(reg, old(durable), i) && i < |reg| ==>
          OneRevert(old(step), reg[i].id in old(durable).skipped, old(durable),
            OneReverted(reg, old(durable)), durable, r == Done, step)
    {
      rest := left;
      if !Validates(reg, durable) {
        return Failed(Drift), left;
      }
      var index := |reg|;
      while index > 0 && !IsApplied(durable, reg[index - 1].id)
        invariant 0 <= index <= |reg| && Newest(reg, durable, index) == Newest(reg, durable, |reg|)
      {
        index := index - 1;
      }
      if index == 0 {
        return Done, {};
      }
      ghost var s0 := durable;
      NewestIsLast(reg, s0, index - 1);
      r, rest := Revert(index - 1, left);
      LastPassed(reg, s0, index - 1);
    }
  }

  /** The latest marked migration among the first `n`, or the end of the list. */
  function Newest(reg: seq<Migration>, s: Durable, n: nat): (i: nat)
    requires n <= |reg|
    ensures i <= |reg|
  {
    if n == 0 then |reg| else if IsApplied(s, reg[n - 1].id) then n - 1 else Newest(reg, s, n - 1)
  }

  lemma {:induction false} NewestIs(reg: seq<Migration>, s: Durable, n: nat)
    requires n <= |reg|
    ensures var i := Newest(reg, s, n);
      if i == |reg| then forall j :: 0 <= j < n ==> !IsApplied(s, reg[j].id)
      else i < n && IsApplied(s, reg[i].id) && forall j :: i < j < n ==> !IsApplied(s, reg[j].id)
  {
    if n > 0 {
      NewestIs(reg, s, n - 1);
    }
  }

  /** The state in which the latest marked migration is reverted. */
  function OneReverted(reg: seq<Migration>, s: Durable): Durable {
    RevertedTo(reg, s, Newest(reg, s, |reg|))
  }

  lemma NewestIsLast(reg: seq<Migration>, s: Durable, i: nat)
    requires i < |reg| && Newest(reg, s, |reg|) == i
    ensures forall j :: i < j <= |reg| ==> RevertedTo(reg, s, j) == s
    ensures RevertedTo(reg, s, i) == MarkReverted(reg, s, reg[i])
  {
    NewestIs(reg, s, |reg|);
    var j := |reg|;
    while j > i + 1
      invariant i < j <= |reg| && forall k :: j <= k <= |reg| ==> RevertedTo(reg, s, k) == s
    {
      j := j - 1;
    }
  }

  /** A revert of the latest migration has two checkpoints, and after the second nothing of its
      range is in force. */
  lemma LastPassed(reg: seq<Migration>, s: Durable, i: nat)
    requires i < |reg| && Newest(reg, s, |reg|) == i
    ensures RevertPassed(reg, s, i) == {s, OneReverted(reg, s)}
    ensures OneReverted(reg, s) != s && Forced(reg, OneReverted(reg, s), i) == {}
  {
    NewestIs(reg, s, |reg|);
    NewestIsLast(reg, s, i);
    assert RevertedTo(reg, s, |reg|) == s;
    RevertedPassed(reg, s, |reg|, i);
    RevertedPassed(reg, s, i, i);
    RevertedToMarks(reg, s, i);
    assert reg[i].id in Ids(reg, i, |reg|);
  }

  lemma SamePending(reg: seq<Migration>, s: Durable, t: Durable, from: nat, k: nat)
    requires from <= k <= |reg| && t.applied == s.applied
    ensures Pending(reg, t, from, k) == Pending(reg, s, from, k)
  {
  }

  /** Every moment since `start` agrees but for `left` and the executing migration, and has a durable
      state among `states`. */
  ghost predicate During(history: seq<World>, start: nat, left: set<string>, states: set<Durable>) {
    forall k :: start <= k < |history| ==> AgreeBut(history[k], left) && history[k].durable in states
  }

  /** The checkpoints of the run loop. */
  function RunPassed(reg: seq<Migration>, s: Durable, from: nat, k: nat, clock: nat -> int): set<Durable>
    requires from <= k <= |reg|
  {
    set j | from <= j <= k :: RanTo(reg, s, from, j, clock)
  }

  lemma InPassed(reg: seq<Migration>, s: Durable, from: nat, j: nat, k: nat, clock: nat -> int)
    requires from <= j <= k <= |reg|
    ensures RanTo(reg, s, from, j, clock) in RunPassed(reg, s, from, k, clock)
  {
  }

  lemma DuringOneStep(history: seq<World>, start: nat, todo: set<string>, left: set<string>, s: Durable, t: Durable,
        states: set<Durable>)
    requires Since(history, start, todo, s, t) && todo <= left && s in states && t in states
    ensures During(history, start, left, states)
  {
  }

  lemma PassedOver(reg: seq<Migration>, s0: Durable, from: nat, through: nat, index: nat, clock: nat -> int,
        left: set<string>)
    requires Distinct(reg) && from <= index <= through < |reg| && left <= Pending(reg, s0, from, through + 1)
    requires IsApplied(RanTo(reg, s0, from, index, clock), reg[index].id)
    ensures left - Ids(reg, from, index + 1) == left - Ids(reg, from, index)
    ensures RanTo(reg, s0, from, index + 1, clock) == RanTo(reg, s0, from, index, clock)
  {
    RanToMarks(reg, s0, from, index, clock);
    assert Ids(reg, from, index + 1) == Ids(reg, from, index) + {reg[index].id};
    assert reg[index].id !in Ids(reg, from, index);
  }

  lemma StillPending(reg: seq<Migration>, s0: Durable, from: nat, through: nat, index: nat, clock: nat -> int,
        left: set<string>)
    requires Distinct(reg) && from <= index <= through < |reg| && left <= Pending(reg, s0, from, through + 1)
    requires !IsApplied(RanTo(reg, s0, from, index, clock), reg[index].id)
    ensures (left - Ids(reg, from, index)) +
      {reg[index].id} <= Pending(reg, RanTo(reg, s0, from, index, clock), from, through + 1)
    ensures (left - Ids(reg, from, index)) - {reg[index].id} <= Pending(reg, RanTo(reg, s0, from, index + 1, clock),
      from, through + 1)
  {
    RanToMarks(reg, s0, from, index, clock);
    RanToMarks(reg, s0, from, index + 1, clock);
    assert Ids(reg, from, index + 1) == Ids(reg, from, index) + {reg[index].id};
  }

  lemma RestAgrees(w: World, todo: set<string>, id: string, rest: set<string>)
    requires AgreeBut(w, todo) && w.executing == Some(id)
    requires rest == todo + {id} || (rest == todo - {id} && Agrees(w, id)) ||
      (rest == (todo + {id}) - {id} && Agrees(w, id))
    ensures AgreeBut(World(w.durable, w.effects, None), rest)
  {
    forall other | other !in rest
      ensures Agrees(World(w.durable, w.effects, None), other)
    {
      assert other != id && other !in todo ==> Agrees(w, other);
    }
  }

  function SkipPassed(reg: seq<Migration>, s: Durable, k: nat, clock: nat -> int): set<Durable>
    requires k <= |reg|
  {
    set j | 0 <= j <= k :: SkippedTo(reg, s, j, clock)
  }

  lemma SkippedPassed(reg: seq<Migration>, s: Durable, j: nat, k: nat, clock: nat -> int)
    requires j <= k <= |reg|
    ensures SkippedTo(reg, s, j, clock) in SkipPassed(reg, s, k, clock)
  {
  }

  /** Every state that a call of Run may leave in the store. */
  function RunCheckpoints(reg: seq<Migration>, s: Durable, from: nat, through: nat, clock: nat -> int): set<Durable>
    requires from <= through < |reg|
  {
    var base := Backfilled(reg, s, |reg|);
    RunPassed(reg, base, from, through + 1, clock) +
      SkipPassed(reg, RanTo(reg, base, from, through + 1, clock), from, clock) + {s, base}
  }

  function RunResult(reg: seq<Migration>, s: Durable, from: nat, through: nat, clock: nat -> int): Durable
    requires from <= through < |reg|
  {
    SkippedTo(reg, RanTo(reg, Backfilled(reg, s, |reg|), from, through + 1, clock), from, clock)
  }

  lemma DuringMore(history: seq<World>, start: nat, middle: nat, left: set<string>, some: set<Durable>,
        states: set<Durable>)
    requires start <= middle && some <= states
    requires forall k ::
      start <= k < middle && k < |history| ==> AgreeBut(history[k], left) && history[k].durable in states
    requires During(history, middle, left, some) || During(history, middle, {}, some)
    ensures During(history, start, left, states)
  {
  }

  /** A checkpoint that runs nothing changes no agreement. */
  lemma SameForce(s: Durable, t: Durable, effects: map<string, Effect>, left: set<string>)
    requires AgreeBut(World(s, effects, None), left)
    requires forall id :: InForce(t, id) <==> InForce(s, id)
    ensures AgreeBut(World(t, effects, None), left)
  {
    forall id | id !in left
      ensures Agrees(World(t, effects, None), id)
    {
      assert Agrees(World(s, effects, None), id);
    }
  }

  lemma {:induction false} BackfillKeepsMarks(reg: seq<Migration>, s: Durable, n: nat)
    requires n <= |reg|
    ensures var t := Backfilled(reg, s, n);
      t.applied == s.applied && t.skipped == s.skipped && t.last == s.last && t.lastTime == s.lastTime
  {
    if n > 0 {
      BackfillKeepsMarks(reg, s, n - 1);
    }
  }

  function Ids(reg: seq<Migration>, from: nat, k: nat): set<string>
    requires from <= k <= |reg|
  {
    set i | from <= i < k :: reg[i].id
  }

  /** The migrations of a range that the durable state has not marked. */
  function Pending(reg: seq<Migration>, s: Durable, from: nat, k: nat): set<string>
    requires from <= k <= |reg|
  {
    set i | from <= i < k && !IsApplied(s, reg[i].id) :: reg[i].id
  }

  /** The run loop marks exactly the migrations it has passed. */
  lemma {:induction false} RanToMarks(reg: seq<Migration>, s: Durable, from: nat, k: nat, clock: nat -> int)
    requires from <= k <= |reg|
    ensures forall id :: IsApplied(RanTo(reg, s, from, k, clock), id) <==> IsApplied(s, id) || id in Ids(reg, from, k)
  {
    if from < k {
      RanToMarks(reg, s, from, k - 1, clock);
      assert Ids(reg, from, k) == Ids(reg, from, k - 1) + {reg[k - 1].id};
    }
  }

  ghost predicate OnlyChanges(before: map<string, Effect>, after: map<string, Effect>, id: string) {
    forall other :: other != id ==> EffectOf(after, other) == EffectOf(before, other)
  }

  /** Moments with one durable state and effects that differ on one migration at most. */
  ghost predicate Moments(history: seq<World>, start: nat, s: Durable, effects: map<string, Effect>, id: string,
        executing: Option<string>) {
    forall k :: start <= k < |history| ==> Moment(history[k], s, effects, id, executing)
  }

  ghost predicate Moment(w: World, s: Durable, effects: map<string, Effect>, id: string, executing: Option<string>) {
    w.durable == s && w.executing == executing && OnlyChanges(effects, w.effects, id)
  }

  /** While a migration executes, the others agree with the durable state, before and after its
      checkpoint. */
  lemma OthersAgree(s: Durable, marked: Durable, effects: map<string, Effect>, id: string, left: set<string>)
    requires AgreeBut(World(s, effects, None), left)
    requires forall other :: other != id ==> (InForce(marked, other) <==> InForce(s, other))
    ensures forall w: World ::
      (w.durable == s || w.durable == marked) && w.executing == Some(id) && OnlyChanges(effects, w.effects, id) ==>
        AgreeBut(w, left)
  {
    forall w: World | (w.durable == s || w.durable == marked) && w.executing == Some(id) &&
      OnlyChanges(effects, w.effects, id)
      ensures AgreeBut(w, left)
    {
      forall other | other !in left && other != id
        ensures Agrees(w, other)
      {
        assert Agrees(World(s, effects, None), other);
      }
    }
  }

  predicate Grown(before: seq<World>, after: seq<World>) {
    before <= after
  }

  /** Every moment since: nothing but `left` and the executing migration disagrees, and the durable
      state is one of two. */
  ghost predicate Since(history: seq<World>, start: nat, left: set<string>, s: Durable, t: Durable) {
    forall k ::
      start <= k < |history| ==> AgreeBut(history[k], left) && (history[k].durable == s || history[k].durable == t)
  }

  // ------------------------------------------------------------------------
  // The revert loop
  // ------------------------------------------------------------------------

  /** The migrations from `target` on that are in force. */
  function Forced(reg: seq<Migration>, s: Durable, target: nat): set<string>
    requires target <= |reg|
  {
    set i | target <= i < |reg| && InForce(s, reg[i].id) :: reg[i].id
  }

  function RevertPassed(reg: seq<Migration>, s: Durable, target: nat): set<Durable>
    requires target <= |reg|
  {
    set j | target <= j <= |reg| :: RevertedTo(reg, s, j)
  }

  lemma RevertedPassed(reg: seq<Migration>, s: Durable, j: nat, target: nat)
    requires target <= j <= |reg|
    ensures RevertedTo(reg, s, j) in RevertPassed(reg, s, target)
  {
  }

  predicate NeedsMissingDown(s: Durable, m: Migration) {
    IsApplied(s, m.id) && m.id !in s.skipped && !m.reversible
  }

  predicate Stuck(reg: seq<Migration>, s: Durable, target: nat) {
    exists i :: target <= i < |reg| && NeedsMissingDown(s, reg[i])
  }

  /** The revert loop unmarks exactly the migrations it has passed. */
  lemma {:induction false} RevertedToMarks(reg: seq<Migration>, s: Durable, k: nat)
    requires k <= |reg|
    ensures forall id :: IsApplied(RevertedTo(reg, s, k), id) <==> IsApplied(s, id) && id !in Ids(reg, k, |reg|)
    ensures forall id :: InForce(RevertedTo(reg, s, k), id) <==> InForce(s, id) && id !in Ids(reg, k, |reg|)
    decreases |reg| - k
  {
    if k < |reg| {
      RevertedToMarks(reg, s, k + 1);
      assert Ids(reg, k, |reg|) == Ids(reg, k + 1, |reg|) + {reg[k].id};
    }
  }

  lemma NotForced(reg: seq<Migration>, s0: Durable, target: nat, index: nat, left: set<string>)
    requires Distinct(reg) && target <= index < |reg| && left <= Forced(reg, s0, target)
    requires !IsApplied(RevertedTo(reg, s0, index + 1), reg[index].id)
    ensures left - Ids(reg, index, |reg|) == left - Ids(reg, index + 1, |reg|)
    ensures RevertedTo(reg, s0, index) == RevertedTo(reg, s0, index + 1)
  {
    RevertedToMarks(reg, s0, index + 1);
    assert Ids(reg, index, |reg|) == Ids(reg, index + 1, |reg|) + {reg[index].id};
    assert reg[index].id !in Ids(reg, index + 1, |reg|);
  }

  lemma StillForced(reg: seq<Migration>, s0: Durable, target: nat, index: nat, left: set<string>)
    requires Distinct(reg) && target <= index < |reg| && left <= Forced(reg, s0, target)
    requires IsApplied(RevertedTo(reg, s0, index + 1), reg[index].id)
    ensures var todo, s := left - Ids(reg, index + 1, |reg|), RevertedTo(reg, s0, index + 1);
      && (forall id :: id in todo ==> InForce(s, id))
      && todo <= Forced(reg, s, target)
      && (InForce(s, reg[index].id) ==> todo + {reg[index].id} <= Forced(reg, s, target))
      && todo - {reg[index].id} <= Forced(reg, RevertedTo(reg, s0, index), target)
  {
    RevertedToMarks(reg, s0, index + 1);
    RevertedToMarks(reg, s0, index);
    assert Ids(reg, index, |reg|) == Ids(reg, index + 1, |reg|) + {reg[index].id};
  }
}
