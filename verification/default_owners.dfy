/** Ownership chains of process defaults: SetDefault of metrics/metrics.go and SetAsDefaultSlog of
    logging/sloghandler.go, with the restore functions called in any order and any number of times.
    Registries and loggers are known by number. */
module DefaultOwners {
  class Owner {
    const target: int           // the registry, or the logger installed
    const previous: Owner?
    const baseline: int
    var active: bool
    var restored: bool          // the once of the restore function

    constructor (target: int, previous: Owner?, baseline: int)
      ensures this.target == target && this.previous == previous && this.baseline == baseline
      ensures active && !restored
    {
      this.target, this.previous, this.baseline := target, previous, baseline;
      active, restored := true, false;
    }
  }

  /** No owner from `from` to before `k` is live. */
  ghost predicate NoneLive(all: seq<Owner>, live: set<Owner>, from: nat, k: nat)
    requires from <= k <= |all|
  {
    forall i :: from <= i < k ==> all[i] !in live
  }

  /** `o` is the newest live owner from `from` on, or null if there is none. */
  ghost predicate NewestLive(all: seq<Owner>, live: set<Owner>, from: nat, o: Owner?)
    requires from <= |all|
  {
    if o == null then NoneLive(all, live, from, |all|)
    else exists i :: from <= i < |all| && all[i] == o && o in live && NoneLive(all, live, i + 1, |all|)
  }

  /** How an owner hangs on those before it: its predecessor in the chain that starts at `from` is
      the newest of them that can still be live, and the first has the chain's base as baseline. */
  ghost predicate Hangs(all: seq<Owner>, live: set<Owner>, from: nat, base: int, i: nat)
    requires from <= i < |all|
  {
    var p := all[i].previous;
    if p == null then all[i].baseline == base && NoneLive(all, live, from, i)
    else exists j :: from <= j < i && all[j] == p && NoneLive(all, live, j + 1, i)
  }

  ghost predicate Chain(all: seq<Owner>, live: set<Owner>, from: nat, base: int) {
    from <= |all| && forall i :: from <= i < |all| ==> Hangs(all, live, from, base, i)
  }

  ghost predicate Distinct(all: seq<Owner>) {
    forall i, j :: 0 <= i < j < |all| ==> all[i] != all[j]
  }

  /** The flags of the owners, as a set. */
  ghost predicate Flags(all: seq<Owner>, live: set<Owner>)
    reads all
  {
    forall o :: o in all ==> (o.active <==> o in live) && (o.restored ==> !o.active)
  }

  /** A new owner whose predecessor is the newest live one extends the chain. */
  lemma Extended(all: seq<Owner>, live: set<Owner>, from: nat, base: int, newest: Owner?, o: Owner)
    requires Chain(all, live, from, base) && NewestLive(all, live, from, newest) && o !in all
    requires o.previous == newest && (newest == null ==> o.baseline == base)
    ensures Chain(all + [o], live + {o}, from, base) && NewestLive(all + [o], live + {o}, from, o)
  {
    var more, living := all + [o], live + {o};
    forall i | from <= i < |more|
      ensures Hangs(more, living, from, base, i)
    {
      if i < |all| {
        assert Hangs(all, live, from, base, i);
        if all[i].previous != null {
          var j :| from <= j < i && all[j] == all[i].previous && NoneLive(all, live, j + 1, i);
          assert more[j] == all[j] && NoneLive(more, living, j + 1, i);
        }
      } else if newest != null {
        var j :| from <= j < |all| && all[j] == newest && NoneLive(all, live, j + 1, |all|);
        assert more[j] == newest && NoneLive(more, living, j + 1, |all|);
      }
    }
    assert more[|all|] == o && NoneLive(more, living, |all| + 1, |more|);
  }

  /** Owners that stop being live break no chain. */
  lemma Deactivated(all: seq<Owner>, live: set<Owner>, from: nat, base: int, fewer: set<Owner>)
    requires Chain(all, live, from, base) && fewer <= live
    ensures Chain(all, fewer, from, base)
  {
    forall i | from <= i < |all|
      ensures Hangs(all, fewer, from, base, i)
    {
      assert Hangs(all, live, from, base, i);
      if all[i].previous != null {
        var j :| from <= j < i && all[j] == all[i].previous && NoneLive(all, live, j + 1, i);
        assert NoneLive(all, fewer, j + 1, i);
      }
    }
  }

  /** The newest live owner stays so when another one is restored. */
  lemma NewestStays(all: seq<Owner>, live: set<Owner>, from: nat, newest: Owner?, o: Owner)
    requires from <= |all| && NewestLive(all, live, from, newest) && newest != o
    ensures NewestLive(all, live - {o}, from, newest)
  {
    if newest != null {
      var i :| from <= i < |all| && all[i] == newest && NoneLive(all, live, i + 1, |all|);
      assert NoneLive(all, live - {o}, i + 1, |all|);
    }
  }

  /** The loop both restore functions share: past the owners that are no longer active. */
  method NextActive(owner: Owner, ghost all: seq<Owner>, ghost live: set<Owner>, ghost from: nat, ghost base: int,
        ghost at: nat)
    returns (previous: Owner?, fallback: int)
    requires Chain(all, live, from, base) && Flags(all, live)
    requires from <= at < |all| && all[at] == owner && NoneLive(all, live, at, |all|)
    ensures NewestLive(all, live, from, previous) && (previous == null ==> fallback == base)
  {
    fallback, previous := owner.baseline, owner.previous;
    ghost var below := at;
    assert Hangs(all, live, from, base, at);
    if previous != null {
      below :| from <= below < at && all[below] == previous && NoneLive(all, live, below + 1, at);
    }
    while previous != null && !previous.active
      invariant from <= below < |all|
      invariant previous == null ==> fallback == base && NoneLive(all, live, from, |all|)
      invariant previous != null ==> all[below] == previous && NoneLive(all, live, below + 1, |all|)
      decreases if previous == null then 0 else below + 1
    {
      fallback, previous := previous.baseline, previous.previous;
      assert Hangs(all, live, from, base, below);
      if previous != null {
        ghost var next :| from <= next < below && all[next] == previous && NoneLive(all, live, next + 1, below);
        below := next;
      }
    }
  }

  // ------------------------------------------------------------------------
  // metrics.SetDefault
  // ------------------------------------------------------------------------

  class MetricsDefault {
    var registry: int
    var owner: Owner?
    ghost var all: seq<Owner>       // in the order of installation
    ghost var live: set<Owner>
    ghost const original: int

    /** The default is the registry of the newest owner still active, or else the original one. */
    ghost predicate Valid()
      reads this, all
    {
      && Chain(all, live, 0, original) && Distinct(all) && Flags(all, live)
      && NewestLive(all, live, 0, owner)
      && registry == if owner == null then original else owner.target
    }

    constructor (registry: int)
      ensures Valid() && original == registry && all == [] && this.registry == registry
    {
      this.registry, owner, all, live, original := registry, null, [], {}, registry;
    }

    method SetDefault(r: int) returns (o: Owner)
      requires Valid()
      modifies this
      ensures Valid() && fresh(o) && all == old(all) + [o] && live == old(live) + {o} && registry == r
    {
      o := new Owner(r, owner, registry);
      Extended(all, live, 0, original, owner, o);
      registry, owner, all, live := r, o, all + [o], live + {o};
    }

    /** The restore function of an owner. */
    method Restore(o: Owner)
      requires Valid() && o in all
      modifies this, o
      ensures Valid() && all == old(all) && live == old(live) - {o}
    {
      if o.restored {
        assert live - {o} == live;
        return;
      }
      Deactivated(all, live, 0, original, live - {o});
      ghost var at: nat :| at < |all| && all[at] == o;
      o.restored, o.active := true, false;
      live := live - {o};
      if owner == o {
        var previous, fallback := NextActive(o, all, live, 0, original, at);
        owner := previous;
        registry := if previous != null then previous.target else fallback;
      } else {
        NewestStays(all, old(live), 0, owner, o);
      }
    }
  }

  // ------------------------------------------------------------------------
  // logging.SetAsDefaultSlog
  // ------------------------------------------------------------------------

  class SlogDefault {
    var processLogger: int               // slog.Default
    var current: Owner?
    var nextLogger: int             // slog.New makes a logger of its own each time
    ghost var all: seq<Owner>
    ghost var live: set<Owner>
    ghost var from: nat             // where the chain of `current` starts
    ghost var base: int             // the default logger it was built on
    ghost var outside: bool         // whether anyone else has replaced the default
    ghost const original: int

    ghost predicate Valid()
      reads this, all
    {
      && Chain(all, live, from, base) && Distinct(all) && Flags(all, live)
      && NewestLive(all, live, from, current)
      && (forall o :: o in all ==> o.target < nextLogger)
      && (forall i, j :: 0 <= i < j < |all| ==> all[i].target != all[j].target)
      && (!outside ==>
        from == 0 && base == original && processLogger == if current == null then original else current.target)
    }

    constructor (logger: int)
      ensures Valid() && original == logger && all == [] && processLogger == logger && !outside
    {
      processLogger, current, nextLogger, all, live := logger, null, logger + 1, [], {};
      from, base, outside, original := 0, logger, false, logger;
    }

    method SetAsDefault() returns (o: Owner)
      requires Valid()
      modifies this
      ensures Valid() && fresh(o) && all == old(all) + [o] && live == old(live) + {o}
      ensures processLogger == o.target && (o.previous == null || o.previous.target == old(processLogger)) &&
        outside == old(outside)
    {
      var previousOwner := current;
      if previousOwner != null && processLogger != previousOwner.target {
        previousOwner := null;
      }
      o := new Owner(nextLogger, previousOwner, processLogger);
      if previousOwner == null {
        if outside {
          from, base := |all|, processLogger;
        }
        assert Chain(all, live, from, base) && NewestLive(all, live, from, null);
      }
      Extended(all, live, from, base, previousOwner, o);
      processLogger, current, nextLogger := nextLogger, o, nextLogger + 1;
      all, live := all + [o], live + {o};
    }

    /** The restore function: a default logger that is not the owner's own is never replaced; if it
        is, the newest owner still active in its chain takes over, or else the logger that chain was
        built on. */
    method Restore(o: Owner)
      requires Valid() && o in all
      modifies this, o
      ensures Valid() && all == old(all) && live == old(live) - {o} && outside == old(outside)
      ensures old(processLogger) != o.target ==> processLogger == old(processLogger)
      ensures processLogger == old(processLogger) || processLogger == base || exists p ::
        p in live && processLogger == p.target
    {
      if o.restored {
        assert live - {o} == live;
        return;
      }
      Deactivated(all, live, from, base, live - {o});
      ghost var at: nat :| at < |all| && all[at] == o;
      o.restored, o.active := true, false;
      live := live - {o};
      if current != o {
        NewestStays(all, old(live), from, current, o);
        return;
      }
      ghost var k: nat :| from <= k < |all| && all[k] == o && NoneLive(all, old(live), k + 1, |all|);
      var previous, fallback := NextActive(o, all, live, from, base, k);
      current := previous;
      if processLogger == o.target {
        processLogger := if previous != null then previous.target else fallback;
      }
    }

    /** Anyone else replaces the default logger. */
    method SetOutside(logger: int)
      requires Valid()
      modifies this
      ensures Valid() && outside && processLogger == logger && all == old(all) && live == old(live)
    {
      processLogger, outside := logger, true;
      nextLogger := if logger < nextLogger then nextLogger else logger + 1;
    }
  }

  /** Without outside changes the default logger is that of the newest owner still active, or else
      the original one. */
  lemma SlogDefaultIsNewest(d: SlogDefault)
    requires d.Valid() && !d.outside
    ensures NoneLive(d.all, d.live, 0, |d.all|) ==> d.processLogger == d.original
    ensures forall i ::
      0 <= i < |d.all| && d.all[i] in d.live && NoneLive(d.all, d.live, i + 1, |d.all|) ==>
        d.processLogger == d.all[i].target
  {
    forall i | 0 <= i < |d.all| && d.all[i] in d.live && NoneLive(d.all, d.live, i + 1, |d.all|)
      ensures d.processLogger == d.all[i].target
    {
      assert d.current != null;
      var j :| 0 <= j < |d.all| && d.all[j] == d.current && d.current in d.live &&
        NoneLive(d.all, d.live, j + 1, |d.all|);
    }
  }

  lemma MetricsDefaultIsNewest(d: MetricsDefault)
    requires d.Valid()
    ensures NoneLive(d.all, d.live, 0, |d.all|) ==> d.registry == d.original
    ensures forall i ::
      0 <= i < |d.all| && d.all[i] in d.live && NoneLive(d.all, d.live, i + 1, |d.all|) ==>
        d.registry == d.all[i].target
  {
    forall i | 0 <= i < |d.all| && d.all[i] in d.live && NoneLive(d.all, d.live, i + 1, |d.all|)
      ensures d.registry == d.all[i].target
    {
      assert d.owner != null;
      var j :| 0 <= j < |d.all| && d.all[j] == d.owner && d.owner in d.live && NoneLive(d.all, d.live, j + 1, |d.all|);
    }
  }
}
