/** The order of migration IDs and the targets that select a range of them
    (compareID, resolveTarget and resolveRunRange of migration/migration.go). */
module MigrationIds {
  import opened Options
  import opened Lexical

  datatype Id = Id(major: nat, minor: nat, patch: nat, sequence: nat, name: string) {
    function Release(): Version {
      Version(major, minor, patch)
    }

    function Parts(): seq<nat> {
      [major, minor, patch, sequence]
    }
  }

  datatype Version = Version(major: nat, minor: nat, patch: nat)

  predicate VersionBefore(a: Version, b: Version) {
    a.major < b.major || (a.major == b.major && (a.minor < b.minor || (a.minor == b.minor && a.patch < b.patch)))
  }

  /** compareID. */
  method Compare(left: Id, right: Id) returns (r: int)
    ensures r < 0 <==> Before(left, right)
    ensures r > 0 <==> Before(right, left)
    ensures r == 0 <==> left == right
  {
    var a, b := left.Parts(), right.Parts();
    StringBeforeTotal(left.name, right.name);
    var i := 0;
    while i < 4
      invariant 0 <= i <= 4
      invariant forall j :: 0 <= j < i ==> a[j] == b[j]
    {
      assert (i > 0 ==> a[0] == b[0]) && (i > 1 ==> a[1] == b[1]) && (i > 2 ==> a[2] == b[2]);
      if a[i] < b[i] {
        return -1;
      }
      if a[i] > b[i] {
        return 1;
      }
      i := i + 1;
    }
    assert a[0] == b[0] && a[1] == b[1] && a[2] == b[2] && a[3] == b[3];
    r := if StringBefore(left.name, right.name) then -1 else if StringBefore(right.name, left.name) then 1 else 0;
  }

  /** Version first, then sequence number, then name. */
  predicate Before(a: Id, b: Id) {
    if a.Release() != b.Release() then VersionBefore(a.Release(), b.Release())
    else if a.sequence != b.sequence then a.sequence < b.sequence
    else StringBefore(a.name, b.name)
  }

  /** A strict total order. */
  lemma BeforeIsTotal(a: Id, b: Id, c: Id)
    ensures !Before(a, a)
    ensures a != b ==> (Before(a, b) <==> !Before(b, a))
    ensures Before(a, b) && Before(b, c) ==> Before(a, c)
  {
    StringBeforeTotal(a.name, a.name);
    StringBeforeTotal(a.name, b.name);
    if StringBefore(a.name, b.name) && StringBefore(b.name, c.name) {
      StringBeforeTransitive(a.name, b.name, c.name);
    }
  }

  predicate Sorted(reg: seq<Id>) {
    forall i, j :: 0 <= i < j < |reg| ==> Before(reg[i], reg[j])
  }

  datatype Target = Latest | OfVersion(v: Version) | Exactly(id: Id) | Malformed

  datatype TargetError = Unregistered | Invalid | Reversed

  predicate InVersion(reg: seq<Id>, v: Version, i: nat)
    requires i < |reg|
  {
    reg[i].Release() == v
  }

  /** What a target selects: the last migration, the first or last of a version, or one by its ID. */
  ghost predicate Selects(reg: seq<Id>, target: Target, first: bool, r: Result<nat, TargetError>) {
    match target
    case Latest => r == Ok(|reg| - 1)
    case Malformed => r == Err(Invalid)
    case Exactly(id) =>
      if id in reg then r.Ok? && r.value < |reg| && reg[r.value] == id else r == Err(Unregistered)
    case OfVersion(v) => (
      if exists i :: 0 <= i < |reg| && InVersion(reg, v, i)
      then r.Ok? && r.value < |reg| && InVersion(reg, v, r.value)
        && forall i :: 0 <= i < |reg| && InVersion(reg, v, i) ==> if first then r.value <= i else i <= r.value
      else r == Err(Unregistered))
  }

  /** resolveTarget. */
  method ResolveTarget(reg: seq<Id>, target: Target, first: bool) returns (r: Result<nat, TargetError>)
    requires reg != []
    ensures Selects(reg, target, first, r)
  {
    match target {
      case Latest => r := Ok(|reg| - 1);
      case Malformed => r := Err(Invalid);
      case Exactly(id) =>
        var index := 0;
        while index < |reg|
          invariant 0 <= index <= |reg| && id !in reg[..index]
        {
          if reg[index] == id {
            return Ok(index);
          }
          index := index + 1;
        }
        r := Err(Unregistered);
      case OfVersion(v) =>
        var index, found := 0, -1;
        while index < |reg|
          invariant 0 <= index <= |reg|
          invariant found == -1 ==> forall i :: 0 <= i < index ==> !InVersion(reg, v, i)
          invariant found != -1 ==>
            !first && 0 <= found < index && InVersion(reg, v, found) && forall i ::
              found < i < index ==> !InVersion(reg, v, i)
        {
          if InVersion(reg, v, index) {
            if first {
              return Ok(index);
            }
            found := index;
          }
          index := index + 1;
        }
        r := if found >= 0 then Ok(found) else Err(Unregistered);
    }
  }

  /** resolveRunRange, with an optional start. */
  method ResolveRunRange(reg: seq<Id>, from: Option<Target>, through: Target)
    returns (r: Result<(nat, nat), TargetError>)
    requires reg != []
    ensures r.Ok? ==> r.value.0 <= r.value.1 < |reg| && Selects(reg, through, false, Ok(r.value.1))
    ensures r.Ok? ==> if from.None? then r.value.0 == 0 else Selects(reg, from.value, true, Ok(r.value.0))
    ensures r == Err(Reversed) ==>
      from.Some? && exists i, j: nat ::
        j < i && Selects(reg, from.value, true, Ok(i)) && Selects(reg, through, false, Ok(j))
  {
    var last := ResolveTarget(reg, through, false);
    if last.Err? {
      return Err(last.error);
    }
    var start := Ok(0);
    if from.Some? {
      start := ResolveTarget(reg, from.value, true);
      if start.Err? {
        return Err(start.error);
      }
    }
    if start.value > last.value {
      return Err(Reversed);
    }
    r := Ok((start.value, last.value));
  }

  lemma VersionsRise(reg: seq<Id>, i: nat, j: nat)
    requires Sorted(reg) && i <= j < |reg|
    ensures reg[i].Release() == reg[j].Release() || VersionBefore(reg[i].Release(), reg[j].Release())
  {
  }

  /** Between the first migration of one version and the last of another lie exactly the migrations
      whose version is between the two. */
  lemma RangeIsTheVersionsBetween(reg: seq<Id>, u: Version, v: Version, from: nat, through: nat, i: nat)
    requires Sorted(reg) && from <= through < |reg| && i < |reg|
    requires Selects(reg, OfVersion(u), true, Ok(from)) && Selects(reg, OfVersion(v), false, Ok(through))
    ensures from <= i <= through <==> !VersionBefore(reg[i].Release(), u) && !VersionBefore(v, reg[i].Release())
  {
    assert InVersion(reg, u, from) && InVersion(reg, v, through);
    if i < from {
      VersionsRise(reg, i, from);
      assert !InVersion(reg, u, i);
    } else if i > through {
      VersionsRise(reg, through, i);
      assert !InVersion(reg, v, i);
    } else {
      VersionsRise(reg, from, i);
      VersionsRise(reg, i, through);
    }
  }
}
