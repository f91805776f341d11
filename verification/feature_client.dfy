/** The fields of feature/flags.go behind FeatureRevisions, and the evaluation contexts of
    feature/context.go. Each method of the client takes the state it represents to the state after
    the steps it implements. */
module FeatureClient {
  import opened Options
  import opened FeatureRevisions

  function Plain(features: map<string, Stored>): map<string, Feature> {
    map k | k in features :: features[k].feature
  }

  /** The loop of attributeMapsEqual. */
  method AttributeMapsEqual(a: Attributes, b: Attributes) returns (equal: bool)
    ensures equal == MapsEqual(a, b)
  {
    if |a| != |b| {
      return false;
    }
    var left := a.Keys;
    while left != {}
      invariant left <= a.Keys && forall k :: k in a && k !in left ==> a[k] == ValuesOf(b, k)
      decreases left
    {
      var k :| k in left;
      if a[k] != ValuesOf(b, k) {
        return false;
      }
      left := left - {k};
    }
    equal := true;
  }

  class Client {
    const defaults: Attributes
    var attributes: Attributes
    var contextRevision: nat
    var ready: bool
    var readyRevision: nat
    var features: map<string, Feature>
    var featureContextRevision: nat

    ghost predicate Represents(s: State)
      reads this
    {
      && attributes == s.attributes && contextRevision == s.revision && ready == s.ready &&
        readyRevision == s.readyRevision
      && features == Plain(s.features) && featureContextRevision == s.namespace
    }

    constructor (defaults: Attributes)
      ensures this.defaults == defaults && Represents(Start(defaults))
    {
      this.defaults, attributes := defaults, defaults;
      contextRevision, ready, readyRevision, features, featureContextRevision := 1, false, 0, map[], 0;
    }

    /** setAttributeValues: the write, the revision and the loss of readiness are one step. */
    method SetAttributeValues(key: string, values: seq<string>, ghost s: State) returns (changed: bool)
      requires Represents(s) && !s.applying
      modifies this
      ensures Represents(Apply(defaults, s, SetAttribute(key, values)))
      ensures changed <==> contextRevision != old(contextRevision)
    {
      var previous := if key in attributes then attributes[key] else [];
      if values == [] {
        attributes := attributes - {key};
      } else {
        attributes := attributes[key := values];
      }
      changed := previous != values;
      if changed {
        contextRevision, ready := contextRevision + 1, false;
      }
    }

    method ReplaceWithDefaults(ghost s: State)
      requires Represents(s) && !s.applying
      modifies this
      ensures Represents(Apply(defaults, s, FeatureRevisions.ClearContext))
    {
      var equal := AttributeMapsEqual(attributes, defaults);
      if !equal {
        attributes, contextRevision, ready := defaults, contextRevision + 1, false;
      }
    }

    /** prepareFeatureNamespaceLocked. */
    method PrepareNamespace(revision: nat, ghost s: State)
      requires features == Plain(s.features) && featureContextRevision == s.namespace
      modifies this`features, this`featureContextRevision
      ensures features == Plain(Prepared(s, revision)) && featureContextRevision == revision
    {
      if featureContextRevision != revision {
        features := map[];
      }
      featureContextRevision := revision;
    }

    method Merge(f: Feature, ghost stored: map<string, Stored>, ghost revision: nat)
      requires features == Plain(stored)
      modifies this`features
      ensures features == Plain(Merged(stored, f, revision))
    {
      if f.key !in features || IdentityChanged(features[f.key], f) || VersionOf(f) >= VersionOf(features[f.key]) {
        features := features[f.key := f];
      }
    }

    /** applyFullFeatureSet: an event of another revision is refused and changes nothing; otherwise
        the set is merged, everything it does not name is dropped, and readiness is published. */
    method ApplyFullFeatureSet(list: seq<Option<Feature>>, revision: nat, ghost s: State) returns (accepted: bool)
      requires Represents(s) && s.stream.Requested? && s.stream.revision == revision && !s.applying
      modifies this
      ensures accepted <==> Accepts(s)
      ensures Represents(if accepted then Apply(defaults, Apply(defaults, s, ApplyFull(list)), PublishReady) else s)
    {
      if contextRevision != revision {
        return false;
      }
      PrepareNamespace(revision, s);
      MergeList(list, s, revision);
      features := map k | k in features && k in IncomingKeys(list) :: features[k];
      readyRevision := revision;
      ready := true;
      accepted := true;
    }

    method MergeList(list: seq<Option<Feature>>, ghost s: State, ghost revision: nat)
      requires features == Plain(Prepared(s, revision))
      modifies this`features
      ensures features == Plain(MergedAll(Prepared(s, revision), list, |list|, revision))
    {
      var i := 0;
      while i < |list|
        invariant 0 <= i <= |list|
        invariant features == Plain(MergedAll(Prepared(s, revision), list, i, revision))
      {
        if list[i].Some? && list[i].value.key != "" {
          Merge(list[i].value, MergedAll(Prepared(s, revision), list, i, revision), revision);
        }
        i := i + 1;
      }
    }

    method ApplyFeature(f: Feature, revision: nat, ghost s: State) returns (accepted: bool)
      requires Represents(s) && s.stream.Requested? && s.stream.revision == revision && !s.applying && f.key != ""
      modifies this
      ensures accepted <==> Accepts(s)
      ensures Represents(if accepted then Apply(defaults, s, ApplyOne(f)) else s)
    {
      if contextRevision != revision {
        return false;
      }
      PrepareNamespace(revision, s);
      Merge(f, Prepared(s, revision), revision);
      accepted := true;
    }

    method DeleteFeature(f: Feature, revision: nat, ghost s: State) returns (accepted: bool)
      requires Represents(s) && s.stream.Requested? && s.stream.revision == revision && !s.applying && f.key != ""
      modifies this
      ensures accepted <==> Accepts(s)
      ensures Represents(if accepted then Apply(defaults, s, Delete(f)) else s)
    {
      if contextRevision != revision {
        return false;
      }
      PrepareNamespace(revision, s);
      if f.key in features {
        var current := features[f.key];
        var sameIdentity := f.id == "" || current.id == "" || f.id == current.id;
        if sameIdentity && (f.version == None || f.version.value == 0 || f.version.value >= VersionOf(current)) {
          features := features - {f.key};
        }
      }
      accepted := true;
    }
  }

  // ------------------------------------------------------------------------
  // Evaluation contexts
  // ------------------------------------------------------------------------

  /** A Build between its first and its last critical section. */
  datatype Ticket = Ticket(attributes: Attributes, revision: nat)

  class EvaluationContext {
    const defaults: Attributes
    var attributes: Attributes
    var revision: nat
    var built: bool
    var features: Option<map<string, Feature>>
    ghost var history: seq<Attributes>                  // the attributes of each revision
    ghost var askedFor: Attributes                      // what the features were requested with

    /** While the context is built, its features are those requested for its present attributes. */
    ghost predicate Valid()
      reads this
    {
      && |history| == revision + 1 && history[revision] == attributes
      && (built ==> features.Some? && askedFor == attributes)
    }

    ghost predicate Issued(t: Ticket)
      reads this
    {
      t.revision < |history| && history[t.revision] == t.attributes
    }

    constructor (defaults: Attributes)
      ensures Valid() && attributes == defaults && !built && this.defaults == defaults
    {
      this.defaults, attributes, revision, built, features := defaults, defaults, 0, false, None;
      history, askedFor := [defaults], map[];
    }

    method AttributeValues(key: string, values: seq<string>)
      requires Valid()
      modifies this
      ensures Valid() && !built && attributes == WithValues(old(attributes), key, values)
      ensures revision == old(revision) + 1 && old(history) <= history
    {
      if values == [] {
        attributes := attributes - {key};
      } else {
        attributes := attributes[key := values];
      }
      features, built, revision := None, false, revision + 1;
      history := history + [attributes];
    }

    method Clear()
      requires Valid()
      modifies this
      ensures Valid() && !built && attributes == defaults
      ensures revision == old(revision) + 1 && old(history) <= history
    {
      attributes, features, built, revision := defaults, None, false, revision + 1;
      history := history + [attributes];
    }

    method BeginBuild() returns (t: Ticket)
      requires Valid()
      ensures Issued(t) && t == Ticket(attributes, revision)
    {
      t := Ticket(attributes, revision);
    }

    /** The end of a Build, with the features its request was answered with. It succeeds exactly if
        no setter came between, and then the request carried the present attributes. */
    method EndBuild(t: Ticket, answer: map<string, Feature>) returns (ok: bool)
      requires Valid() && Issued(t)
      modifies this`features, this`built, this`askedFor
      ensures Valid()
      ensures ok <==> t.revision == revision
      ensures ok ==> built && features == Some(answer) && askedFor == attributes == t.attributes
      ensures !ok ==> built == old(built) && features == old(features) && askedFor == old(askedFor)
    {
      if revision != t.revision {
        return false;
      }
      features, built, askedFor := Some(answer), true, t.attributes;
      ok := true;
    }
  }
}
