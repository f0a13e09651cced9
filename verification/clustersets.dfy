/** Cluster sets: label selectors over an organisation's clusters, the targeting unit of a stage. */
module ClusterSets {
  import opened Wrappers

  type Labels = map<string, string>

  datatype Cluster = Cluster(id: string, labels: Labels)

  /** An organisation's clusters, and the selector of each of its cluster sets. */
  datatype Fleet = Fleet(clusters: seq<Cluster>, sets: map<string, Labels>)

  /** A Go map lookup: a missing label reads as the empty string. */
  function Label(labels: Labels, key: string): string {
    if key in labels then labels[key] else ""
  }

  predicate Matches(labels: Labels, selector: Labels) {
    forall key | key in selector :: Label(labels, key) == selector[key]
  }

  method MatchesSelector(labels: Labels, selector: Labels) returns (matches: bool)
    ensures matches <==> Matches(labels, selector)
  {
    var rest := selector.Keys;
    while rest != {}
      invariant rest <= selector.Keys
      invariant forall key | key in selector.Keys - rest :: Label(labels, key) == selector[key]
      decreases |rest|
    {
      var key :| key in rest;
      if Label(labels, key) != selector[key] {
        return false;
      }
      rest := rest - {key};
    }
    return true;
  }

  /** Meeting two selectors is meeting their merge: an added pair can only narrow a set, unless
      it overrides a pair that was there. */
  lemma MatchesBoth(labels: Labels, a: Labels, b: Labels)
    requires forall key | key in a && key in b :: a[key] == b[key]
    ensures Matches(labels, a + b) <==> Matches(labels, a) && Matches(labels, b)
  {
    if Matches(labels, a + b) {
      forall key | key in a ensures Label(labels, key) == a[key] {
        assert key in a + b;
      }
      forall key | key in b ensures Label(labels, key) == b[key] {
        assert key in a + b;
      }
    }
  }

  /** A selector is met by subset matching exactly when every pair it names is a pair of the
      cluster, except that a pair with an empty value is also met by a cluster without the label. */
  lemma SubsetMatchExactly(labels: Labels, selector: Labels)
    ensures Matches(labels, selector) <==>
            forall key | key in selector ::
              (key in labels && labels[key] == selector[key]) || (key !in labels && selector[key] == "")
  {
    if Matches(labels, selector) {
      forall key | key in selector
        ensures (key in labels && labels[key] == selector[key]) || (key !in labels && selector[key] == "")
      {
        assert Label(labels, key) == selector[key];
      }
    }
  }

  function Resolve(clusters: seq<Cluster>, selector: Labels): seq<Cluster> {
    if clusters == [] then []
    else
      var c := clusters[|clusters| - 1];
      Resolve(clusters[..|clusters| - 1], selector) + if Matches(c.labels, selector) then [c] else []
  }

  method ResolveClusters(clusters: seq<Cluster>, selector: Labels) returns (out: seq<Cluster>)
    ensures out == Resolve(clusters, selector)
  {
    out := [];
    for i := 0 to |clusters|
      invariant out == Resolve(clusters[..i], selector)
    {
      assert clusters[..i + 1][..i] == clusters[..i];
      var matches := MatchesSelector(clusters[i].labels, selector);
      if matches {
        out := out + [clusters[i]];
      }
    }
    assert clusters[..|clusters|] == clusters;
  }

  lemma {:induction false} ResolveExactly(clusters: seq<Cluster>, selector: Labels, c: Cluster)
    ensures c in Resolve(clusters, selector) <==> c in clusters && Matches(c.labels, selector)
  {
    if clusters != [] {
      var n := |clusters| - 1;
      ResolveExactly(clusters[..n], selector, c);
      assert clusters == clusters[..n] + [clusters[n]];
    }
  }

  function AppendNew(ids: seq<string>, members: seq<Cluster>): seq<string> {
    if members == [] then ids
    else
      var before := AppendNew(ids, members[..|members| - 1]);
      var id := members[|members| - 1].id;
      if id in before then before else before + [id]
  }

  /** The clusters of a stage: the union of its sets, each cluster once, in order of first
      appearance; None when one of the sets does not exist. */
  function StageMembers(fleet: Fleet, setIds: seq<string>): Option<seq<string>> {
    if setIds == [] then Some([])
    else
      match StageMembers(fleet, setIds[..|setIds| - 1])
      case None => None
      case Some(ids) =>
        var id := setIds[|setIds| - 1];
        if id in fleet.sets then Some(AppendNew(ids, Resolve(fleet.clusters, fleet.sets[id]))) else None
  }

  method ComputeStageMembers(fleet: Fleet, setIds: seq<string>) returns (r: Option<seq<string>>)
    ensures r == StageMembers(fleet, setIds)
  {
    var seen: set<string> := {};
    var out: seq<string> := [];
    for i := 0 to |setIds|
      invariant StageMembers(fleet, setIds[..i]) == Some(out)
      invariant forall id :: id in seen <==> id in out
    {
      assert setIds[..i + 1][..i] == setIds[..i];
      if setIds[i] !in fleet.sets {
        MissingSetStays(fleet, setIds, i + 1);
        return None;
      }
      var members := ResolveClusters(fleet.clusters, fleet.sets[setIds[i]]);
      ghost var before := out;
      for j := 0 to |members|
        invariant out == AppendNew(before, members[..j])
        invariant forall id :: id in seen <==> id in out
      {
        assert members[..j + 1][..j] == members[..j];
        if members[j].id !in seen {
          seen := seen + {members[j].id};
          out := out + [members[j].id];
        }
      }
      assert members[..|members|] == members;
    }
    assert setIds[..|setIds|] == setIds;
    return Some(out);
  }

  lemma {:induction false} MissingSetStays(fleet: Fleet, setIds: seq<string>, i: nat)
    requires i <= |setIds| && StageMembers(fleet, setIds[..i]) == None
    ensures StageMembers(fleet, setIds) == None
    decreases |setIds| - i
  {
    if i < |setIds| {
      assert setIds[..i + 1][..i] == setIds[..i];
      MissingSetStays(fleet, setIds, i + 1);
    } else {
      assert setIds[..i] == setIds;
    }
  }

  predicate NoDuplicates(ids: seq<string>) {
    forall i, j | 0 <= i < j < |ids| :: ids[i] != ids[j]
  }

  predicate Selects(fleet: Fleet, setId: string, id: string) {
    setId in fleet.sets
    && exists c :: c in fleet.clusters && Matches(c.labels, fleet.sets[setId]) && c.id == id
  }

  /** The members of a stage are its sets' clusters, all of them and nothing else, ... */
  lemma {:induction false} MembersAreTheUnion(fleet: Fleet, setIds: seq<string>, id: string)
    ensures StageMembers(fleet, setIds).Some? <==> forall s | s in setIds :: s in fleet.sets
    ensures StageMembers(fleet, setIds).Some? ==>
              (id in StageMembers(fleet, setIds).value <==> exists s :: s in setIds && Selects(fleet, s, id))
  {
    if setIds != [] {
      var n := |setIds| - 1;
      var last := setIds[n];
      MembersAreTheUnion(fleet, setIds[..n], id);
      assert setIds == setIds[..n] + [last];
      if StageMembers(fleet, setIds).Some? {
        AppendNewExactly(StageMembers(fleet, setIds[..n]).value, Resolve(fleet.clusters, fleet.sets[last]), id);
        SelectsExactly(fleet, last, id);
      }
    }
  }

  /** ... and each of them once, even when the sets overlap. */
  lemma {:induction false} MembersAreDistinct(fleet: Fleet, setIds: seq<string>)
    requires StageMembers(fleet, setIds).Some?
    ensures NoDuplicates(StageMembers(fleet, setIds).value)
  {
    if setIds != [] {
      var n := |setIds| - 1;
      MembersAreDistinct(fleet, setIds[..n]);
      AppendNewDistinct(StageMembers(fleet, setIds[..n]).value, Resolve(fleet.clusters, fleet.sets[setIds[n]]));
    }
  }

  lemma SelectsExactly(fleet: Fleet, setId: string, id: string)
    requires setId in fleet.sets
    ensures Selects(fleet, setId, id) <==>
            exists c :: c in Resolve(fleet.clusters, fleet.sets[setId]) && c.id == id
  {
    forall c ensures c in Resolve(fleet.clusters, fleet.sets[setId]) <==>
                     c in fleet.clusters && Matches(c.labels, fleet.sets[setId])
    {
      ResolveExactly(fleet.clusters, fleet.sets[setId], c);
    }
  }

  lemma {:induction false} AppendNewDistinct(ids: seq<string>, members: seq<Cluster>)
    requires NoDuplicates(ids)
    ensures NoDuplicates(AppendNew(ids, members))
  {
    if members != [] {
      AppendNewDistinct(ids, members[..|members| - 1]);
    }
  }

  lemma {:induction false} AppendNewExactly(ids: seq<string>, members: seq<Cluster>, id: string)
    ensures id in AppendNew(ids, members) <==> id in ids || exists c :: c in members && c.id == id
  {
    if members != [] {
      var n := |members| - 1;
      AppendNewExactly(ids, members[..n], id);
      assert members == members[..n] + [members[n]];
    }
  }
}
