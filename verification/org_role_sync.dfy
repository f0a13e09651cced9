/** The pass over all organizations: retire old relations, then converge the permission tuples. */
module OrgRoleSync {
  import opened Wrappers
  import opened Permissions
  import opened Tuples
  import opened FgaStore
  import opened Reconcilers
  import opened OrgDirectory

  /** Ids of organizations are stored in one form, so no two of them name the same object. */
  predicate OneNameEach(groups: seq<TeamGroup>) {
    forall a, b | a in groups && b in groups && OrgObject(a.org) == OrgObject(b.org) :: a.org == b.org
  }

  function WantedOn(groups: seq<TeamGroup>, org: string, relation: string): set<Tuple> {
    TuplesOf(Wanted(groups, org, relation), OrgObject(org), relation)
  }

  predicate Managed(relation: string) {
    relation in CatalogRelations() || relation in LEGACY_RELATIONS
  }

  /** An organization whose tuples lie between what was there and what is wanted. */
  ghost predicate Safe(before: set<Tuple>, after: set<Tuple>, groups: seq<TeamGroup>, org: string) {
    forall r | r in CatalogRelations() ::
      Slice(before, OrgObject(org), r) * WantedOn(groups, org, r) <= Slice(after, OrgObject(org), r)
      && Slice(after, OrgObject(org), r) <= Slice(before, OrgObject(org), r) + WantedOn(groups, org, r)
  }

  predicate Converged(tuples: set<Tuple>, groups: seq<TeamGroup>, org: string) {
    forall r | r in CatalogRelations() :: Slice(tuples, OrgObject(org), r) == WantedOn(groups, org, r)
  }

  predicate Swept(tuples: set<Tuple>, relations: set<string>, org: string) {
    forall r | r in LEGACY_RELATIONS && r in relations :: Slice(tuples, OrgObject(org), r) == {}
  }

  /** Nothing has moved but managed relations of these organizations. */
  ghost predicate OnlyThese(before: set<Tuple>, after: set<Tuple>, orgs: set<string>) {
    forall t: Tuple | !(Managed(t.relation) && exists org | org in orgs :: OrgObject(org) == t.target) ::
      t in before <==> t in after
  }

  /** Nothing to do: the organization is as wanted, with no retired relation left. */
  predicate Quiet(tuples: set<Tuple>, groups: seq<TeamGroup>, org: string) {
    Converged(tuples, groups, org) && forall r | r in LEGACY_RELATIONS :: Slice(tuples, OrgObject(org), r) == {}
  }

  /** One organization's part of a pass. */
  method SyncOrg(store: Store, groups: seq<TeamGroup>, org: string, rels: map<string, set<string>>) returns (ok: bool)
    requires forall r | r in CatalogRelations() :: UsersOf(rels, r) == Wanted(groups, org, r)
    modifies store
    ensures OnlyThese(old(store.tuples), store.tuples, {org})
    ensures Safe(old(store.tuples), store.tuples, groups, org)
    ensures ok ==> Converged(store.tuples, groups, org) && Swept(store.tuples, store.relations, org)
    ensures Quiet(old(store.tuples), groups, org) ==> store.changes == old(store.changes)
    ensures ClearFrom(store.weather, old(store.requests)) && ToSet(CatalogRelations()) <= store.relations ==> ok
    ensures old(store.requests) <= store.requests
  {
    hide CatalogRelations;
    ghost var before := store.tuples;
    var swept := SweepLegacy(store, OrgObject(org));
    ghost var mid := store.tuples;
    SweepLeavesCatalog(before, mid, OrgObject(org));
    var converged := ConvergeOrg(store, OrgObject(org), rels);
    ConvergeLeavesLegacy(mid, store.tuples, OrgObject(org), rels);
    ok := swept && converged;
    SyncedOrg(before, mid, store.tuples, groups, org, rels);
    InSet(CatalogRelations());
  }

  lemma InSet(relations: seq<string>)
    ensures forall r :: r in relations <==> r in ToSet(relations)
  {
  }

  lemma SweepLeavesCatalog(before: set<Tuple>, mid: set<Tuple>, target: string)
    requires mid <= before
    requires forall t | t in before && t !in mid :: t.target == target && t.relation in LEGACY_RELATIONS
    ensures forall r | r in CatalogRelations() :: Slice(mid, target, r) == Slice(before, target, r)
  {
    forall r | r in CatalogRelations() ensures Slice(mid, target, r) == Slice(before, target, r) {
      if r in LEGACY_RELATIONS {
        LegacyIsRetired(r);
      }
      assert forall t | t in before && t.relation == r :: t in mid;
    }
  }

  lemma ConvergeLeavesLegacy(mid: set<Tuple>, after: set<Tuple>, target: string, rels: map<string, set<string>>)
    requires TowardAll(mid, after, target, rels, ToSet(CatalogRelations()))
    ensures forall r | r in LEGACY_RELATIONS :: Slice(after, target, r) == Slice(mid, target, r)
  {
    forall r | r in LEGACY_RELATIONS ensures Slice(after, target, r) == Slice(mid, target, r) {
      LegacyIsRetired(r);
      assert r !in ToSet(CatalogRelations());
    }
  }

  lemma SyncedOrg(before: set<Tuple>, mid: set<Tuple>, after: set<Tuple>, groups: seq<TeamGroup>, org: string, rels: map<string, set<string>>)
    requires forall r | r in CatalogRelations() :: UsersOf(rels, r) == Wanted(groups, org, r)
    requires mid <= before
    requires forall t | t in before && t !in mid :: t.target == OrgObject(org) && t.relation in LEGACY_RELATIONS
    requires forall r | r in CatalogRelations() :: Slice(mid, OrgObject(org), r) == Slice(before, OrgObject(org), r)
    requires TowardAll(mid, after, OrgObject(org), rels, ToSet(CatalogRelations()))
    ensures OnlyThese(before, after, {org}) && Safe(before, after, groups, org)
    ensures ExactOn(after, OrgObject(org), rels, ToSet(CatalogRelations())) <==> Converged(after, groups, org)
    ensures ExactOn(mid, OrgObject(org), rels, ToSet(CatalogRelations())) <==> Converged(before, groups, org)
  {
    hide CatalogRelations, Slice, Wanted, OrgObject, TuplesOf;
    var target := OrgObject(org);
    InSet(CatalogRelations());
    assert forall r | r in CatalogRelations() :: WantedTuples(rels, target, r) == WantedOn(groups, org, r);
    assert org in {org};
  }

  /** One organization is as it was, on every relation. */
  ghost predicate SameOn(before: set<Tuple>, after: set<Tuple>, org: string) {
    forall r :: Slice(before, OrgObject(org), r) == Slice(after, OrgObject(org), r)
  }

  lemma OthersStay(mid: set<Tuple>, after: set<Tuple>, org: string, other: string)
    requires OnlyThese(mid, after, {org}) && OrgObject(other) != OrgObject(org)
    ensures SameOn(mid, after, other)
  {
    forall r ensures Slice(mid, OrgObject(other), r) == Slice(after, OrgObject(other), r) {
      forall t: Tuple | t.target == OrgObject(other) ensures t in mid <==> t in after {
        assert !exists o | o in {org} :: OrgObject(o) == t.target;
      }
    }
  }

  lemma SameKeeps(before: set<Tuple>, mid: set<Tuple>, after: set<Tuple>, groups: seq<TeamGroup>, relations: set<string>, org: string)
    requires SameOn(mid, after, org)
    ensures Safe(before, mid, groups, org) ==> Safe(before, after, groups, org)
    ensures Converged(mid, groups, org) <==> Converged(after, groups, org)
    ensures Swept(mid, relations, org) <==> Swept(after, relations, org)
    ensures SameOn(before, mid, org) ==> SameOn(before, after, org)
  {
    hide CatalogRelations, WantedOn, Slice;
  }

  lemma SafeFromTheStart(before: set<Tuple>, mid: set<Tuple>, after: set<Tuple>, groups: seq<TeamGroup>, org: string)
    requires SameOn(before, mid, org) && Safe(mid, after, groups, org)
    ensures Safe(before, after, groups, org)
  {
    hide CatalogRelations, WantedOn, Slice;
  }

  lemma OnlyTheseAdd(before: set<Tuple>, mid: set<Tuple>, after: set<Tuple>, orgs: set<string>, org: string)
    requires OnlyThese(before, mid, orgs) && OnlyThese(mid, after, {org})
    ensures OnlyThese(before, after, orgs + {org})
  {
    hide Managed;
    forall t: Tuple | !(Managed(t.relation) && exists o | o in orgs + {org} :: OrgObject(o) == t.target)
      ensures t in before <==> t in after
    {
      if Managed(t.relation) {
        assert org in orgs + {org};
        assert forall o | o in orgs :: o in orgs + {org};
      }
    }
  }

  /** Where a pass stands: the organizations done and those still as they were. */
  ghost predicate Standing(before: set<Tuple>, now: set<Tuple>, groups: seq<TeamGroup>, done: set<string>, left: set<string>) {
    && OnlyThese(before, now, done)
    && (forall org | org in done :: Safe(before, now, groups, org))
    && (forall org | org in left :: SameOn(before, now, org))
  }

  predicate AllConverged(tuples: set<Tuple>, relations: set<string>, groups: seq<TeamGroup>, orgs: set<string>) {
    forall org | org in orgs :: Converged(tuples, groups, org) && Swept(tuples, relations, org)
  }

  lemma ClearLater(weather: nat -> Weather, from: nat, later: nat)
    requires ClearFrom(weather, from) && from <= later
    ensures ClearFrom(weather, later)
  {
  }

  lemma NothingConverged(tuples: set<Tuple>, relations: set<string>, groups: seq<TeamGroup>)
    ensures AllConverged(tuples, relations, groups, {})
  {
  }

  predicate Apart(orgs: set<string>) {
    forall a, b | a in orgs && b in orgs && OrgObject(a) == OrgObject(b) :: a == b
  }

  lemma PassStep(before: set<Tuple>, mid: set<Tuple>, after: set<Tuple>, relations: set<string>, groups: seq<TeamGroup>,
                 done: set<string>, left: set<string>, org: string)
    requires Standing(before, mid, groups, done, left) && Apart(done + left) && done !! left && org in left
    requires OnlyThese(mid, after, {org}) && Safe(mid, after, groups, org)
    ensures Standing(before, after, groups, done + {org}, left - {org})
    ensures AllConverged(mid, relations, groups, done) ==> AllConverged(after, relations, groups, done)
  {
    hide OnlyThese, Safe, SameOn, Converged, Swept;
    OnlyTheseAdd(before, mid, after, done, org);
    SafeFromTheStart(before, mid, after, groups, org);
    forall other | other in done + left && other != org
      ensures other in done ==> Safe(before, after, groups, other)
      ensures other in left ==> SameOn(before, after, other)
      ensures Converged(mid, groups, other) <==> Converged(after, groups, other)
      ensures Swept(mid, relations, other) <==> Swept(after, relations, other)
    {
      OthersStay(mid, after, org, other);
      SameKeeps(before, mid, after, groups, relations, other);
    }
  }

  lemma StandingAtStart(tuples: set<Tuple>, groups: seq<TeamGroup>, orgs: set<string>)
    ensures Standing(tuples, tuples, groups, {}, orgs) && OnlyThese(tuples, tuples, {})
  {
  }

  function VisitedOrgs(groups: seq<TeamGroup>): set<string> {
    set g | g in groups && Visited(groups, g.org) :: g.org
  }

  lemma KeysAreVisited(desired: Desired, groups: seq<TeamGroup>)
    requires Complete(desired, groups)
    ensures desired.Keys == VisitedOrgs(groups)
    ensures forall org :: org in VisitedOrgs(groups) <==> Visited(groups, org)
  {
    forall org ensures org in desired.Keys <==> Visited(groups, org)
               ensures org in VisitedOrgs(groups) <==> Visited(groups, org) {
      if Visited(groups, org) {
        var g, p :| g in groups && p in g.permissions && g.org == org && ValidPermission(p);
      }
    }
  }

  lemma QuietStays(before: set<Tuple>, mid: set<Tuple>, groups: seq<TeamGroup>, org: string)
    requires SameOn(before, mid, org) && Quiet(before, groups, org)
    ensures Quiet(mid, groups, org)
  {
    hide CatalogRelations, WantedOn;
  }

  predicate AllQuiet(tuples: set<Tuple>, groups: seq<TeamGroup>, orgs: set<string>) {
    forall org | org in orgs :: Quiet(tuples, groups, org)
  }

  /** What a pass has reached. */
  ghost predicate SoFar(before: set<Tuple>, now: set<Tuple>, relations: set<string>, groups: seq<TeamGroup>,
                        done: set<string>, left: set<string>, ok: bool)
  {
    && OnlyThese(before, now, done)
    && (Apart(done + left) ==> Standing(before, now, groups, done, left) && (ok ==> AllConverged(now, relations, groups, done)))
  }

  lemma AtStart(tuples: set<Tuple>, relations: set<string>, groups: seq<TeamGroup>, orgs: set<string>)
    ensures SoFar(tuples, tuples, relations, groups, {}, orgs, true)
  {
    StandingAtStart(tuples, groups, orgs);
    NothingConverged(tuples, relations, groups);
  }

  lemma AtEnd(before: set<Tuple>, now: set<Tuple>, relations: set<string>, groups: seq<TeamGroup>, done: set<string>, ok: bool)
    requires SoFar(before, now, relations, groups, done, {}, ok)
    ensures OnlyThese(before, now, done)
    ensures Apart(done) ==> (forall org | org in done :: Safe(before, now, groups, org))
    ensures Apart(done) && ok ==> AllConverged(now, relations, groups, done)
  {
    assert done + {} == done;
    if Apart(done) {
      StandingResult(before, now, groups, done);
    }
  }

  /** The next organization of a pass. */
  method SyncNext(store: Store, groups: seq<TeamGroup>, desired: Desired, org: string,
                  ghost before: set<Tuple>, ghost done: set<string>, ghost left: set<string>, wasOk: bool) returns (ok: bool)
    requires Complete(desired, groups) && desired.Keys == done + left && done !! left && org in left
    requires SoFar(before, store.tuples, store.relations, groups, done, left, wasOk)
    modifies store
    ensures SoFar(before, store.tuples, store.relations, groups, done + {org}, left - {org}, ok)
    ensures Apart(desired.Keys) && AllQuiet(before, groups, desired.Keys) ==> store.changes == old(store.changes)
    ensures ClearFrom(store.weather, old(store.requests)) && ToSet(CatalogRelations()) <= store.relations ==> ok == wasOk
    ensures old(store.requests) <= store.requests
  {
    hide CatalogRelations, Visited, Wanted, Converged, Safe, Swept, OnlyThese, Toward, Slice, Built, ClearFrom, SameOn, Quiet, Apart;
    ghost var mid := store.tuples;
    if Apart(done + left) && Quiet(before, groups, org) {
      QuietStays(before, mid, groups, org);
    }
    forall r ensures UsersOf(desired[org], r) == Wanted(groups, org, r) {
      assert UsersIn(desired, org, r) == Wanted(groups, org, r);
    }
    ok := SyncOrg(store, groups, org, desired[org]);
    OnlyTheseAdd(before, mid, store.tuples, done, org);
    ok := ok && wasOk;
    assert (done + {org}) + (left - {org}) == done + left;
    if Apart(done + left) {
      PassStep(before, mid, store.tuples, store.relations, groups, done, left, org);
    }
  }

  /** The pass over the organizations of the nested map. */
  method SyncEach(store: Store, groups: seq<TeamGroup>, desired: Desired) returns (ok: bool)
    requires Complete(desired, groups)
    modifies store
    ensures SoFar(old(store.tuples), store.tuples, store.relations, groups, desired.Keys, {}, ok)
    ensures Apart(desired.Keys) && AllQuiet(old(store.tuples), groups, desired.Keys) ==> store.changes == old(store.changes)
    ensures ClearFrom(store.weather, old(store.requests)) && ToSet(CatalogRelations()) <= store.relations ==> ok
  {
    hide CatalogRelations, AllQuiet, SoFar, ClearFrom, Apart, Complete, ToSet;
    ok := true;
    var left := desired.Keys;
    ghost var done: set<string> := {};
    ghost var before := store.tuples;
    AtStart(before, store.relations, groups, left);
    while left != {}
      invariant desired.Keys == done + left && done !! left
      invariant SoFar(before, store.tuples, store.relations, groups, done, left, ok)
      invariant Apart(desired.Keys) && AllQuiet(before, groups, desired.Keys) ==> store.changes == old(store.changes)
      invariant ClearFrom(store.weather, old(store.requests)) && ToSet(CatalogRelations()) <= store.relations ==> ok
      invariant old(store.requests) <= store.requests
      decreases |left|
    {
      var org :| org in left;
      if ClearFrom(store.weather, old(store.requests)) {
        ClearLater(store.weather, old(store.requests), store.requests);
      }
      ok := SyncNext(store, groups, desired, org, before, done, left, ok);
      done, left := done + {org}, left - {org};
      assert done + left == desired.Keys;
    }
    assert done == desired.Keys;
  }

  /** One pass; a failing organization does not keep the others from theirs. Whatever fails, only managed
      relations of organizations with some catalog permission move. If no organization comes under two
      spellings of its id, these stay between what was there and what is wanted; and if nothing fails they are
      exactly as wanted, and the next pass sends no change. */
  method SyncOnce(store: Store, groups: seq<TeamGroup>) returns (ok: bool)
    modifies store
    ensures OnlyThese(old(store.tuples), store.tuples, VisitedOrgs(groups))
    ensures OneNameEach(groups) ==> forall org | org in VisitedOrgs(groups) :: Safe(old(store.tuples), store.tuples, groups, org)
    ensures OneNameEach(groups) && ok ==> AllConverged(store.tuples, store.relations, groups, VisitedOrgs(groups))
    ensures OneNameEach(groups) && AllQuiet(old(store.tuples), groups, VisitedOrgs(groups)) ==> store.changes == old(store.changes)
    ensures ClearFrom(store.weather, old(store.requests)) && ToSet(CatalogRelations()) <= store.relations ==> ok
  {
    hide CatalogRelations, Visited, AllConverged, AllQuiet, SoFar, Safe, OnlyThese, ClearFrom, Apart, Complete, OneNameEach, VisitedOrgs, ToSet;
    var desired := BuildDesired(groups);
    KeysAreVisited(desired, groups);
    if OneNameEach(groups) {
      KeysAreApart(desired, groups);
    }
    ok := SyncEach(store, groups, desired);
    AtEnd(old(store.tuples), store.tuples, store.relations, groups, desired.Keys, ok);
  }

  lemma StandingResult(before: set<Tuple>, now: set<Tuple>, groups: seq<TeamGroup>, done: set<string>)
    requires Standing(before, now, groups, done, {})
    ensures OnlyThese(before, now, done) && forall org | org in done :: Safe(before, now, groups, org)
  {
  }

  lemma KeysAreApart(desired: Desired, groups: seq<TeamGroup>)
    requires Complete(desired, groups) && OneNameEach(groups)
    ensures Apart(desired.Keys)
  {
    forall a, b | a in desired && b in desired && OrgObject(a) == OrgObject(b) ensures a == b {
      var g, p :| g in groups && p in g.permissions && g.org == a && ValidPermission(p);
      var h, q :| h in groups && q in h.permissions && h.org == b && ValidPermission(q);
    }
  }

  // ----- The reconciler and the event writer maintain the same set

  /** The groups list the teams of one organization with the permissions of their roles. */
  predicate Lists(groups: seq<TeamGroup>, org: string, d: Directory) {
    && (forall g | g in groups && g.org == org :: g.team in d.teams && g.permissions == PermissionsOf(d, g.team))
    && (forall team | team in d.teams :: TeamGroup(team, org, PermissionsOf(d, team)) in groups)
  }

  lemma InThePart(org: string, tuples: set<Tuple>, t: Tuple)
    ensures t in PermissionPart(org, tuples) <==> t in tuples && t.target == OrgObject(org) && t.relation in CatalogRelations()
  {
    if t in PermissionPart(org, tuples) {
      var i :| 0 <= i < |CATALOG| && PermissionRelation(CATALOG[i].slug) == Some(t.relation);
      assert CatalogRelations()[i] == t.relation;
    }
    if t in tuples && t.target == OrgObject(org) && t.relation in CatalogRelations() {
      var i :| 0 <= i < |CATALOG| && CatalogRelations()[i] == t.relation;
      assert ValidPermission(CATALOG[i].slug);
      assert PermissionRelation(CATALOG[i].slug) == Some(t.relation);
    }
  }

  lemma DerivedIsWanted(groups: seq<TeamGroup>, org: string, d: Directory, t: Tuple)
    requires Lists(groups, org, d)
    ensures t in Derived(org, d) <==>
            t.target == OrgObject(org) && t.relation in CatalogRelations() && t.user in Wanted(groups, org, t.relation)
  {
    if t in Derived(org, d) {
      var team :| team in d.teams && t in Grants(org, team, PermissionsOf(d, team));
      var g := TeamGroup(team, org, PermissionsOf(d, team));
      assert g in groups;
      var p :| p in g.permissions && ValidPermission(p) && t == GrantTuple(org, team, PermissionRelation(p).value);
      assert t.user == TeamMembers(g.team);
      var i :| 0 <= i < |CATALOG| && CATALOG[i].slug == p;
      assert CatalogRelations()[i] == t.relation;
    }
    if t.target == OrgObject(org) && t.user in Wanted(groups, org, t.relation) {
      var g, p :| g in groups && p in g.permissions && g.org == org && PermissionRelation(p) == Some(t.relation) && t.user == TeamMembers(g.team);
      assert t == GrantTuple(org, g.team, PermissionRelation(p).value);
      assert t in Grants(org, g.team, PermissionsOf(d, g.team));
    }
  }

  /** A converged organization has exactly the permission tuples that its directory calls for: the very set
      that events keep up to date one by one. */
  lemma ConvergedMeansFollows(groups: seq<TeamGroup>, org: string, d: Directory, tuples: set<Tuple>)
    requires Lists(groups, org, d)
    ensures Converged(tuples, groups, org) <==> Follows(org, d, tuples)
  {
    forall t ensures t in PermissionPart(org, tuples) <==> t in tuples && t.target == OrgObject(org) && t.relation in CatalogRelations() {
      InThePart(org, tuples, t);
    }
    forall t ensures t in Derived(org, d) <==>
        t.target == OrgObject(org) && t.relation in CatalogRelations() && t.user in Wanted(groups, org, t.relation) {
      DerivedIsWanted(groups, org, d, t);
    }
    hide CatalogRelations, Wanted, PermissionPart, Derived;
    if Converged(tuples, groups, org) {
      forall t ensures t in PermissionPart(org, tuples) <==> t in Derived(org, d) {
        if t.target == OrgObject(org) && t.relation in CatalogRelations() {
          assert t in Slice(tuples, OrgObject(org), t.relation) <==> t in WantedOn(groups, org, t.relation);
          assert t == Tuple(t.user, t.relation, t.target);
        }
      }
    }
    if Follows(org, d, tuples) {
      forall r | r in CatalogRelations() ensures Slice(tuples, OrgObject(org), r) == WantedOn(groups, org, r) {
        forall t ensures t in Slice(tuples, OrgObject(org), r) <==> t in WantedOn(groups, org, r) {
          assert t in PermissionPart(org, tuples) <==> t in Derived(org, d);
          assert t == Tuple(t.user, t.relation, t.target);
        }
      }
    }
  }

  lemma UnvisitedWantsNothing(groups: seq<TeamGroup>, org: string, relation: string)
    requires !Visited(groups, org)
    ensures Wanted(groups, org, relation) == {}
  {
  }

  /** An organization none of whose teams has a catalog permission is not looked at: a pass leaves its
      tuples right exactly if there were none. */
  lemma UnvisitedKeepsWhatItHad(groups: seq<TeamGroup>, org: string, d: Directory, before: set<Tuple>, after: set<Tuple>)
    requires Lists(groups, org, d) && !Visited(groups, org)
    requires OnlyThese(before, after, VisitedOrgs(groups))
    requires forall g | g in groups && OrgObject(g.org) == OrgObject(org) :: g.org == org
    ensures Follows(org, d, after) <==> PermissionPart(org, before) == {}
  {
    forall t ensures t !in Derived(org, d) {
      DerivedIsWanted(groups, org, d, t);
      UnvisitedWantsNothing(groups, org, t.relation);
    }
    assert Derived(org, d) == {};
    forall t: Tuple | t.target == OrgObject(org) ensures t in before <==> t in after {
      assert !exists o | o in VisitedOrgs(groups) :: OrgObject(o) == t.target;
    }
    assert PermissionPart(org, before) == PermissionPart(org, after);
  }
}
