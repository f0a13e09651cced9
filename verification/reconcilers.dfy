/** Reconcilers: passes that bring stored tuples to what another source of truth calls for. */
module Reconcilers {
  import opened Wrappers
  import opened Permissions
  import opened Tuples
  import opened FgaStore

  const LEGACY_RELATIONS := ["admin", "platform_engineer", "developer", "viewer"]

  function TuplesOf(users: set<string>, target: string, relation: string): set<Tuple> {
    set user | user in users :: Tuple(user, relation, target)
  }

  predicate At(t: Tuple, target: string, relation: string) {
    t.target == target && t.relation == relation
  }

  /** Between the two states, one object and relation has moved toward what is wanted, and nothing else has
      moved: what both have is kept, and nothing appears that neither has. */
  predicate Toward(before: set<Tuple>, after: set<Tuple>, target: string, relation: string, want: set<Tuple>) {
    && Slice(before, target, relation) * want <= Slice(after, target, relation) <= Slice(before, target, relation) + want
    && before - Slice(before, target, relation) == after - Slice(after, target, relation)
  }

  method ReconcileMembers(store: Store, ids: seq<string>, target: string, relation: string) returns (ok: bool)
    modifies store
    ensures var want := TuplesOf(set id | id in ids :: UserObject(id), target, relation);
            && Toward(old(store.tuples), store.tuples, target, relation, want)
            && (ok ==> Slice(store.tuples, target, relation) == want)
            && (Slice(old(store.tuples), target, relation) == want ==> store.changes == old(store.changes))
    ensures ClearFrom(store.weather, old(store.requests)) && relation in store.relations ==> ok
  {
    var desired: set<string> := {};
    for i := 0 to |ids|
      invariant desired == set id | id in ids[..i] :: UserObject(id)
    {
      assert ids[..i + 1] == ids[..i] + [ids[i]];
      desired := desired + {UserObject(ids[i])};
    }
    assert ids[..|ids|] == ids;
    var existing, failure := store.ReadTuples(target, relation);
    if failure.Some? {
      return false;
    }
    ok := Converge(store, existing, desired, target, relation, true);
  }

  /** The tuples to add and to delete. */
  method Diff(existing: seq<Tuple>, want: set<string>, target: string, relation: string) returns (add: seq<Tuple>, del: seq<Tuple>)
    requires forall t | t in existing :: At(t, target, relation)
    ensures ToSet(add) == TuplesOf(want, target, relation) - ToSet(existing)
    ensures ToSet(del) == ToSet(existing) - TuplesOf(want, target, relation)
    ensures NoRepeats(add) && (NoRepeats(existing) ==> NoRepeats(del))
  {
    add, del := [], [];
    var seen: set<string> := {};
    for i := 0 to |existing|
      invariant seen == set t | t in existing[..i] :: t.user
      invariant ToSet(del) == set t | t in existing[..i] && t.user !in want
      invariant NoRepeats(existing) ==> NoRepeats(del)
    {
      assert existing[..i + 1] == existing[..i] + [existing[i]];
      seen := seen + {existing[i].user};
      if existing[i].user !in want {
        assert ToSet(del + [existing[i]]) == ToSet(del) + {existing[i]};
        NotYet(existing, i, del);
        del := del + [existing[i]];
      }
    }
    assert existing[..|existing|] == existing;
    var left := want;
    while left != {}
      invariant left <= want
      invariant ToSet(add) == TuplesOf((want - left) - seen, target, relation) && NoRepeats(add)
      decreases |left|
    {
      var user :| user in left;
      left := left - {user};
      if user !in seen {
        var t := Tuple(user, relation, target);
        assert ToSet(add + [t]) == ToSet(add) + {t};
        assert t !in ToSet(add);
        add := add + [t];
      }
    }
    assert (want - {}) - seen == want - seen;
    SplitsUp(existing, want, target, relation, seen);
  }

  lemma NotYet(list: seq<Tuple>, i: nat, part: seq<Tuple>)
    requires i < |list| && ToSet(part) <= ToSet(list[..i])
    ensures NoRepeats(list) && NoRepeats(part) ==> NoRepeats(part + [list[i]])
  {
    if NoRepeats(list) && NoRepeats(part) {
      assert list[i] !in list[..i];
      assert list[i] !in ToSet(part);
    }
  }

  /** Write what is missing and delete what is too much, in either order. */
  method Converge(store: Store, existing: seq<Tuple>, want: set<string>, target: string, relation: string, writeFirst: bool)
    returns (ok: bool)
    requires ToSet(existing) == Slice(store.tuples, target, relation) && NoRepeats(existing)
    modifies store
    ensures var wanted := TuplesOf(want, target, relation);
            && Toward(old(store.tuples), store.tuples, target, relation, wanted)
            && (ok ==> Slice(store.tuples, target, relation) == wanted)
            && (Slice(old(store.tuples), target, relation) == wanted ==> store.changes == old(store.changes))
    ensures ClearFrom(store.weather, old(store.requests)) ==> ok
    ensures old(store.requests) <= store.requests
  {
    ghost var wanted := TuplesOf(want, target, relation);
    assert forall t | t in existing :: t in ToSet(existing);
    var add, del := Diff(existing, want, target, relation);
    EmptyList(add);
    EmptyList(del);
    ok := true;
    if writeFirst && |add| > 0 {
      ok := store.WriteTuples(add);
    }
    if ok && |del| > 0 {
      ok := store.DeleteTuples(del);
    }
    if ok && !writeFirst && |add| > 0 {
      ok := store.WriteTuples(add);
    }
    Reaches(old(store.tuples), store.tuples, wanted, ToSet(add), ToSet(del), target, relation);
  }

  /** Going by users finds the two differences of tuples. */
  lemma SplitsUp(existing: seq<Tuple>, want: set<string>, target: string, relation: string, seen: set<string>)
    requires forall t | t in existing :: At(t, target, relation)
    requires seen == set t | t in existing :: t.user
    ensures (set t | t in existing && t.user !in want) == ToSet(existing) - TuplesOf(want, target, relation)
    ensures TuplesOf(want - seen, target, relation) == TuplesOf(want, target, relation) - ToSet(existing)
  {
    assert forall t | t in existing :: t == Tuple(t.user, relation, target);
    forall user ensures user in seen <==> Tuple(user, relation, target) in existing {
    }
  }

  lemma Reaches(before: set<Tuple>, after: set<Tuple>, wanted: set<Tuple>, add: set<Tuple>, del: set<Tuple>, target: string, relation: string)
    requires forall t | t in wanted :: At(t, target, relation)
    requires add == wanted - Slice(before, target, relation) && del == Slice(before, target, relation) - wanted
    requires before - del <= after <= before + add
    ensures Toward(before, after, target, relation, wanted)
    ensures after == (before - del) + add ==> Slice(after, target, relation) == wanted
  {
    assert forall t | t in after && t !in before :: t in wanted;
    assert forall t | t in before && t !in after :: t in del;
    var elsewhere, still := before - Slice(before, target, relation), after - Slice(after, target, relation);
    forall t ensures t in elsewhere <==> t in still {
    }
  }

  // ----- The organizations' permission tuples

  /** One team of an organization with the permissions of its role. */
  datatype TeamGroup = TeamGroup(team: string, org: string, permissions: seq<string>)

  /** Who should hold a relation on an organization, from scratch. */
  function Wanted(groups: seq<TeamGroup>, org: string, relation: string): set<string> {
    set g, p | g in groups && p in g.permissions && g.org == org && PermissionRelation(p) == Some(relation) :: TeamMembers(g.team)
  }

  /** An organization is looked at only if some team of it has a permission of the catalog. */
  predicate Visited(groups: seq<TeamGroup>, org: string) {
    exists g, p | g in groups && p in g.permissions :: g.org == org && ValidPermission(p)
  }

  /** Who should hold what, by organization and relation. */
  type Desired = map<string, map<string, set<string>>>

  function UsersIn(d: Desired, org: string, relation: string): set<string> {
    if org in d && relation in d[org] then d[org][relation] else {}
  }

  function AddUser(d: Desired, org: string, relation: string, user: string): Desired {
    var rels := if org in d then d[org] else map[];
    d[org := rels[relation := (if relation in rels then rels[relation] else {}) + {user}]]
  }

  lemma AddUserAdds(d: Desired, org: string, relation: string, user: string)
    ensures AddUser(d, org, relation, user).Keys == d.Keys + {org}
    ensures forall o, r :: UsersIn(AddUser(d, org, relation, user), o, r)
                        == UsersIn(d, o, r) + if o == org && r == relation then {user} else {}
  {
  }

  /** The same lists, with the permissions of group `i` only up to `j`. */
  function UpTo(groups: seq<TeamGroup>, i: nat, j: nat): seq<TeamGroup>
    requires i < |groups| && j <= |groups[i].permissions|
  {
    groups[..i] + [groups[i].(permissions := groups[i].permissions[..j])]
  }

  predicate Built(d: Desired, groups: seq<TeamGroup>) {
    (forall org | org in d :: Visited(groups, org)) && (forall g, p | g in groups && p in g.permissions && ValidPermission(p) :: g.org in d)
  }

  ghost predicate Complete(d: Desired, groups: seq<TeamGroup>) {
    Built(d, groups) && forall org, relation :: UsersIn(d, org, relation) == Wanted(groups, org, relation)
  }

  lemma NothingMore(d: Desired, groups: seq<TeamGroup>, more: TeamGroup)
    requires Complete(d, groups) && more.permissions == []
    ensures Complete(d, groups + [more])
  {
    forall org, relation ensures UsersIn(d, org, relation) == Wanted(groups + [more], org, relation) {
      assert Wanted(groups + [more], org, relation) == Wanted(groups, org, relation);
    }
    forall org | org in d ensures Visited(groups + [more], org) {
      var g, p :| g in groups && p in g.permissions && g.org == org && ValidPermission(p);
      assert g in groups + [more];
    }
  }

  lemma OneMore(d: Desired, groups: seq<TeamGroup>, g: TeamGroup, p: string)
    requires Complete(d, groups + [g])
    ensures Complete(if ValidPermission(p) then AddUser(d, g.org, PermissionRelation(p).value, TeamMembers(g.team)) else d,
                     groups + [g.(permissions := g.permissions + [p])])
  {
    var next := g.(permissions := g.permissions + [p]);
    var e := if ValidPermission(p) then AddUser(d, g.org, PermissionRelation(p).value, TeamMembers(g.team)) else d;
    if ValidPermission(p) {
      AddUserAdds(d, g.org, PermissionRelation(p).value, TeamMembers(g.team));
    }
    forall org, relation ensures UsersIn(e, org, relation) == Wanted(groups + [next], org, relation) {
      WantedGrows(groups, g, p, org, relation);
    }
    assert Built(e, groups + [next]) by {
      forall org | org in e ensures Visited(groups + [next], org) {
        if org in d {
          var h, q :| h in groups + [g] && q in h.permissions && h.org == org && ValidPermission(q);
          var k := if h == g then next else h;
          assert k in groups + [next] && q in k.permissions;
        } else {
          assert next in groups + [next] && p in next.permissions;
        }
      }
      forall h, q | h in groups + [next] && q in h.permissions && ValidPermission(q) ensures h.org in e {
        if h == next && q in g.permissions {
          assert g in groups + [g];
        } else if h in groups {
          assert h in groups + [g];
        }
      }
    }
  }

  lemma WantedGrows(groups: seq<TeamGroup>, g: TeamGroup, p: string, org: string, relation: string)
    ensures Wanted(groups + [g.(permissions := g.permissions + [p])], org, relation)
         == Wanted(groups + [g], org, relation)
            + (if g.org == org && PermissionRelation(p) == Some(relation) then {TeamMembers(g.team)} else {})
  {
    var next := g.(permissions := g.permissions + [p]);
    forall user | user in Wanted(groups + [g], org, relation) ensures user in Wanted(groups + [next], org, relation) {
      var h, q :| h in groups + [g] && q in h.permissions && h.org == org && PermissionRelation(q) == Some(relation) && user == TeamMembers(h.team);
      var k := if h == g then next else h;
      assert k in groups + [next] && q in k.permissions;
    }
    if g.org == org && PermissionRelation(p) == Some(relation) {
      assert next in groups + [next] && p in next.permissions;
      assert TeamMembers(g.team) in Wanted(groups + [next], org, relation);
    }
    forall user | user in Wanted(groups + [next], org, relation)
      ensures user in Wanted(groups + [g], org, relation) + (if g.org == org && PermissionRelation(p) == Some(relation) then {TeamMembers(g.team)} else {})
    {
      var h, q :| h in groups + [next] && q in h.permissions && h.org == org && PermissionRelation(q) == Some(relation) && user == TeamMembers(h.team);
      if h == next {
        if q in g.permissions {
          assert g in groups + [g];
        }
      } else {
        assert h in groups + [g];
      }
    }
  }

  method BuildDesired(groups: seq<TeamGroup>) returns (desired: Desired)
    ensures Complete(desired, groups)
  {
    desired := map[];
    for i := 0 to |groups|
      invariant Complete(desired, groups[..i])
    {
      var g := groups[i];
      NothingMore(desired, groups[..i], g.(permissions := []));
      assert UpTo(groups, i, 0) == groups[..i] + [g.(permissions := [])];
      for j := 0 to |g.permissions|
        invariant Complete(desired, UpTo(groups, i, j))
      {
        OneMore(desired, groups[..i], g.(permissions := g.permissions[..j]), g.permissions[j]);
        assert g.permissions[..j + 1] == g.permissions[..j] + [g.permissions[j]];
        var relation := PermissionRelation(g.permissions[j]);
        if relation.None? {
          continue;
        }
        desired := AddUser(desired, g.org, relation.value, TeamMembers(g.team));
      }
      assert g.permissions[..|g.permissions|] == g.permissions;
      assert UpTo(groups, i, |g.permissions|) == groups[..i + 1];
    }
    assert groups[..|groups|] == groups;
  }

  function CatalogRelations(): seq<string> {
    seq(|CATALOG|, i requires 0 <= i < |CATALOG| => ReplaceChar(CATALOG[i].slug, '.', '_'))
  }

  /** The retired relations are none of the catalog's. */
  lemma LegacyIsRetired(relation: string)
    requires relation in LEGACY_RELATIONS
    ensures relation !in CatalogRelations()
  {
    forall i | 0 <= i < |CATALOG| ensures CatalogRelations()[i] != relation {
      SlugsAreCurrent(i);
      var slug, r := CATALOG[i].slug, CatalogRelations()[i];
      assert |r| == |slug| && (r[0] == 'p' ==> slug[0] == 'p');
    }
  }

  function UsersOf(rels: map<string, set<string>>, relation: string): set<string> {
    if relation in rels then rels[relation] else {}
  }

  function WantedTuples(rels: map<string, set<string>>, target: string, relation: string): set<Tuple> {
    TuplesOf(UsersOf(rels, relation), target, relation)
  }

  /** One object has moved toward what is wanted on the given relations, and nothing else has moved. */
  ghost predicate TowardAll(before: set<Tuple>, after: set<Tuple>, target: string, rels: map<string, set<string>>, relations: set<string>) {
    && (forall r | r in relations ::
          Slice(before, target, r) * WantedTuples(rels, target, r) <= Slice(after, target, r)
          && Slice(after, target, r) <= Slice(before, target, r) + WantedTuples(rels, target, r))
    && (forall t: Tuple | !(t.target == target && t.relation in relations) :: t in before <==> t in after)
  }

  predicate ExactOn(tuples: set<Tuple>, target: string, rels: map<string, set<string>>, relations: set<string>) {
    forall r | r in relations :: Slice(tuples, target, r) == WantedTuples(rels, target, r)
  }

  lemma TowardOne(before: set<Tuple>, mid: set<Tuple>, after: set<Tuple>, target: string, rels: map<string, set<string>>,
                  relations: set<string>, r: string)
    requires TowardAll(before, mid, target, rels, relations) && Toward(mid, after, target, r, WantedTuples(rels, target, r))
    ensures TowardAll(before, after, target, rels, relations + {r})
  {
    Elsewhere(mid, after, target, r);
    forall q | q in relations + {r}
      ensures Slice(before, target, q) * WantedTuples(rels, target, q) <= Slice(after, target, q)
      ensures Slice(after, target, q) <= Slice(before, target, q) + WantedTuples(rels, target, q)
    {
      if q != r {
        assert Slice(after, target, q) == Slice(mid, target, q);
      } else if r !in relations {
        assert Slice(mid, target, r) == Slice(before, target, r);
      }
    }
  }

  lemma Elsewhere(mid: set<Tuple>, after: set<Tuple>, target: string, r: string)
    requires mid - Slice(mid, target, r) == after - Slice(after, target, r)
    ensures forall t | !At(t, target, r) :: t in mid <==> t in after
  {
    forall t | !At(t, target, r) ensures t in mid <==> t in after {
      assert t in mid - Slice(mid, target, r) <==> t in mid;
      assert t in after - Slice(after, target, r) <==> t in after;
    }
  }

  lemma ExactStays(mid: set<Tuple>, after: set<Tuple>, target: string, rels: map<string, set<string>>, relations: set<string>, r: string)
    requires ExactOn(mid, target, rels, relations) && Toward(mid, after, target, r, WantedTuples(rels, target, r))
    ensures ExactOn(after, target, rels, relations)
  {
    Elsewhere(mid, after, target, r);
    forall q | q in relations ensures Slice(after, target, q) == WantedTuples(rels, target, q) {
      if q != r {
        assert Slice(after, target, q) == Slice(mid, target, q);
      }
    }
  }

  /** Converge every relation of one object; a failure skips to the next relation. */
  method ConvergeRelations(store: Store, target: string, rels: map<string, set<string>>, relations: seq<string>) returns (ok: bool)
    modifies store
    ensures TowardAll(old(store.tuples), store.tuples, target, rels, ToSet(relations))
    ensures ok ==> ExactOn(store.tuples, target, rels, ToSet(relations))
    ensures ExactOn(old(store.tuples), target, rels, ToSet(relations)) ==> store.changes == old(store.changes)
    ensures ClearFrom(store.weather, old(store.requests)) && ToSet(relations) <= store.relations ==> ok
    ensures old(store.requests) <= store.requests
  {
    ok := true;
    for i := 0 to |relations|
      invariant TowardAll(old(store.tuples), store.tuples, target, rels, ToSet(relations[..i]))
      invariant ok ==> ExactOn(store.tuples, target, rels, ToSet(relations[..i]))
      invariant ExactOn(old(store.tuples), target, rels, ToSet(relations)) ==>
                  store.changes == old(store.changes) && ExactOn(store.tuples, target, rels, ToSet(relations))
      invariant ClearFrom(store.weather, old(store.requests)) && ToSet(relations) <= store.relations ==> ok
      invariant old(store.requests) <= store.requests
    {
      var r := relations[i];
      ghost var mid := store.tuples;
      NextSet(relations, i);
      var actual, failure := store.ReadTuples(target, r);
      if failure.Some? {
        SameIsToward(mid, target, r, WantedTuples(rels, target, r));
        TowardOne(old(store.tuples), mid, mid, target, rels, ToSet(relations[..i]), r);
        ok := false;
        continue;
      }
      var done := Converge(store, actual, UsersOf(rels, r), target, r, false);
      TowardOne(old(store.tuples), mid, store.tuples, target, rels, ToSet(relations[..i]), r);
      if ok {
        ExactStays(mid, store.tuples, target, rels, ToSet(relations[..i]), r);
      }
      if ExactOn(mid, target, rels, ToSet(relations)) {
        ExactStays(mid, store.tuples, target, rels, ToSet(relations), r);
      }
      ok := ok && done;
    }
    assert relations[..|relations|] == relations;
  }

  lemma NextSet(relations: seq<string>, i: nat)
    requires i < |relations|
    ensures ToSet(relations[..i + 1]) == ToSet(relations[..i]) + {relations[i]} && relations[i] in ToSet(relations)
  {
    assert relations[..i + 1] == relations[..i] + [relations[i]];
  }

  lemma SameIsToward(tuples: set<Tuple>, target: string, r: string, want: set<Tuple>)
    ensures Toward(tuples, tuples, target, r, want)
  {
  }

  method ConvergeOrg(store: Store, target: string, rels: map<string, set<string>>) returns (ok: bool)
    modifies store
    ensures TowardAll(old(store.tuples), store.tuples, target, rels, ToSet(CatalogRelations()))
    ensures ok ==> ExactOn(store.tuples, target, rels, ToSet(CatalogRelations()))
    ensures ExactOn(old(store.tuples), target, rels, ToSet(CatalogRelations())) ==> store.changes == old(store.changes)
    ensures ClearFrom(store.weather, old(store.requests)) && ToSet(CatalogRelations()) <= store.relations ==> ok
    ensures old(store.requests) <= store.requests
  {
    ok := ConvergeRelations(store, target, rels, CatalogRelations());
  }

  /** Delete what an object still has under retired relations; relations the server no longer knows are
      passed over. */
  method SweepLegacy(store: Store, target: string) returns (ok: bool)
    modifies store
    ensures store.tuples <= old(store.tuples)
    ensures forall t | t in old(store.tuples) && t !in store.tuples :: t.target == target && t.relation in LEGACY_RELATIONS
    ensures ok ==> forall r | r in LEGACY_RELATIONS && r in store.relations :: Slice(store.tuples, target, r) == {}
    ensures (forall r | r in LEGACY_RELATIONS :: Slice(old(store.tuples), target, r) == {}) ==> store.changes == old(store.changes)
    ensures ClearFrom(store.weather, old(store.requests)) ==> ok
    ensures old(store.requests) <= store.requests
  {
    ok := true;
    for i := 0 to |LEGACY_RELATIONS|
      invariant store.tuples <= old(store.tuples)
      invariant forall t | t in old(store.tuples) && t !in store.tuples :: t.target == target && t.relation in LEGACY_RELATIONS
      invariant ok ==> forall j | 0 <= j < i && LEGACY_RELATIONS[j] in store.relations :: Slice(store.tuples, target, LEGACY_RELATIONS[j]) == {}
      invariant (forall r | r in LEGACY_RELATIONS :: Slice(old(store.tuples), target, r) == {}) ==> store.changes == old(store.changes)
      invariant ClearFrom(store.weather, old(store.requests)) ==> ok
      invariant old(store.requests) <= store.requests
    {
      var r := LEGACY_RELATIONS[i];
      var found, failure := store.ReadTuples(target, r);
      if failure.Some? {
        if !failure.value.RelationNotFound? {
          ok := false;
        }
        continue;
      }
      EmptyList(found);
      if |found| == 0 {
        continue;
      }
      ghost var mid := store.tuples;
      assert Slice(mid, target, r) <= Slice(old(store.tuples), target, r);
      var done := store.DeleteTuples(found);
      ok := ok && done;
    }
  }
}
