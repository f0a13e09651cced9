/** An organization's teams, roles and permissions, and the tuples they call for: keeping the tuples up to
    date event by event against working them out from scratch. */
module OrgDirectory {
  import opened Wrappers
  import opened Text
  import opened Permissions
  import opened Tuples
  import opened TupleWriter

  /** Each team has a role, each role a list of permissions. */
  datatype Directory = Directory(roles: map<string, seq<string>>, teams: map<string, string>)

  function PermissionsOf(d: Directory, team: string): seq<string> {
    if team in d.teams && d.teams[team] in d.roles then d.roles[d.teams[team]] else []
  }

  /** Every team's role exists. */
  predicate WellFormed(d: Directory) {
    forall team | team in d.teams :: d.teams[team] in d.roles
  }

  /** The grants of some of the teams. */
  function Held(org: string, d: Directory, teams: set<string>): set<Tuple> {
    set team, t | team in teams && t in Grants(org, team, PermissionsOf(d, team)) :: t
  }

  /** The permission tuples of an organization, from scratch. */
  function Derived(org: string, d: Directory): set<Tuple> {
    Held(org, d, d.teams.Keys)
  }

  predicate CatalogRelation(relation: string) {
    exists i | 0 <= i < |CATALOG| :: PermissionRelation(CATALOG[i].slug) == Some(relation)
  }

  /** The part of the store that the directory decides: tuples on the organization whose relation stands
      for a permission. */
  function PermissionPart(org: string, store: set<Tuple>): set<Tuple> {
    set t | t in store && t.target == OrgObject(org) && CatalogRelation(t.relation)
  }

  // ----- Changes of the directory, each announced by an event

  datatype Change =
    | CreateTenant(teams: seq<(string, string)>)
    | CreateTeam(team: string, role: string)
    | DeleteTeam(team: string)
    | Remap(teams: seq<(string, string)>)
    | CreateRole(role: string, permissions: seq<string>)
    | EditRole(role: string, permissions: seq<string>, bound: seq<string>)
    | DeleteRole(role: string)

  predicate DistinctTeams(teams: seq<(string, string)>) {
    forall i, j | 0 <= i < j < |teams| :: teams[i].0 != teams[j].0
  }

  function Assigned(teams: seq<(string, string)>): map<string, string> {
    if teams == [] then map[] else Assigned(teams[..|teams| - 1])[teams[|teams| - 1].0 := teams[|teams| - 1].1]
  }

  lemma {:induction false} AssignedIs(teams: seq<(string, string)>)
    requires DistinctTeams(teams)
    ensures forall team :: team in Assigned(teams) <==> exists i | 0 <= i < |teams| :: teams[i].0 == team
    ensures forall i | 0 <= i < |teams| :: teams[i].0 in Assigned(teams) && Assigned(teams)[teams[i].0] == teams[i].1
  {
    if teams != [] {
      var n := |teams| - 1;
      AssignedIs(teams[..n]);
      forall team ensures team in Assigned(teams) <==> exists i | 0 <= i < |teams| :: teams[i].0 == team {
        if team in Assigned(teams[..n]) {
          var i :| 0 <= i < n && teams[..n][i].0 == team;
          assert teams[i].0 == team;
        }
        if i :| 0 <= i < |teams| && teams[i].0 == team {
          assert i == n || teams[..n][i].0 == team;
        }
      }
      forall i | 0 <= i < |teams| ensures teams[i].0 in Assigned(teams) && Assigned(teams)[teams[i].0] == teams[i].1 {
        if i < n {
          assert teams[..n][i] == teams[i];
        }
      }
    }
  }

  /** What the services that own teams and roles allow. An edited role lists the teams bound to it. */
  predicate Legal(d: Directory, c: Change) {
    match c
    case CreateTenant(teams) =>
      DistinctTeams(teams) && forall i | 0 <= i < |teams| :: teams[i].0 !in d.teams && teams[i].1 in d.roles
    case CreateTeam(team, role) => team !in d.teams && role in d.roles
    case DeleteTeam(team) => team in d.teams
    case Remap(teams) =>
      DistinctTeams(teams) && forall i | 0 <= i < |teams| :: teams[i].0 in d.teams && teams[i].1 in d.roles
    case CreateRole(role, _) => role !in d.roles
    case EditRole(role, _, bound) =>
      role in d.roles && ToSet(bound) == set team | team in d.teams && d.teams[team] == role
    case DeleteRole(role) => role in d.roles && forall team | team in d.teams :: d.teams[team] != role
  }

  function After(d: Directory, c: Change): Directory {
    match c
    case CreateTenant(teams) => d.(teams := d.teams + Assigned(teams))
    case CreateTeam(team, role) => d.(teams := d.teams[team := role])
    case DeleteTeam(team) => d.(teams := d.teams - {team})
    case Remap(teams) => d.(teams := d.teams + Assigned(teams))
    case CreateRole(role, permissions) => d.(roles := d.roles[role := permissions])
    case EditRole(role, permissions, _) => d.(roles := d.roles[role := permissions])
    case DeleteRole(role) => d.(roles := d.roles - {role})
  }

  function RolePermissions(d: Directory, role: string): seq<string> {
    if role in d.roles then d.roles[role] else []
  }

  function Seeds(d: Directory, teams: seq<(string, string)>): seq<TeamSeed> {
    seq(|teams|, i requires 0 <= i < |teams| => TeamSeed(teams[i].0, RolePermissions(d, teams[i].1)))
  }

  function TeamChanges(d: Directory, teams: seq<(string, string)>): seq<TeamChange> {
    seq(|teams|, i requires 0 <= i < |teams| =>
      TeamChange(teams[i].0, PermissionsOf(d, teams[i].0), RolePermissions(d, teams[i].1)))
  }

  /** The event of a change, with accurate contents. */
  function EventOf(org: string, d: Directory, c: Change): Event {
    match c
    case CreateTenant(teams) => TenantCreated(org, Seeds(d, teams))
    case CreateTeam(team, role) => TeamCreated(org, team, RolePermissions(d, role))
    case DeleteTeam(team) => TeamDeleted(org, team, PermissionsOf(d, team))
    case Remap(teams) => MappingsUpdated(org, TeamChanges(d, teams))
    case CreateRole(_, _) => RoleCreated
    case EditRole(role, permissions, bound) => RoleUpdated(org, bound, RolePermissions(d, role), permissions)
    case DeleteRole(role) => RoleDeleted(org, [], RolePermissions(d, role))
  }

  /** The teams whose permissions a change may alter. */
  function Affected(c: Change): set<string> {
    match c
    case CreateTenant(teams) => set i | 0 <= i < |teams| :: teams[i].0
    case CreateTeam(team, _) => {team}
    case DeleteTeam(team) => {team}
    case Remap(teams) => set i | 0 <= i < |teams| :: teams[i].0
    case EditRole(_, _, bound) => ToSet(bound)
    case _ => {}
  }

  // ----- Grants of different teams are different tuples

  lemma GrantsAreApart(org: string, a: string, p: seq<string>, b: string, q: seq<string>)
    requires a != b
    ensures Grants(org, a, p) !! Grants(org, b, q)
  {
    forall t | t in Grants(org, a, p) ensures t !in Grants(org, b, q) {
      assert t.user == TeamMembers(a);
      if TeamMembers(a) == TeamMembers(b) {
        TeamMembersInjective(a, b);
      }
    }
  }

  lemma GrantsAreInThePart(org: string, team: string, permissions: seq<string>)
    ensures PermissionPart(org, Grants(org, team, permissions)) == Grants(org, team, permissions)
  {
    forall t | t in Grants(org, team, permissions) ensures CatalogRelation(t.relation) {
      var p :| p in permissions && ValidPermission(p) && t == GrantTuple(org, team, PermissionRelation(p).value);
      var i :| 0 <= i < |CATALOG| && CATALOG[i].slug == p;
      assert PermissionRelation(CATALOG[i].slug) == Some(t.relation);
    }
  }

  lemma HeldIsInThePart(org: string, d: Directory, teams: set<string>)
    ensures PermissionPart(org, Held(org, d, teams)) == Held(org, d, teams)
  {
    forall t | t in Held(org, d, teams) ensures t in PermissionPart(org, Held(org, d, teams)) {
      var team :| team in teams && t in Grants(org, team, PermissionsOf(d, team));
      GrantsAreInThePart(org, team, PermissionsOf(d, team));
      assert t in PermissionPart(org, Grants(org, team, PermissionsOf(d, team)));
    }
  }

  /** Replacing the grants of the affected teams is enough, when nobody else's permissions change. */
  lemma OnlyAffectedChange(org: string, d: Directory, e: Directory, affected: set<string>)
    requires forall team | team !in affected :: PermissionsOf(d, team) == PermissionsOf(e, team)
    ensures Derived(org, e) == (Derived(org, d) - Held(org, d, affected)) + Held(org, e, affected)
  {
    forall t | t in Derived(org, e) ensures t in (Derived(org, d) - Held(org, d, affected)) + Held(org, e, affected) {
      var team :| team in e.teams && t in Grants(org, team, PermissionsOf(e, team));
      if team !in affected {
        NotAmong(org, d, affected, team, PermissionsOf(e, team), t);
        assert team in d.teams;
      }
    }
    forall t | t in (Derived(org, d) - Held(org, d, affected)) + Held(org, e, affected) ensures t in Derived(org, e) {
      if t in Held(org, e, affected) {
        var team :| team in affected && t in Grants(org, team, PermissionsOf(e, team));
        assert team in e.teams;
      } else {
        var team :| team in d.teams && t in Grants(org, team, PermissionsOf(d, team));
        assert team !in affected;
        assert team in e.teams;
      }
    }
  }

  lemma NotAmong(org: string, d: Directory, affected: set<string>, team: string, permissions: seq<string>, t: Tuple)
    requires team !in affected && t in Grants(org, team, permissions)
    ensures t !in Held(org, d, affected)
  {
    if t in Held(org, d, affected) {
      var other :| other in affected && t in Grants(org, other, PermissionsOf(d, other));
      GrantsAreApart(org, team, permissions, other, PermissionsOf(d, other));
    }
  }

  // ----- Each event asks for exactly that

  lemma ChangeIsLocal(d: Directory, c: Change)
    requires WellFormed(d) && Legal(d, c)
    ensures WellFormed(After(d, c))
    ensures forall team | team !in Affected(c) :: PermissionsOf(d, team) == PermissionsOf(After(d, c), team)
  {
    match c
    case CreateTenant(teams) => AssignedIs(teams);
    case Remap(teams) => AssignedIs(teams);
    case EditRole(role, _, bound) => assert forall team | team in d.teams && d.teams[team] == role :: team in ToSet(bound);
    case _ =>
  }

  lemma EventAsksForTheChange(org: string, d: Directory, c: Change)
    requires Legal(d, c)
    ensures DeltaOf(EventOf(org, d, c)).Some?
    ensures var delta := DeltaOf(EventOf(org, d, c)).value;
            delta.gone == Held(org, d, Affected(c)) && delta.put == Held(org, After(d, c), Affected(c))
  {
    var e := After(d, c);
    match c
    case CreateTenant(teams) =>
      AssignedIs(teams);
      assert Held(org, d, Affected(c)) == {};
      ListedGrants(org, e, teams, Seeds(d, teams));
    case CreateTeam(team, role) =>
      assert Held(org, d, {team}) == {};
      assert PermissionsOf(e, team) == RolePermissions(d, role);
      assert Held(org, e, {team}) == Grants(org, team, RolePermissions(d, role));
    case DeleteTeam(team) =>
      assert Held(org, e, {team}) == {};
      assert Held(org, d, {team}) == Grants(org, team, PermissionsOf(d, team));
    case Remap(teams) =>
      AssignedIs(teams);
      ListedChanges(org, d, e, teams);
    case CreateRole(_, _) =>
      assert Held(org, d, {}) == {} == Held(org, e, {});
    case EditRole(role, permissions, bound) =>
      forall team | team in bound ensures PermissionsOf(d, team) == d.roles[role] && PermissionsOf(e, team) == permissions {
        assert team in ToSet(bound);
      }
      assert Held(org, d, Affected(c)) == RoleGrants(org, bound, RolePermissions(d, role));
      assert Held(org, e, Affected(c)) == RoleGrants(org, bound, permissions);
    case DeleteRole(role) =>
      assert Held(org, d, {}) == {} == Held(org, e, {});
      assert RoleGrants(org, [], RolePermissions(d, role)) == {};
  }

  lemma ListedGrants(org: string, e: Directory, teams: seq<(string, string)>, seeds: seq<TeamSeed>)
    requires |seeds| == |teams|
    requires forall i | 0 <= i < |teams| :: seeds[i] == TeamSeed(teams[i].0, PermissionsOf(e, teams[i].0))
    ensures SeedGrants(org, seeds) == Held(org, e, set i | 0 <= i < |teams| :: teams[i].0)
  {
    var names := set i | 0 <= i < |teams| :: teams[i].0;
    forall t | t in SeedGrants(org, seeds) ensures t in Held(org, e, names) {
      var i :| 0 <= i < |seeds| && t in Grants(org, seeds[i].team, seeds[i].permissions);
      assert teams[i].0 in names;
    }
    forall t | t in Held(org, e, names) ensures t in SeedGrants(org, seeds) {
      var team :| team in names && t in Grants(org, team, PermissionsOf(e, team));
      var i :| 0 <= i < |teams| && teams[i].0 == team;
      assert t in Grants(org, seeds[i].team, seeds[i].permissions);
    }
  }

  lemma ListedChanges(org: string, d: Directory, e: Directory, teams: seq<(string, string)>)
    requires forall i | 0 <= i < |teams| :: PermissionsOf(e, teams[i].0) == RolePermissions(d, teams[i].1)
    ensures var names := set i | 0 <= i < |teams| :: teams[i].0;
            && OldGrants(org, TeamChanges(d, teams)) == Held(org, d, names)
            && NewGrants(org, TeamChanges(d, teams)) == Held(org, e, names)
  {
    var changes := TeamChanges(d, teams);
    var before := seq(|teams|, i requires 0 <= i < |teams| => TeamSeed(teams[i].0, PermissionsOf(d, teams[i].0)));
    var after := seq(|teams|, i requires 0 <= i < |teams| => TeamSeed(teams[i].0, PermissionsOf(e, teams[i].0)));
    ListedGrants(org, d, teams, before);
    ListedGrants(org, e, teams, after);
    forall t ensures t in OldGrants(org, changes) <==> t in SeedGrants(org, before) {
      if i :| 0 <= i < |changes| && t in Grants(org, changes[i].team, changes[i].oldPermissions) {
        assert t in Grants(org, before[i].team, before[i].permissions);
      }
      if i :| 0 <= i < |before| && t in Grants(org, before[i].team, before[i].permissions) {
        assert t in Grants(org, changes[i].team, changes[i].oldPermissions);
      }
    }
    forall t ensures t in NewGrants(org, changes) <==> t in SeedGrants(org, after) {
      if i :| 0 <= i < |changes| && t in Grants(org, changes[i].team, changes[i].newPermissions) {
        assert t in Grants(org, after[i].team, after[i].permissions);
      }
      if i :| 0 <= i < |after| && t in Grants(org, after[i].team, after[i].permissions) {
        assert t in Grants(org, changes[i].team, changes[i].newPermissions);
      }
    }
    assert OldGrants(org, changes) == SeedGrants(org, before);
    assert NewGrants(org, changes) == SeedGrants(org, after);
  }

  // ----- Main result

  /** The store follows the directory, and is otherwise what it was. */
  predicate Follows(org: string, d: Directory, store: set<Tuple>) {
    PermissionPart(org, store) == Derived(org, d)
  }

  predicate SameElsewhere(org: string, a: set<Tuple>, b: set<Tuple>) {
    a - PermissionPart(org, a) == b - PermissionPart(org, b)
  }

  lemma OneEventKeepsUp(org: string, d: Directory, c: Change, store: set<Tuple>, attempts: seq<Attempt>)
    requires WellFormed(d) && Legal(d, c) && Follows(org, d, store) && attempts != []
    ensures WellFormed(After(d, c))
    ensures DeltaOf(EventOf(org, d, c)).Some?
    ensures var delta := DeltaOf(EventOf(org, d, c)).value;
            Succeeds(delta, attempts[|attempts| - 1]) ==>
              var after := AfterAttempts(store, delta, attempts);
              Follows(org, After(d, c), after) && SameElsewhere(org, store, after)
  {
    EventAsksForTheChange(org, d, c);
    ChangeIsLocal(d, c);
    var delta := DeltaOf(EventOf(org, d, c)).value;
    if Succeeds(delta, attempts[|attempts| - 1]) {
      EventsCall(EventOf(org, d, c));
      RetriesConverge(store, delta, store, attempts);
      OnlyAffectedChange(org, d, After(d, c), Affected(c));
      HeldIsInThePart(org, d, Affected(c));
      HeldIsInThePart(org, After(d, c), Affected(c));
      PartOfReplaced(org, store, delta);
    }
  }

  lemma PartOfReplaced(org: string, store: set<Tuple>, delta: Delta)
    requires PermissionPart(org, delta.gone) == delta.gone && PermissionPart(org, delta.put) == delta.put
    ensures var after := (store - delta.gone) + delta.put;
            PermissionPart(org, after) == (PermissionPart(org, store) - delta.gone) + delta.put
            && SameElsewhere(org, store, after)
  {
    var after := (store - delta.gone) + delta.put;
    assert forall t | t in delta.put :: t in PermissionPart(org, delta.put);
    assert forall t | t in delta.gone :: t in PermissionPart(org, delta.gone);
    assert PermissionPart(org, after) == (PermissionPart(org, store) - delta.gone) + delta.put;
    assert after - PermissionPart(org, after) == store - PermissionPart(org, store);
  }

  /** A run: changes in order, each event attempted some number of times, the last time with success. */
  predicate LegalRun(d: Directory, changes: seq<Change>)
    decreases |changes|
  {
    changes == [] || (Legal(d, changes[0]) && LegalRun(After(d, changes[0]), changes[1..]))
  }

  function AfterChanges(d: Directory, changes: seq<Change>): Directory
    decreases |changes|
  {
    if changes == [] then d else AfterChanges(After(d, changes[0]), changes[1..])
  }

  predicate Delivered(org: string, d: Directory, changes: seq<Change>, attempts: seq<seq<Attempt>>)
    decreases |changes|
  {
    |attempts| == |changes| &&
    (changes == [] ||
     (var delta := DeltaOf(EventOf(org, d, changes[0]));
      delta.Some? && attempts[0] != [] && Succeeds(delta.value, attempts[0][|attempts[0]| - 1])
      && Delivered(org, After(d, changes[0]), changes[1..], attempts[1..])))
  }

  function StoreAfter(org: string, d: Directory, store: set<Tuple>, changes: seq<Change>, attempts: seq<seq<Attempt>>): set<Tuple>
    requires Delivered(org, d, changes, attempts)
    decreases |changes|
  {
    if changes == [] then store
    else
      StoreAfter(org, After(d, changes[0]), AfterAttempts(store, DeltaOf(EventOf(org, d, changes[0])).value, attempts[0]),
                 changes[1..], attempts[1..])
  }

  /** Incremental equals recomputed: over any run of tenant, team, role and mapping changes, with partial
      failures, retries and immediate redeliveries of every event, the permission tuples of the organization
      are those worked out from scratch from its teams, roles and permissions, and no other tuple has
      changed. */
  lemma {:induction false} IncrementalEqualsRecomputed(org: string, d: Directory, store: set<Tuple>, changes: seq<Change>, attempts: seq<seq<Attempt>>)
    requires WellFormed(d) && LegalRun(d, changes) && Delivered(org, d, changes, attempts) && Follows(org, d, store)
    ensures Follows(org, AfterChanges(d, changes), StoreAfter(org, d, store, changes, attempts))
    ensures SameElsewhere(org, store, StoreAfter(org, d, store, changes, attempts))
    decreases |changes|
  {
    hide Follows, SameElsewhere, After, EventOf, Legal, Succeeds, DeltaOf;
    if changes == [] {
      Unchanged(org, store);
    } else {
      var delta := DeltaOf(EventOf(org, d, changes[0])).value;
      var next := AfterAttempts(store, delta, attempts[0]);
      OneEventKeepsUp(org, d, changes[0], store, attempts[0]);
      IncrementalEqualsRecomputed(org, After(d, changes[0]), next, changes[1..], attempts[1..]);
      ElsewhereComposes(org, store, next, StoreAfter(org, d, store, changes, attempts));
    }
  }

  lemma Unchanged(org: string, store: set<Tuple>)
    ensures SameElsewhere(org, store, store)
  {
  }

  lemma ElsewhereComposes(org: string, a: set<Tuple>, b: set<Tuple>, c: set<Tuple>)
    requires SameElsewhere(org, a, b) && SameElsewhere(org, b, c)
    ensures SameElsewhere(org, a, c)
  {
  }

  /** Events must not be overtaken: a team's creation that is delivered again after its deletion leaves
      grants behind, and does so exactly if the team had any. */
  lemma LateRedeliveryDrifts(org: string, d: Directory, team: string, role: string, store: set<Tuple>)
    requires Legal(d, CreateTeam(team, role)) && Follows(org, d, store)
    ensures var create, delete := CreateTeam(team, role), DeleteTeam(team);
            var e := After(d, create);
            var put := DeltaOf(EventOf(org, d, create)).value;
            var gone := DeltaOf(EventOf(org, e, delete)).value;
            var once := Attempt(Done, Done);
            var late := AfterAttempt(AfterAttempt(AfterAttempt(store, put, once), gone, once), put, once);
            Follows(org, After(e, delete), late) <==> Grants(org, team, RolePermissions(d, role)) == {}
  {
    var create, delete := CreateTeam(team, role), DeleteTeam(team);
    var e := After(d, create);
    var once := Attempt(Done, Done);
    var grants := Grants(org, team, RolePermissions(d, role));
    assert PermissionsOf(e, team) == RolePermissions(d, role);
    assert After(e, delete).teams == d.teams;
    var late := ((store + grants) - grants) + grants;
    GrantsAreInThePart(org, team, RolePermissions(d, role));
    PartOfReplaced(org, store, Replacing({}, grants));
    PartOfReplaced(org, store + grants, Replacing(grants, {}));
    PartOfReplaced(org, (store + grants) - grants, Replacing({}, grants));
    assert grants !! Derived(org, d) by {
      forall t | t in grants ensures t !in Derived(org, d) {
        NotAmong(org, d, d.teams.Keys, team, RolePermissions(d, role), t);
      }
    }
    assert late == store + grants;
    assert PermissionPart(org, {}) == {};
  }
}
