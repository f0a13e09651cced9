/** Events turned into tuples: incremental upkeep of the authorization store. */
module TupleWriter {
  import opened Wrappers
  import opened Permissions
  import opened Tuples

  datatype TeamSeed = TeamSeed(team: string, permissions: seq<string>)

  datatype TeamChange = TeamChange(team: string, oldPermissions: seq<string>, newPermissions: seq<string>)

  datatype Membership = Membership(user: string, team: string)

  /** Everything that refers to a tenant, by the type name of the objects. */
  datatype TenantSnapshot = TenantSnapshot(org: string, teams: seq<TeamSeed>, members: seq<Membership>, objects: map<string, seq<string>>)

  datatype Event =
    | TenantCreated(org: string, seeds: seq<TeamSeed>)
    | TenantDeleting(snapshot: TenantSnapshot)
    | TenantRestored(snapshot: TenantSnapshot)
    | TeamCreated(org: string, team: string, permissions: seq<string>)
    | TeamDeleted(org: string, team: string, permissions: seq<string>)
    | MembershipAdded(member: Membership)
    | MembershipRemoved(member: Membership)
    | ChildAdded(parent: string, kind: ChildKind, id: string)
    | ChildRemoved(parent: string, kind: ChildKind, id: string)
    | MappingsUpdated(org: string, changes: seq<TeamChange>)
    | RoleCreated
    | RoleUpdated(org: string, teams: seq<string>, oldPermissions: seq<string>, newPermissions: seq<string>)
    | RoleDeleted(org: string, teams: seq<string>, oldPermissions: seq<string>)
    | OtherEvent
    | MalformedEvent

  /** Tuples to take away, then tuples to put, and whether the store is called for either. */
  datatype Delta = Delta(gone: set<Tuple>, put: set<Tuple>, deletes: bool, writes: bool)

  /** A change for which the store is called only where there is something to do. */
  function Replacing(gone: set<Tuple>, put: set<Tuple>): Delta {
    Delta(gone, put, gone != {}, put != {})
  }

  /** Nothing changes without a call. */
  predicate Calls(d: Delta) {
    (d.gone != {} ==> d.deletes) && (d.put != {} ==> d.writes)
  }

  function SeedGrants(org: string, teams: seq<TeamSeed>): set<Tuple> {
    set i, t | 0 <= i < |teams| && t in Grants(org, teams[i].team, teams[i].permissions) :: t
  }

  function MemberTuples(members: seq<Membership>): set<Tuple> {
    set m | m in members :: MemberTuple(m.user, m.team)
  }

  /** The child kinds a tenant snapshot may list. */
  function SnapshotKind(typ: string): Option<ChildKind> {
    if typ == "cluster" then Some(Cluster)
    else if typ == "cloud_account" then Some(CloudAccount)
    else if typ == "cluster_set" then Some(ClusterSet)
    else if typ == "policy_pack" then Some(PolicyPack)
    else if typ == "extension" then Some(Extension)
    else if typ == "rollout" then Some(Rollout)
    else if typ == "drift_event" then Some(DriftEvent)
    else if typ == "tenant_zone" then Some(TenantZone)
    else None
  }

  function TypeTuples(org: string, typ: string, ids: seq<string>): set<Tuple> {
    if SnapshotKind(typ).None? then {}
    else set id | id in ids :: ParentTuple(OrgObject(org), SnapshotKind(typ).value, id)
  }

  function ObjectTuples(org: string, objects: map<string, seq<string>>, types: set<string>): set<Tuple> {
    set typ, t | typ in types && typ in objects && t in TypeTuples(org, typ, objects[typ]) :: t
  }

  /** A snapshot that lists an object of a type the server has no name for cannot be flattened. */
  predicate Flattens(p: TenantSnapshot) {
    forall typ | typ in p.objects :: p.objects[typ] == [] || SnapshotKind(typ).Some?
  }

  function SnapshotTuples(p: TenantSnapshot): set<Tuple> {
    SeedGrants(p.org, p.teams) + MemberTuples(p.members) + ObjectTuples(p.org, p.objects, p.objects.Keys)
  }

  function OldGrants(org: string, changes: seq<TeamChange>): set<Tuple> {
    set i, t | 0 <= i < |changes| && t in Grants(org, changes[i].team, changes[i].oldPermissions) :: t
  }

  function NewGrants(org: string, changes: seq<TeamChange>): set<Tuple> {
    set i, t | 0 <= i < |changes| && t in Grants(org, changes[i].team, changes[i].newPermissions) :: t
  }

  function RoleGrants(org: string, teams: seq<string>, permissions: seq<string>): set<Tuple> {
    set team, t | team in teams && t in Grants(org, team, permissions) :: t
  }

  /** Children whose parent may be empty: items, extensions and zones that belong to no organization. */
  predicate MayBeGlobal(kind: ChildKind) {
    kind.CatalogItem? || kind.Extension? || kind.TenantZone?
  }

  function ParentOf(kind: ChildKind, parent: string): string {
    if kind.ResourceInstance? then ObjectName(Cluster, parent) else OrgObject(parent)
  }

  /** There is no event that retires these. */
  predicate NeverRemoved(kind: ChildKind) {
    kind.CatalogItem? || kind.ResourceInstance? || kind.Rollout? || kind.DriftEvent?
  }

  function ChildTuples(parent: string, kind: ChildKind, id: string): set<Tuple> {
    if MayBeGlobal(kind) && parent == "" then {} else {ParentTuple(ParentOf(kind, parent), kind, id)}
  }

  /** What an event asks for; None when it cannot be understood. A team that comes or goes is passed on to
      the store even if it has no permissions. */
  function DeltaOf(ev: Event): Option<Delta> {
    match ev
    case TenantCreated(org, teams) => Some(Replacing({}, SeedGrants(org, teams)))
    case TenantDeleting(p) => if Flattens(p) then Some(Replacing(SnapshotTuples(p), {})) else None
    case TenantRestored(p) => if Flattens(p) then Some(Replacing({}, SnapshotTuples(p))) else None
    case TeamCreated(org, team, permissions) => Some(Delta({}, Grants(org, team, permissions), false, true))
    case TeamDeleted(org, team, permissions) => Some(Delta(Grants(org, team, permissions), {}, true, false))
    case MembershipAdded(m) => Some(Replacing({}, {MemberTuple(m.user, m.team)}))
    case MembershipRemoved(m) => Some(Replacing({MemberTuple(m.user, m.team)}, {}))
    case ChildAdded(parent, kind, id) => Some(Replacing({}, ChildTuples(parent, kind, id)))
    case ChildRemoved(parent, kind, id) =>
      Some(Replacing(if NeverRemoved(kind) then {} else ChildTuples(parent, kind, id), {}))
    case MappingsUpdated(org, changes) => Some(Replacing(OldGrants(org, changes), NewGrants(org, changes)))
    case RoleCreated => Some(Replacing({}, {}))
    case RoleUpdated(org, teams, before, after) => Some(Replacing(RoleGrants(org, teams, before), RoleGrants(org, teams, after)))
    case RoleDeleted(org, teams, before) => Some(Replacing(RoleGrants(org, teams, before), {}))
    case OtherEvent => Some(Replacing({}, {}))
    case MalformedEvent => None
  }

  /** How one call on the store ends: all of it done, or an error after some of it. */
  datatype Call = Done | Broken(applied: set<Tuple>)

  function Applied(tuples: set<Tuple>, c: Call): set<Tuple> {
    if c.Done? then tuples else tuples * c.applied
  }

  datatype Attempt = Attempt(onDelete: Call, onWrite: Call)

  function AfterAttempt(store: set<Tuple>, d: Delta, a: Attempt): set<Tuple> {
    var left := store - Applied(d.gone, a.onDelete);
    if a.onDelete.Broken? && d.deletes then left else left + Applied(d.put, a.onWrite)
  }

  predicate Succeeds(d: Delta, a: Attempt) {
    (a.onDelete.Done? || !d.deletes) && (a.onWrite.Done? || !d.writes)
  }

  lemma ConcatSets(a: seq<Tuple>, b: seq<Tuple>)
    ensures ToSet(a + b) == ToSet(a) + ToSet(b)
  {
  }

  lemma NoTypes(org: string, objects: map<string, seq<string>>)
    ensures ObjectTuples(org, objects, {}) == {} && ToSet<Tuple>([]) == {}
  {
  }

  lemma OneMoreType(org: string, objects: map<string, seq<string>>, types: set<string>, typ: string)
    requires typ in objects
    ensures ObjectTuples(org, objects, types + {typ}) == ObjectTuples(org, objects, types) + TypeTuples(org, typ, objects[typ])
  {
  }

  lemma OneMoreChange(org: string, changes: seq<TeamChange>, c: TeamChange)
    ensures OldGrants(org, changes + [c]) == OldGrants(org, changes) + Grants(org, c.team, c.oldPermissions)
    ensures NewGrants(org, changes + [c]) == NewGrants(org, changes) + Grants(org, c.team, c.newPermissions)
  {
    var all := changes + [c];
    assert all[|changes|] == c && forall i | 0 <= i < |changes| :: all[i] == changes[i];
  }

  class Writer {
    var store: set<Tuple>

    constructor ()
      ensures store == {}
    {
      store := {};
    }

    method WriteTuples(tuples: seq<Tuple>, c: Call) returns (ok: bool)
      modifies this
      ensures store == old(store) + Applied(ToSet(tuples), c) && (ok <==> c.Done?)
    {
      store := store + Applied(ToSet(tuples), c);
      return c.Done?;
    }

    method DeleteTuples(tuples: seq<Tuple>, c: Call) returns (ok: bool)
      modifies this
      ensures store == old(store) - Applied(ToSet(tuples), c) && (ok <==> c.Done?)
    {
      store := store - Applied(ToSet(tuples), c);
      return c.Done?;
    }

    method SeedTuples(org: string, teams: seq<TeamSeed>) returns (tuples: seq<Tuple>)
      ensures ToSet(tuples) == SeedGrants(org, teams)
    {
      tuples := [];
      for i := 0 to |teams|
        invariant ToSet(tuples) == SeedGrants(org, teams[..i])
      {
        assert teams[..i + 1] == teams[..i] + [teams[i]];
        assert SeedGrants(org, teams[..i + 1]) == SeedGrants(org, teams[..i]) + Grants(org, teams[i].team, teams[i].permissions);
        var more := PermissionTuples(org, teams[i].team, teams[i].permissions);
        tuples := tuples + more;
      }
      assert teams[..|teams|] == teams;
    }

    method TypeTupleList(org: string, typ: string, ids: seq<string>) returns (tuples: Option<seq<Tuple>>)
      ensures tuples.Some? <==> ids == [] || SnapshotKind(typ).Some?
      ensures tuples.Some? ==> ToSet(tuples.value) == TypeTuples(org, typ, ids)
    {
      var list := [];
      for i := 0 to |ids|
        invariant ToSet(list) == TypeTuples(org, typ, ids[..i])
        invariant i > 0 ==> SnapshotKind(typ).Some?
      {
        assert ids[..i + 1] == ids[..i] + [ids[i]];
        var kind := SnapshotKind(typ);
        if kind.None? {
          return None;
        }
        assert TypeTuples(org, typ, ids[..i + 1]) == TypeTuples(org, typ, ids[..i]) + {ParentTuple(OrgObject(org), kind.value, ids[i])};
        list := list + [ParentTuple(OrgObject(org), kind.value, ids[i])];
      }
      assert ids[..|ids|] == ids;
      return Some(list);
    }

    method MemberTupleList(members: seq<Membership>) returns (tuples: seq<Tuple>)
      ensures ToSet(tuples) == MemberTuples(members)
    {
      tuples := [];
      for i := 0 to |members|
        invariant ToSet(tuples) == MemberTuples(members[..i])
      {
        assert members[..i + 1] == members[..i] + [members[i]];
        assert MemberTuples(members[..i + 1]) == MemberTuples(members[..i]) + {MemberTuple(members[i].user, members[i].team)};
        tuples := tuples + [MemberTuple(members[i].user, members[i].team)];
      }
      assert members[..|members|] == members;
    }

    /** Flatten a snapshot; the types of its objects come in any order. */
    method TuplesForTenantDeletion(p: TenantSnapshot) returns (tuples: Option<seq<Tuple>>)
      ensures tuples.Some? <==> Flattens(p)
      ensures tuples.None? <==> exists typ | typ in p.objects :: p.objects[typ] != [] && SnapshotKind(typ).None?
      ensures tuples.Some? ==> ToSet(tuples.value) == SnapshotTuples(p)
    {
      hide SeedGrants, MemberTuples, ObjectTuples, TypeTuples, ToSet;
      var list := SeedTuples(p.org, p.teams);
      var members := MemberTupleList(p.members);
      ConcatSets(list, members);
      list := list + members;
      NoTypes(p.org, p.objects);
      assert p.objects.Keys - p.objects.Keys == {};
      var objects := [];
      var left := p.objects.Keys;
      while left != {}
        invariant left <= p.objects.Keys
        invariant ToSet(objects) == ObjectTuples(p.org, p.objects, p.objects.Keys - left)
        invariant forall typ | typ in p.objects.Keys - left :: p.objects[typ] == [] || SnapshotKind(typ).Some?
        decreases |left|
      {
        var typ :| typ in left;
        var more := TypeTupleList(p.org, typ, p.objects[typ]);
        if more.None? {
          return None;
        }
        assert p.objects.Keys - (left - {typ}) == (p.objects.Keys - left) + {typ};
        OneMoreType(p.org, p.objects, p.objects.Keys - left, typ);
        ConcatSets(objects, more.value);
        left := left - {typ};
        objects := objects + more.value;
      }
      assert p.objects.Keys - {} == p.objects.Keys;
      ConcatSets(list, objects);
      return Some(list + objects);
    }

    method MappingTuples(org: string, changes: seq<TeamChange>) returns (gone: seq<Tuple>, put: seq<Tuple>)
      ensures ToSet(gone) == OldGrants(org, changes) && ToSet(put) == NewGrants(org, changes)
    {
      hide Grants;
      gone, put := [], [];
      for i := 0 to |changes|
        invariant ToSet(gone) == OldGrants(org, changes[..i]) && ToSet(put) == NewGrants(org, changes[..i])
      {
        var c := changes[i];
        assert changes[..i + 1] == changes[..i] + [c];
        OneMoreChange(org, changes[..i], c);
        var before := PermissionTuples(org, c.team, c.oldPermissions);
        var after := PermissionTuples(org, c.team, c.newPermissions);
        ConcatSets(gone, before);
        ConcatSets(put, after);
        gone, put := gone + before, put + after;
      }
      assert changes[..|changes|] == changes;
    }

    method RoleTuples(org: string, teams: seq<string>, permissions: seq<string>) returns (tuples: seq<Tuple>)
      ensures ToSet(tuples) == RoleGrants(org, teams, permissions)
    {
      tuples := [];
      for i := 0 to |teams|
        invariant ToSet(tuples) == RoleGrants(org, teams[..i], permissions)
      {
        assert teams[..i + 1] == teams[..i] + [teams[i]];
        assert RoleGrants(org, teams[..i + 1], permissions) == RoleGrants(org, teams[..i], permissions) + Grants(org, teams[i], permissions);
        var more := PermissionTuples(org, teams[i], permissions);
        tuples := tuples + more;
      }
      assert teams[..|teams|] == teams;
    }

    /** Deletes first, then writes; an error stops the event there. */
    method Replace(gone: seq<Tuple>, put: seq<Tuple>, a: Attempt) returns (ok: bool)
      modifies this
      ensures store == AfterAttempt(old(store), Replacing(ToSet(gone), ToSet(put)), a)
      ensures ok <==> Succeeds(Replacing(ToSet(gone), ToSet(put)), a)
    {
      EmptyList(gone);
      EmptyList(put);
      if |gone| > 0 {
        ok := DeleteTuples(gone, a.onDelete);
        if !ok {
          return false;
        }
      }
      if |put| > 0 {
        ok := WriteTuples(put, a.onWrite);
        return ok;
      }
      return true;
    }

    /** Passed on whether there is anything to write or not. */
    method WriteAnyway(put: seq<Tuple>, a: Attempt) returns (ok: bool)
      modifies this
      ensures store == AfterAttempt(old(store), Delta({}, ToSet(put), false, true), a)
      ensures ok <==> Succeeds(Delta({}, ToSet(put), false, true), a)
    {
      ok := WriteTuples(put, a.onWrite);
    }

    method DeleteAnyway(gone: seq<Tuple>, a: Attempt) returns (ok: bool)
      modifies this
      ensures store == AfterAttempt(old(store), Delta(ToSet(gone), {}, true, false), a)
      ensures ok <==> Succeeds(Delta(ToSet(gone), {}, true, false), a)
    {
      ok := DeleteTuples(gone, a.onDelete);
    }

    /** One delivery of one event. */
    method Handle(ev: Event, a: Attempt) returns (ok: bool)
      modifies this
      ensures DeltaOf(ev).None? ==> !ok && store == old(store)
      ensures DeltaOf(ev).Some? ==> store == AfterAttempt(old(store), DeltaOf(ev).value, a)
      ensures DeltaOf(ev).Some? ==> (ok <==> Succeeds(DeltaOf(ev).value, a))
    {
      hide AfterAttempt, Succeeds, Grants, SeedGrants, SnapshotTuples, OldGrants, NewGrants, RoleGrants, Flattens;
      var gone: seq<Tuple>, put: seq<Tuple> := [], [];
      EmptyList(gone);
      match ev {
        case TenantCreated(org, teams) => put := SeedTuples(org, teams);
        case TenantDeleting(p) =>
          var list := TuplesForTenantDeletion(p);
          if list.None? {
            return false;
          }
          gone := list.value;
        case TenantRestored(p) =>
          var list := TuplesForTenantDeletion(p);
          if list.None? {
            return false;
          }
          put := list.value;
        case TeamCreated(org, team, permissions) =>
          put := PermissionTuples(org, team, permissions);
          ok := WriteAnyway(put, a);
          return ok;
        case TeamDeleted(org, team, permissions) =>
          gone := PermissionTuples(org, team, permissions);
          ok := DeleteAnyway(gone, a);
          return ok;
        case MembershipAdded(m) =>
          put := [MemberTuple(m.user, m.team)];
          SingleList(put[0]);
        case MembershipRemoved(m) =>
          gone := [MemberTuple(m.user, m.team)];
          SingleList(gone[0]);
        case ChildAdded(parent, kind, id) =>
          if !(MayBeGlobal(kind) && parent == "") {
            put := [ParentTuple(ParentOf(kind, parent), kind, id)];
            SingleList(put[0]);
          }
        case ChildRemoved(parent, kind, id) =>
          if !NeverRemoved(kind) && !(MayBeGlobal(kind) && parent == "") {
            gone := [ParentTuple(ParentOf(kind, parent), kind, id)];
            SingleList(gone[0]);
          }
        case MappingsUpdated(org, changes) => gone, put := MappingTuples(org, changes);
        case RoleUpdated(org, teams, before, after) =>
          gone := RoleTuples(org, teams, before);
          put := RoleTuples(org, teams, after);
        case RoleDeleted(org, teams, before) => gone := RoleTuples(org, teams, before);
        case MalformedEvent => return false;
        case _ =>
      }
      ok := Replace(gone, put, a);
    }
  }

  // ----- Deliveries

  function AfterAttempts(store: set<Tuple>, d: Delta, attempts: seq<Attempt>): set<Tuple>
    decreases |attempts|
  {
    if attempts == [] then store else AfterAttempts(AfterAttempt(store, d, attempts[0]), d, attempts[1..])
  }

  predicate Between(store: set<Tuple>, d: Delta, now: set<Tuple>) {
    store - d.gone <= now <= store + d.put
  }

  /** An event may fail halfway any number of times and may be delivered again after it succeeded: as soon as
      an attempt succeeds, the store is as if it had been the only one; before that it is in between. */
  lemma {:induction false} RetriesConverge(store: set<Tuple>, d: Delta, now: set<Tuple>, attempts: seq<Attempt>)
    requires Calls(d) && Between(store, d, now)
    ensures Between(store, d, AfterAttempts(now, d, attempts))
    ensures attempts != [] && Succeeds(d, attempts[|attempts| - 1]) ==>
              AfterAttempts(now, d, attempts) == (store - d.gone) + d.put
    decreases |attempts|
  {
    if attempts != [] {
      var next := AfterAttempt(now, d, attempts[0]);
      assert Between(store, d, next);
      if Succeeds(d, attempts[0]) {
        assert next == (store - d.gone) + d.put;
      }
      RetriesConverge(store, d, next, attempts[1..]);
    }
  }

  /** An event cannot be understood exactly if it is malformed, or deletes or restores a tenant with an object
      of a type the server has no name for. */
  lemma UnderstoodExactly(ev: Event)
    ensures DeltaOf(ev).None? <==>
            ev.MalformedEvent?
            || ((ev.TenantDeleting? || ev.TenantRestored?)
                && exists typ | typ in ev.snapshot.objects :: ev.snapshot.objects[typ] != [] && SnapshotKind(typ).None?)
  {
  }

  lemma EventsCall(ev: Event)
    ensures DeltaOf(ev).Some? ==> Calls(DeltaOf(ev).value)
  {
  }

  /** How a server that refuses empty requests, and is otherwise in order, answers. */
  function RefusesEmpty(tuples: set<Tuple>): Call {
    if tuples == {} then Broken({}) else Done
  }

  /** On such a server every event that can be understood succeeds, except exactly the creation or deletion
      of a team none of whose permissions is in the catalog: that one fails however often it is retried. */
  lemma EmptyTeamsFailExactly(ev: Event)
    requires DeltaOf(ev).Some?
    ensures var d := DeltaOf(ev).value;
            !Succeeds(d, Attempt(RefusesEmpty(d.gone), RefusesEmpty(d.put))) <==>
              match ev
              case TeamCreated(_, _, permissions) => forall p | p in permissions :: !ValidPermission(p)
              case TeamDeleted(_, _, permissions) => forall p | p in permissions :: !ValidPermission(p)
              case _ => false
  {
    match ev
    case TeamCreated(org, team, permissions) => NoGrantsExactly(org, team, permissions);
    case TeamDeleted(org, team, permissions) => NoGrantsExactly(org, team, permissions);
    case _ =>
  }

  lemma NoGrantsExactly(org: string, team: string, permissions: seq<string>)
    ensures Grants(org, team, permissions) == {} <==> forall p | p in permissions :: !ValidPermission(p)
  {
    if p :| p in permissions && ValidPermission(p) {
      assert GrantTuple(org, team, PermissionRelation(p).value) in Grants(org, team, permissions);
    }
  }

  /** Restoring a tenant undoes its deletion exactly if the store held the whole snapshot. */
  lemma RestoreUndoesDeletion(store: set<Tuple>, p: TenantSnapshot)
    requires Flattens(p)
    ensures DeltaOf(TenantDeleting(p)).Some? && DeltaOf(TenantRestored(p)).Some?
    ensures var frozen := AfterAttempt(store, DeltaOf(TenantDeleting(p)).value, Attempt(Done, Done));
            var restored := AfterAttempt(frozen, DeltaOf(TenantRestored(p)).value, Attempt(Done, Done));
            frozen !! SnapshotTuples(p) && (restored == store <==> SnapshotTuples(p) <= store)
  {
  }
}
