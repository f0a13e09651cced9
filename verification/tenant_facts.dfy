/** What events say over time about who is in which team and what belongs to whom, and what follows for
    who may do what. */
module TenantFacts {
  import opened Wrappers
  import opened Text
  import opened Permissions
  import opened Tuples
  import opened TupleWriter
  import opened OrgDirectory

  // ----- What one event says

  predicate Joins(ev: Event, user: string, team: string) {
    match ev
    case MembershipAdded(m) => m == Membership(user, team)
    case TenantRestored(p) => Membership(user, team) in p.members
    case _ => false
  }

  predicate Leaves(ev: Event, user: string, team: string) {
    match ev
    case MembershipRemoved(m) => m == Membership(user, team)
    case TenantDeleting(p) => Membership(user, team) in p.members
    case _ => false
  }

  /** A child belongs to its organization, an instance to its cluster. */
  function HolderName(kind: ChildKind, parent: string): string {
    if kind == ResourceInstance then ObjectName(Cluster, parent) else "organization:" + TrimPrefix(parent, "org:")
  }

  predicate Listed(p: TenantSnapshot, holder: string, child: string) {
    exists typ | typ in p.objects ::
      SnapshotKind(typ).Some? && holder == HolderName(SnapshotKind(typ).value, p.org)
      && exists id | id in p.objects[typ] :: child == ObjectName(SnapshotKind(typ).value, id)
  }

  predicate Named(parent: string, kind: ChildKind, id: string, holder: string, child: string) {
    !(MayBeGlobal(kind) && parent == "") && holder == HolderName(kind, parent) && child == ObjectName(kind, id)
  }

  predicate Places(ev: Event, holder: string, child: string) {
    match ev
    case ChildAdded(parent, kind, id) => Named(parent, kind, id, holder, child)
    case TenantRestored(p) => Listed(p, holder, child)
    case _ => false
  }

  predicate Withdraws(ev: Event, holder: string, child: string) {
    match ev
    case ChildRemoved(parent, kind, id) => !NeverRemoved(kind) && Named(parent, kind, id, holder, child)
    case TenantDeleting(p) => Listed(p, holder, child)
    case _ => false
  }

  // ----- Tuples of different sorts

  lemma GrantsAreNeither(org: string, team: string, permissions: seq<string>)
    ensures forall t | t in Grants(org, team, permissions) :: CatalogRelation(t.relation)
  {
    GrantsAreInThePart(org, team, permissions);
    assert forall t | t in PermissionPart(org, Grants(org, team, permissions)) :: CatalogRelation(t.relation);
  }

  /** Membership and parenthood are not permissions. */
  lemma FixedRelations()
    ensures !CatalogRelation(MEMBER) && !CatalogRelation(PARENT) && MEMBER != PARENT
  {
    forall i | 0 <= i < |CATALOG| ensures |PermissionRelation(CATALOG[i].slug).value| >= 10 {
      SlugsAreCurrent(i);
    }
  }

  lemma AnyGrants(ev: Event)
    requires DeltaOf(ev).Some? && !ev.MembershipAdded? && !ev.MembershipRemoved? && !ev.ChildAdded? && !ev.ChildRemoved?
    requires !ev.TenantDeleting? && !ev.TenantRestored?
    ensures forall t | t in DeltaOf(ev).value.gone + DeltaOf(ev).value.put :: CatalogRelation(t.relation)
  {
    forall org, team, permissions ensures forall t | t in Grants(org, team, permissions) :: CatalogRelation(t.relation) {
      GrantsAreNeither(org, team, permissions);
    }
    hide Grants, CatalogRelation;
  }

  lemma MemberTupleIsOwn(a: Membership, b: Membership)
    ensures MemberTuple(a.user, a.team) == MemberTuple(b.user, b.team) <==> a == b
  {
    if MemberTuple(a.user, a.team) == MemberTuple(b.user, b.team) {
      CancelPrefix("user:", a.user, b.user);
      CancelPrefix("team:", a.team, b.team);
    }
  }

  lemma SnapshotMembers(p: TenantSnapshot, user: string, team: string)
    ensures MemberTuple(user, team) in SnapshotTuples(p) <==> Membership(user, team) in p.members
  {
    var t := MemberTuple(user, team);
    FixedRelations();
    SeedsAreGrants(p);
    assert t !in ObjectTuples(p.org, p.objects, p.objects.Keys);
    if t in MemberTuples(p.members) {
      var m :| m in p.members && t == MemberTuple(m.user, m.team);
      MemberTupleIsOwn(m, Membership(user, team));
    }
    if Membership(user, team) in p.members {
      assert t in MemberTuples(p.members);
    }
  }

  lemma SnapshotChildren(p: TenantSnapshot, holder: string, child: string)
    ensures Tuple(holder, PARENT, child) in SnapshotTuples(p) <==> Listed(p, holder, child)
  {
    hide SnapshotKind, ObjectName, SeedGrants, CatalogRelation, OrgObject, TrimPrefix;
    var t := Tuple(holder, PARENT, child);
    FixedRelations();
    SeedsAreGrants(p);
    assert t !in MemberTuples(p.members);
    SnapshotObjects(p, holder, child);
  }

  lemma SeedsAreGrants(p: TenantSnapshot)
    ensures forall t | t in SeedGrants(p.org, p.teams) :: CatalogRelation(t.relation)
  {
    forall i | 0 <= i < |p.teams|
      ensures forall t | t in Grants(p.org, p.teams[i].team, p.teams[i].permissions) :: CatalogRelation(t.relation)
    {
      GrantsAreNeither(p.org, p.teams[i].team, p.teams[i].permissions);
    }
    hide Grants, CatalogRelation;
  }

  lemma SnapshotObjects(p: TenantSnapshot, holder: string, child: string)
    ensures Tuple(holder, PARENT, child) in ObjectTuples(p.org, p.objects, p.objects.Keys) <==> Listed(p, holder, child)
  {
    hide SnapshotKind, ObjectName;
    var t := Tuple(holder, PARENT, child);
    if t in ObjectTuples(p.org, p.objects, p.objects.Keys) {
      var typ :| typ in p.objects && t in TypeTuples(p.org, typ, p.objects[typ]);
      var id :| id in p.objects[typ] && t == ParentTuple(OrgObject(p.org), SnapshotKind(typ).value, id);
      SnapshotKindsBelongToOrgs(typ);
    }
    if Listed(p, holder, child) {
      var typ :| typ in p.objects && SnapshotKind(typ).Some? && holder == HolderName(SnapshotKind(typ).value, p.org)
                 && exists id | id in p.objects[typ] :: child == ObjectName(SnapshotKind(typ).value, id);
      var id :| id in p.objects[typ] && child == ObjectName(SnapshotKind(typ).value, id);
      SnapshotKindsBelongToOrgs(typ);
      assert t == ParentTuple(OrgObject(p.org), SnapshotKind(typ).value, id);
      assert t in TypeTuples(p.org, typ, p.objects[typ]);
    }
  }

  /** The types a snapshot may list are those named like a kind that has events of both sorts, and two more. */
  lemma SnapshotKindsBelongToOrgs(typ: string)
    ensures SnapshotKind(typ).Some? ==> !SnapshotKind(typ).value.ResourceInstance? && TypeName(SnapshotKind(typ).value) == typ
    ensures SnapshotKind(typ).None? <==> forall kind: ChildKind :: TypeName(kind) == typ ==> kind.CatalogItem? || kind.ResourceInstance?
  {
    if SnapshotKind(typ).Some? {
      assert TypeName(SnapshotKind(typ).value) == typ;
    }
  }

  // ----- What an event asks of the store

  /** Of the member tuples, an event puts those of who joins and takes those of who leaves. */
  lemma EventMembers(ev: Event, user: string, team: string)
    requires DeltaOf(ev).Some?
    ensures MemberTuple(user, team) in DeltaOf(ev).value.put <==> Joins(ev, user, team)
    ensures MemberTuple(user, team) in DeltaOf(ev).value.gone <==> Leaves(ev, user, team)
  {
    FixedRelations();
    match ev
    case MembershipAdded(m) => MemberTupleIsOwn(m, Membership(user, team));
    case MembershipRemoved(m) => MemberTupleIsOwn(m, Membership(user, team));
    case TenantDeleting(p) => SnapshotMembers(p, user, team);
    case TenantRestored(p) => SnapshotMembers(p, user, team);
    case ChildAdded(_, _, _) =>
    case ChildRemoved(_, _, _) =>
    case _ =>
      AnyGrants(ev);
      hide CatalogRelation;
  }

  /** Of the parent tuples likewise: the holder is the user of the tuple, the child its object. */
  lemma EventChildren(ev: Event, holder: string, child: string)
    requires DeltaOf(ev).Some?
    ensures Tuple(holder, PARENT, child) in DeltaOf(ev).value.put <==> Places(ev, holder, child)
    ensures Tuple(holder, PARENT, child) in DeltaOf(ev).value.gone <==> Withdraws(ev, holder, child)
  {
    FixedRelations();
    hide ObjectName;
    match ev
    case TenantDeleting(p) => SnapshotChildren(p, holder, child);
    case TenantRestored(p) => SnapshotChildren(p, holder, child);
    case MembershipAdded(_) =>
    case MembershipRemoved(_) =>
    case ChildAdded(_, _, _) =>
    case ChildRemoved(_, _, _) =>
    case _ =>
      AnyGrants(ev);
      hide CatalogRelation;
  }

  // ----- Runs of events

  /** Each event is understood and attempted until an attempt succeeds, and perhaps again. */
  predicate AllDelivered(events: seq<Event>, attempts: seq<seq<Attempt>>) {
    |attempts| == |events| && forall i | 0 <= i < |events| :: GotThrough(events[i], attempts[i])
  }

  predicate GotThrough(ev: Event, attempts: seq<Attempt>) {
    DeltaOf(ev).Some? && attempts != [] && Succeeds(DeltaOf(ev).value, attempts[|attempts| - 1])
  }

  function StoreOver(store: set<Tuple>, events: seq<Event>, attempts: seq<seq<Attempt>>): set<Tuple>
    requires AllDelivered(events, attempts)
  {
    if events == [] then store
    else
      var n := |events| - 1;
      AfterAttempts(StoreOver(store, events[..n], attempts[..n]), DeltaOf(events[n]).value, attempts[n])
  }

  /** Whether the last event about it put the user into the team; `was` is how things were before. */
  predicate InTeam(was: bool, events: seq<Event>, user: string, team: string) {
    if events == [] then was
    else
      var last := events[|events| - 1];
      Joins(last, user, team) || (!Leaves(last, user, team) && InTeam(was, events[..|events| - 1], user, team))
  }

  predicate Belongs(was: bool, events: seq<Event>, holder: string, child: string) {
    if events == [] then was
    else
      var last := events[|events| - 1];
      Places(last, holder, child) || (!Withdraws(last, holder, child) && Belongs(was, events[..|events| - 1], holder, child))
  }

  lemma EventTakesEffect(store: set<Tuple>, ev: Event, attempts: seq<Attempt>)
    requires GotThrough(ev, attempts)
    ensures AfterAttempts(store, DeltaOf(ev).value, attempts) == (store - DeltaOf(ev).value.gone) + DeltaOf(ev).value.put
  {
    hide DeltaOf, Succeeds;
    EventsCall(ev);
    RetriesConverge(store, DeltaOf(ev).value, store, attempts);
  }

  /** Over any run of events of all sorts, with failures, retries and immediate repeats: the store says that a
      user is a member of a team if and only if the user is in the team by then. */
  lemma {:induction false} MembersAreShown(store: set<Tuple>, events: seq<Event>, attempts: seq<seq<Attempt>>, user: string, team: string)
    requires AllDelivered(events, attempts)
    ensures MemberTuple(user, team) in StoreOver(store, events, attempts)
            <==> InTeam(MemberTuple(user, team) in store, events, user, team)
  {
    hide DeltaOf, MemberTuple, Joins, Leaves, GotThrough;
    if events != [] {
      var n := |events| - 1;
      MembersAreShown(store, events[..n], attempts[..n], user, team);
      LastGotThrough(events, attempts);
      EventTakesEffect(StoreOver(store, events[..n], attempts[..n]), events[n], attempts[n]);
      EventMembers(events[n], user, team);
    }
  }

  lemma LastGotThrough(events: seq<Event>, attempts: seq<seq<Attempt>>)
    requires events != [] && AllDelivered(events, attempts)
    ensures GotThrough(events[|events| - 1], attempts[|events| - 1]) && DeltaOf(events[|events| - 1]).Some?
  {
  }

  /** And that an object is a child of another if and only if it belongs to it by then. */
  lemma {:induction false} ChildrenAreShown(store: set<Tuple>, events: seq<Event>, attempts: seq<seq<Attempt>>, holder: string, child: string)
    requires AllDelivered(events, attempts)
    ensures Tuple(holder, PARENT, child) in StoreOver(store, events, attempts)
            <==> Belongs(Tuple(holder, PARENT, child) in store, events, holder, child)
  {
    hide DeltaOf, Places, Withdraws, GotThrough;
    if events != [] {
      var n := |events| - 1;
      ChildrenAreShown(store, events[..n], attempts[..n], holder, child);
      LastGotThrough(events, attempts);
      EventTakesEffect(StoreOver(store, events[..n], attempts[..n]), events[n], attempts[n]);
      EventChildren(events[n], holder, child);
    }
  }

  // ----- Names

  /** The names of fleet objects spelled out: stored ids carry the marker of their kind. */
  lemma FleetNamesSpelledOut(id: string)
    ensures ObjectName(Cluster, "cluster:" + id) == "cluster:" + id
    ensures ObjectName(CloudAccount, "cloudaccount:" + id) == "cloud_account:" + id
    ensures ObjectName(ClusterSet, "clusterset:" + id) == "cluster_set:" + id
    ensures ObjectName(Rollout, "rollout:" + id) == "rollout:" + id
    ensures ObjectName(DriftEvent, "drift:" + id) == "drift_event:" + id
  {
    hide ObjectName;
    Unmarked(Cluster, id);
    Unmarked(CloudAccount, id);
    Unmarked(ClusterSet, id);
    Unmarked(Rollout, id);
    Unmarked(DriftEvent, id);
  }

  lemma TenantNamesSpelledOut(id: string)
    ensures ObjectName(PolicyPack, "policypack:" + id) == "policy_pack:" + id
    ensures ObjectName(Extension, "extension:" + id) == "extension:" + id
    ensures ObjectName(TenantZone, "zone:" + id) == "tenant_zone:" + id
    ensures OrgObject("org:" + id) == "organization:" + id
  {
    hide ObjectName;
    Unmarked(PolicyPack, id);
    Unmarked(Extension, id);
    Unmarked(TenantZone, id);
    assert TrimPrefix("org:" + id, "org:") == id;
  }

  lemma OtherNamesSpelledOut(id: string)
    ensures ObjectName(ResourceInstance, id) == "resource_instance:" + id
    ensures ':' !in id ==> ObjectName(CatalogItem, id) == "catalog_item:" + id
  {
    if ':' !in id {
      assert ObjectId(CatalogItem, id) == id;
    }
  }

  lemma Unmarked(kind: ChildKind, id: string)
    requires Marker(kind) != ""
    ensures ObjectName(kind, Marker(kind) + id) == TypeName(kind) + ":" + id
  {
    MarkedIdIsStripped(kind, Marker(kind) + id);
    StripsOne(Marker(kind), Marker(kind) + id, id);
  }

  lemma TypeNamesDiffer(a: ChildKind, b: ChildKind)
    ensures ':' !in TypeName(a) && (TypeName(a) == TypeName(b) ==> a == b)
  {
  }

  /** Objects of different kinds never have one name. */
  lemma KindsNeverCollide(a: ChildKind, x: string, b: ChildKind, y: string)
    requires ObjectName(a, x) == ObjectName(b, y)
    ensures a == b
  {
    TypeNamesDiffer(a, b);
    TypeNamesDiffer(b, a);
    hide TypeName, ObjectId;
    assert ":" == [':'];
    SplitAt(':', TypeName(a), ObjectId(a, x), TypeName(b), ObjectId(b, y));
  }

  // ----- Single events spelled out

  /** Joining a team writes the tuple that makes the user a member of it, and leaving takes it away. */
  lemma MembershipEffect(store: set<Tuple>, user: string, team: string)
    ensures var m, once := Membership(user, team), Attempt(Done, Done);
            var t := Tuple("user:" + user, "member", "team:" + team);
            && DeltaOf(MembershipAdded(m)).Some? && DeltaOf(MembershipRemoved(m)).Some?
            && AfterAttempt(store, DeltaOf(MembershipAdded(m)).value, once) == store + {t}
            && AfterAttempt(store, DeltaOf(MembershipRemoved(m)).value, once) == store - {t}
  {
  }

  /** A cluster's organization is its parent, while it is registered, and an instance's cluster the instance's. */
  lemma ParentEffect(store: set<Tuple>, org: string, cluster: string, instance: string)
    ensures var once := Attempt(Done, Done);
            var child, instanceOf := Tuple("organization:" + org, "parent", "cluster:" + cluster),
                                     Tuple("cluster:" + cluster, "parent", "resource_instance:" + instance);
            var added, removed := DeltaOf(ChildAdded("org:" + org, Cluster, "cluster:" + cluster)), DeltaOf(ChildRemoved("org:" + org, Cluster, "cluster:" + cluster));
            var made := DeltaOf(ChildAdded("cluster:" + cluster, ResourceInstance, instance));
            && added.Some? && removed.Some? && made.Some?
            && AfterAttempt(store, added.value, once) == store + {child} && AfterAttempt(store, removed.value, once) == store - {child}
            && AfterAttempt(store, made.value, once) == store + {instanceOf}
  {
    FleetNamesSpelledOut(cluster);
    TenantNamesSpelledOut(org);
    OtherNamesSpelledOut(instance);
    hide ObjectName;
  }

  // ----- Who may do what

  /** A user has a relation to an organization through a team: the user is a member of the team, and the
      relation is given to the team's members. */
  ghost predicate Allowed(store: set<Tuple>, user: string, relation: string, org: string) {
    exists team: string ::
      Tuple("user:" + user, "member", "team:" + team) in store
      && Tuple("team:" + team + "#member", relation, OrgObject(org)) in store
  }

  /** A change of teams, roles or mappings, or of who is in a team. */
  datatype Happening = Changed(change: Change) | Joined(user: string, team: string) | Left(user: string, team: string)

  function EventFor(org: string, d: Directory, h: Happening): Event {
    match h
    case Changed(c) => EventOf(org, d, c)
    case Joined(user, team) => MembershipAdded(Membership(user, team))
    case Left(user, team) => MembershipRemoved(Membership(user, team))
  }

  datatype Organization = Organization(directory: Directory, members: set<(string, string)>)

  function Next(o: Organization, h: Happening): Organization {
    match h
    case Changed(c) => o.(directory := After(o.directory, c))
    case Joined(user, team) => o.(members := o.members + {(user, team)})
    case Left(user, team) => o.(members := o.members - {(user, team)})
  }

  predicate Allows(o: Organization, h: Happening) {
    h.Changed? ==> Legal(o.directory, h.change)
  }

  /** The permission tuples are the directory's, and the member tuples those of who is in which team. */
  ghost predicate Mirrors(org: string, o: Organization, store: set<Tuple>) {
    && WellFormed(o.directory) && Follows(org, o.directory, store)
    && forall user, team :: MemberTuple(user, team) in store <==> (user, team) in o.members
  }

  lemma MembershipKeepsFollowing(org: string, d: Directory, store: set<Tuple>, after: set<Tuple>, user: string, team: string)
    requires Follows(org, d, store) && (after == store + {MemberTuple(user, team)} || after == store - {MemberTuple(user, team)})
    ensures Follows(org, d, after)
  {
    FixedRelations();
    hide CatalogRelation;
    assert PermissionPart(org, after) == PermissionPart(org, store);
  }

  lemma ChangeKeepsMembers(org: string, d: Directory, c: Change, store: set<Tuple>, attempts: seq<Attempt>)
    requires GotThrough(EventOf(org, d, c), attempts)
    ensures var after := AfterAttempts(store, DeltaOf(EventOf(org, d, c)).value, attempts);
            forall user, team :: MemberTuple(user, team) in after <==> MemberTuple(user, team) in store
  {
    hide DeltaOf, MemberTuple, EventOf, GotThrough, AfterAttempts;
    var ev := EventOf(org, d, c);
    LastSucceeded(ev, attempts);
    EventTakesEffect(store, ev, attempts);
    forall user, team
      ensures MemberTuple(user, team) !in DeltaOf(ev).value.put && MemberTuple(user, team) !in DeltaOf(ev).value.gone
    {
      NobodyMoves(org, d, c, user, team);
    }
  }

  lemma LastSucceeded(ev: Event, attempts: seq<Attempt>)
    requires GotThrough(ev, attempts)
    ensures DeltaOf(ev).Some?
  {
    hide DeltaOf, Succeeds;
  }

  lemma NobodyMoves(org: string, d: Directory, c: Change, user: string, team: string)
    requires DeltaOf(EventOf(org, d, c)).Some?
    ensures var delta := DeltaOf(EventOf(org, d, c)).value;
            MemberTuple(user, team) !in delta.put && MemberTuple(user, team) !in delta.gone
  {
    hide DeltaOf, MemberTuple;
    EventMembers(EventOf(org, d, c), user, team);
  }

  lemma OneHappening(org: string, o: Organization, h: Happening, store: set<Tuple>, attempts: seq<Attempt>)
    requires Mirrors(org, o, store) && Allows(o, h) && GotThrough(EventFor(org, o.directory, h), attempts)
    ensures Mirrors(org, Next(o, h), AfterAttempts(store, DeltaOf(EventFor(org, o.directory, h)).value, attempts))
  {
    var ev := EventFor(org, o.directory, h);
    var after := AfterAttempts(store, DeltaOf(ev).value, attempts);
    if h.Changed? {
      OneEventKeepsUp(org, o.directory, h.change, store, attempts);
      ChangeKeepsMembers(org, o.directory, h.change, store, attempts);
      hide DeltaOf, AfterAttempts, Follows, MemberTuple, EventOf;
    } else {
      EventTakesEffect(store, ev, attempts);
      MembershipKeepsFollowing(org, o.directory, store, after, h.user, h.team);
      forall user, team ensures MemberTuple(user, team) in after <==> (user, team) in Next(o, h).members {
        MemberTupleIsOwn(Membership(user, team), Membership(h.user, h.team));
      }
      hide Follows, AfterAttempts, MemberTuple;
    }
  }

  predicate Happens(org: string, o: Organization, hs: seq<Happening>, attempts: seq<seq<Attempt>>)
    decreases |hs|
  {
    |attempts| == |hs| &&
    (hs == [] ||
     (Allows(o, hs[0]) && GotThrough(EventFor(org, o.directory, hs[0]), attempts[0])
      && Happens(org, Next(o, hs[0]), hs[1..], attempts[1..])))
  }

  function NextAll(o: Organization, hs: seq<Happening>): Organization
    decreases |hs|
  {
    if hs == [] then o else NextAll(Next(o, hs[0]), hs[1..])
  }

  function StoreThen(org: string, o: Organization, store: set<Tuple>, hs: seq<Happening>, attempts: seq<seq<Attempt>>): set<Tuple>
    requires Happens(org, o, hs, attempts)
    decreases |hs|
  {
    if hs == [] then store
    else
      StoreThen(org, Next(o, hs[0]), AfterAttempts(store, DeltaOf(EventFor(org, o.directory, hs[0])).value, attempts[0]),
                hs[1..], attempts[1..])
  }

  lemma {:induction false} MirrorsThroughout(org: string, o: Organization, store: set<Tuple>, hs: seq<Happening>, attempts: seq<seq<Attempt>>)
    requires Mirrors(org, o, store) && Happens(org, o, hs, attempts)
    ensures Mirrors(org, NextAll(o, hs), StoreThen(org, o, store, hs, attempts))
    decreases |hs|
  {
    hide Mirrors, Next, EventFor, Allows, DeltaOf, Succeeds;
    if hs != [] {
      OneHappening(org, o, hs[0], store, attempts[0]);
      MirrorsThroughout(org, Next(o, hs[0]), AfterAttempts(store, DeltaOf(EventFor(org, o.directory, hs[0])).value, attempts[0]),
                        hs[1..], attempts[1..]);
    }
  }

  /** A team's members have a permission exactly if the team exists and its role has it. */
  lemma TeamHasExactly(org: string, d: Directory, store: set<Tuple>, team: string, permission: string)
    requires Follows(org, d, store) && ValidPermission(permission)
    ensures GrantTuple(org, team, PermissionRelation(permission).value) in store
            <==> team in d.teams && permission in PermissionsOf(d, team)
  {
    var relation := PermissionRelation(permission).value;
    var t := GrantTuple(org, team, relation);
    var i :| 0 <= i < |CATALOG| && CATALOG[i].slug == permission;
    assert PermissionRelation(CATALOG[i].slug) == Some(relation);
    assert t in store <==> t in PermissionPart(org, store);
    if t in Derived(org, d) {
      var other :| other in d.teams && t in Grants(org, other, PermissionsOf(d, other));
      var p :| p in PermissionsOf(d, other) && ValidPermission(p) && t == GrantTuple(org, other, PermissionRelation(p).value);
      TeamMembersInjective(team, other);
      RelationsAreInjective(permission, p);
    }
    if team in d.teams && permission in PermissionsOf(d, team) {
      assert t in Grants(org, team, PermissionsOf(d, team));
    }
  }

  lemma MirroredMeansAllowed(org: string, o: Organization, store: set<Tuple>, user: string, permission: string)
    requires Mirrors(org, o, store) && ValidPermission(permission)
    ensures Allowed(store, user, PermissionRelation(permission).value, org)
            <==> exists team | team in o.directory.teams :: (user, team) in o.members && permission in PermissionsOf(o.directory, team)
  {
    var relation := PermissionRelation(permission).value;
    forall team: string
      ensures Tuple("user:" + user, "member", "team:" + team) in store <==> (user, team) in o.members
      ensures Tuple("team:" + team + "#member", relation, OrgObject(org)) in store
              <==> team in o.directory.teams && permission in PermissionsOf(o.directory, team)
    {
      assert MemberTuple(user, team) == Tuple("user:" + user, "member", "team:" + team);
      TeamHasExactly(org, o.directory, store, team, permission);
      assert GrantTuple(org, team, relation) == Tuple("team:" + team + "#member", relation, OrgObject(org));
    }
    hide PermissionsOf, ValidPermission, Mirrors;
  }

  /** End to end: after any run of team, role, mapping and membership changes, each event of it failing,
      retried and repeated in any way, the store gives a user a permission on the organization if and only if
      the user is then in a team whose role then has the permission. */
  lemma AllowedExactly(org: string, o: Organization, store: set<Tuple>, hs: seq<Happening>, attempts: seq<seq<Attempt>>,
                       user: string, permission: string)
    requires Mirrors(org, o, store) && Happens(org, o, hs, attempts) && ValidPermission(permission)
    ensures var now, d := NextAll(o, hs), NextAll(o, hs).directory;
            Allowed(StoreThen(org, o, store, hs, attempts), user, PermissionRelation(permission).value, org)
            <==> exists team | team in d.teams :: (user, team) in now.members && permission in PermissionsOf(d, team)
  {
    MirrorsThroughout(org, o, store, hs, attempts);
    MirroredMeansAllowed(org, NextAll(o, hs), StoreThen(org, o, store, hs, attempts), user, permission);
  }
}
