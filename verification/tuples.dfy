/** Relationship tuples and the names of the objects in them. */
module Tuples {
  import opened Wrappers
  import opened Text
  import opened Permissions

  datatype Tuple = Tuple(user: string, relation: string, target: string)

  const MEMBER := "member"
  const PARENT := "parent"

  datatype ChildKind =
    | Cluster | CloudAccount | ClusterSet | PolicyPack | Extension | Rollout | DriftEvent | TenantZone
    | CatalogItem | ResourceInstance

  /** The type name of an object, and the marker its stored ids may start with. */
  function TypeName(kind: ChildKind): string {
    match kind
    case Cluster => "cluster"
    case CloudAccount => "cloud_account"
    case ClusterSet => "cluster_set"
    case PolicyPack => "policy_pack"
    case Extension => "extension"
    case Rollout => "rollout"
    case DriftEvent => "drift_event"
    case TenantZone => "tenant_zone"
    case CatalogItem => "catalog_item"
    case ResourceInstance => "resource_instance"
  }

  function Marker(kind: ChildKind): string {
    match kind
    case Cluster => "cluster:"
    case CloudAccount => "cloudaccount:"
    case ClusterSet => "clusterset:"
    case PolicyPack => "policypack:"
    case Extension => "extension:"
    case Rollout => "rollout:"
    case DriftEvent => "drift:"
    case TenantZone => "zone:"
    case _ => ""
  }

  function ObjectId(kind: ChildKind, id: string): string {
    match kind
    case CatalogItem => ReplaceChar(id, ':', '/')
    case ResourceInstance => id
    case _ => TrimPrefix(id, Marker(kind))
  }

  function ObjectName(kind: ChildKind, id: string): string {
    TypeName(kind) + ":" + ObjectId(kind, id)
  }

  function OrgObject(org: string): string {
    "organization:" + TrimPrefix(org, "org:")
  }

  function TeamObject(team: string): string {
    "team:" + team
  }

  function UserObject(subject: string): string {
    "user:" + subject
  }

  function TeamMembers(team: string): string {
    TeamObject(team) + "#" + MEMBER
  }

  lemma TeamMembersInjective(a: string, b: string)
    requires TeamMembers(a) == TeamMembers(b)
    ensures a == b
  {
    assert TeamMembers(a) == "team:" + (a + "#" + MEMBER) && TeamMembers(b) == "team:" + (b + "#" + MEMBER);
    CancelPrefix("team:", a + "#" + MEMBER, b + "#" + MEMBER);
    var n := |a + "#" + MEMBER| - |"#" + MEMBER|;
    assert a == (a + "#" + MEMBER)[..n] == (b + "#" + MEMBER)[..n] == b;
  }

  /** Stripping a marker takes two ids to one exactly if they are equal or differ by one marker. */
  lemma StrippedCollideExactly(m: string, a: string, b: string)
    requires m != ""
    ensures TrimPrefix(a, m) == TrimPrefix(b, m) <==>
            a == b || (a == m + b && !HasPrefix(b, m)) || (b == m + a && !HasPrefix(a, m))
  {
    StripsOne(m, a, b);
    StripsOne(m, b, a);
  }

  lemma StripsOne(m: string, a: string, b: string)
    requires m != ""
    ensures HasPrefix(a, m) ==> a == m + TrimPrefix(a, m)
    ensures a == m + b ==> TrimPrefix(a, m) == b
  {
  }

  /** Two stored ids name the same object exactly if they are equal or differ by one type marker. */
  lemma MarkedIdsCollideExactly(kind: ChildKind, a: string, b: string)
    requires Marker(kind) != ""
    ensures ObjectName(kind, a) == ObjectName(kind, b) <==>
            a == b || (a == Marker(kind) + b && !HasPrefix(b, Marker(kind))) || (b == Marker(kind) + a && !HasPrefix(a, Marker(kind)))
  {
    MarkedIdIsStripped(kind, a);
    MarkedIdIsStripped(kind, b);
    hide Marker, TypeName, ObjectId, TrimPrefix, HasPrefix;
    if ObjectName(kind, a) == ObjectName(kind, b) {
      CancelPrefix(TypeName(kind) + ":", ObjectId(kind, a), ObjectId(kind, b));
    }
    StrippedCollideExactly(Marker(kind), a, b);
  }

  lemma MarkedIdIsStripped(kind: ChildKind, id: string)
    requires Marker(kind) != ""
    ensures ObjectId(kind, id) == TrimPrefix(id, Marker(kind))
  {
    hide TrimPrefix;
  }

  predicate Separator(c: char) {
    c == ':' || c == '/'
  }

  predicate SameUpToSeparators(a: string, b: string) {
    |a| == |b| && forall i | 0 <= i < |a| :: a[i] == b[i] || (Separator(a[i]) && Separator(b[i]))
  }

  /** Catalog item names are free of colons but not collision-free: they are equal exactly if the ids agree
      up to colons standing where the other has slashes. */
  lemma CatalogItemsCollideExactly(a: string, b: string)
    ensures ObjectName(CatalogItem, a) == ObjectName(CatalogItem, b) <==> SameUpToSeparators(a, b)
    ensures ':' !in ObjectId(CatalogItem, a)
  {
    var x, y := ObjectId(CatalogItem, a), ObjectId(CatalogItem, b);
    if ObjectName(CatalogItem, a) == ObjectName(CatalogItem, b) {
      CancelPrefix(TypeName(CatalogItem) + ":", x, y);
      assert forall i | 0 <= i < |a| :: x[i] == y[i];
    }
    if SameUpToSeparators(a, b) {
      assert x == y;
    }
  }

  function ParentTuple(parent: string, kind: ChildKind, id: string): Tuple {
    Tuple(parent, PARENT, ObjectName(kind, id))
  }

  function MemberTuple(user: string, team: string): Tuple {
    Tuple(UserObject(user), MEMBER, TeamObject(team))
  }

  // ----- Permission tuples

  function GrantTuple(org: string, team: string, relation: string): Tuple {
    Tuple(TeamMembers(team), relation, OrgObject(org))
  }

  /** One tuple per catalog permission of the list; slugs outside the catalog are skipped. */
  function Grants(org: string, team: string, permissions: seq<string>): set<Tuple> {
    set p | p in permissions && ValidPermission(p) :: GrantTuple(org, team, PermissionRelation(p).value)
  }

  function ToSet<T(==)>(s: seq<T>): set<T> {
    set x | x in s
  }

  lemma SingleList(t: Tuple)
    ensures ToSet([t]) == {t}
  {
  }

  lemma EmptyList(tuples: seq<Tuple>)
    ensures ToSet(tuples) == {} <==> tuples == []
  {
    if tuples != [] {
      assert tuples[0] in ToSet(tuples);
    }
  }

  method PermissionTuples(org: string, team: string, permissions: seq<string>) returns (tuples: seq<Tuple>)
    ensures ToSet(tuples) == Grants(org, team, permissions)
    ensures |tuples| <= |permissions|
  {
    tuples := [];
    for i := 0 to |permissions|
      invariant ToSet(tuples) == Grants(org, team, permissions[..i]) && |tuples| <= i
    {
      assert permissions[..i + 1] == permissions[..i] + [permissions[i]];
      var relation := PermissionRelation(permissions[i]);
      if relation.None? {
        assert Grants(org, team, permissions[..i + 1]) == Grants(org, team, permissions[..i]);
        continue;
      }
      assert Grants(org, team, permissions[..i + 1]) == Grants(org, team, permissions[..i]) + {GrantTuple(org, team, relation.value)};
      tuples := tuples + [GrantTuple(org, team, relation.value)];
    }
    assert permissions[..|permissions|] == permissions;
  }
}
