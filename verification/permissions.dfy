/** The permission catalog: slugs, the store relations they stand for, and the Kubernetes tier of a role. */
module Permissions {
  import opened Wrappers

  datatype Tier = NoTier | Viewer | Editor | Operator | Admin

  datatype Permission = Permission(slug: string, tier: Tier)

  const CATALOG := [
    Permission("tenant.read", Viewer), Permission("tenant.settings.write", NoTier),
    Permission("tenant.members.manage", NoTier), Permission("tenant.teams.manage", NoTier),
    Permission("tenant.rbac.manage", NoTier), Permission("tenant.identity.manage", NoTier),
    Permission("tenant.notifications.manage", NoTier), Permission("tenant.admin", Admin),
    Permission("clusters.register", Operator), Permission("clusters.kubectl", NoTier),
    Permission("cloudaccounts.manage", Operator), Permission("zones.manage", Operator),
    Permission("fleet.manage", Operator), Permission("policies.manage", Operator),
    Permission("secretstores.manage", Operator), Permission("extensions.manage", Operator),
    Permission("extensions.invoke", NoTier), Permission("catalog.manage", Editor),
    Permission("deployments.create", Editor), Permission("approvals.manage", NoTier)]

  predicate ValidPermission(slug: string) {
    exists i | 0 <= i < |CATALOG| :: CATALOG[i].slug == slug
  }

  /** strings.ReplaceAll(s, from, to) for single characters. */
  function ReplaceChar(s: string, from: char, to: char): (r: string)
    ensures |r| == |s|
    ensures forall i | 0 <= i < |s| :: r[i] == if s[i] == from then to else s[i]
  {
    seq(|s|, i requires 0 <= i < |s| => if s[i] == from then to else s[i])
  }

  /** The relation a slug stands for; None for slugs outside the catalog. */
  function PermissionRelation(slug: string): Option<string> {
    if ValidPermission(slug) then Some(ReplaceChar(slug, '.', '_')) else None
  }

  predicate Dotted(slug: string) {
    '_' !in slug
  }

  lemma TenantSlugsAreDotted()
    ensures Dotted("tenant.read")
    ensures Dotted("tenant.settings.write")
    ensures Dotted("tenant.members.manage")
    ensures Dotted("tenant.teams.manage")
    ensures Dotted("tenant.rbac.manage")
    ensures Dotted("tenant.identity.manage")
    ensures Dotted("tenant.notifications.manage")
  {
  }

  lemma OperationSlugsAreDotted()
    ensures Dotted("tenant.admin")
    ensures Dotted("clusters.register")
    ensures Dotted("clusters.kubectl")
    ensures Dotted("cloudaccounts.manage")
    ensures Dotted("zones.manage")
    ensures Dotted("fleet.manage")
    ensures Dotted("policies.manage")
  {
  }

  lemma WorkloadSlugsAreDotted()
    ensures Dotted("secretstores.manage")
    ensures Dotted("extensions.manage")
    ensures Dotted("extensions.invoke")
    ensures Dotted("catalog.manage")
    ensures Dotted("deployments.create")
    ensures Dotted("approvals.manage")
  {
  }

  lemma SlugsHaveNoUnderscore(i: nat)
    requires i < |CATALOG|
    ensures Dotted(CATALOG[i].slug)
  {
    hide Dotted;
    TenantSlugsAreDotted();
    OperationSlugsAreDotted();
    WorkloadSlugsAreDotted();
  }

  /** No slug is as short as the retired relations, and none of the length of the long one starts like it. */
  predicate Current(slug: string) {
    |slug| >= 10 && (|slug| == 17 ==> slug[0] != 'p')
  }

  lemma TenantSlugsAreCurrent()
    ensures Current("tenant.read")
    ensures Current("tenant.settings.write")
    ensures Current("tenant.members.manage")
    ensures Current("tenant.teams.manage")
    ensures Current("tenant.rbac.manage")
    ensures Current("tenant.identity.manage")
    ensures Current("tenant.notifications.manage")
    ensures Current("tenant.admin")
    ensures Current("clusters.register")
    ensures Current("clusters.kubectl")
  {
  }

  lemma OtherSlugsAreCurrent()
    ensures Current("cloudaccounts.manage")
    ensures Current("zones.manage")
    ensures Current("fleet.manage")
    ensures Current("policies.manage")
    ensures Current("secretstores.manage")
    ensures Current("extensions.manage")
    ensures Current("extensions.invoke")
    ensures Current("catalog.manage")
    ensures Current("deployments.create")
    ensures Current("approvals.manage")
  {
  }

  lemma SlugsAreCurrent(i: nat)
    requires i < |CATALOG|
    ensures Current(CATALOG[i].slug)
  {
    hide Current;
    TenantSlugsAreCurrent();
    OtherSlugsAreCurrent();
  }

  /** Different permissions never share a relation, and relation names are free of dots. */
  lemma RelationsAreInjective(a: string, b: string)
    requires ValidPermission(a) && ValidPermission(b) && PermissionRelation(a) == PermissionRelation(b)
    ensures a == b && '.' !in PermissionRelation(a).value
  {
    var i :| 0 <= i < |CATALOG| && CATALOG[i].slug == a;
    var j :| 0 <= j < |CATALOG| && CATALOG[j].slug == b;
    SlugsHaveNoUnderscore(i);
    SlugsHaveNoUnderscore(j);
    var r := PermissionRelation(a).value;
    assert |a| == |r| == |b|;
    forall k | 0 <= k < |a| ensures a[k] == b[k] {
      assert a[k] in a && b[k] in b;
      assert r[k] == if a[k] == '.' then '_' else a[k];
    }
  }

  // ----- Kubernetes tiers

  function Rank(t: Tier): nat {
    match t
    case NoTier => 0
    case Viewer => 1
    case Editor => 2
    case Operator => 3
    case Admin => 4
  }

  function TierFrom(slug: string, i: nat): Tier
    requires i <= |CATALOG|
    decreases |CATALOG| - i
  {
    if i == |CATALOG| then NoTier
    else if CATALOG[i].slug == slug then CATALOG[i].tier
    else TierFrom(slug, i + 1)
  }

  function FragmentTier(slug: string): Tier {
    TierFrom(slug, 0)
  }

  predicate Contributes(permissions: seq<string>, tier: Tier) {
    exists i | 0 <= i < |permissions| :: FragmentTier(permissions[i]) == tier
  }

  /** A role renders the highest tier any of its permissions contributes, and no higher one: admin before
      operator before editor before viewer. */
  method EffectiveTier(permissions: seq<string>) returns (best: Tier)
    ensures forall i | 0 <= i < |permissions| :: Rank(FragmentTier(permissions[i])) <= Rank(best)
    ensures best == NoTier || exists i | 0 <= i < |permissions| :: FragmentTier(permissions[i]) == best
    ensures best == if Contributes(permissions, Admin) then Admin
                    else if Contributes(permissions, Operator) then Operator
                    else if Contributes(permissions, Editor) then Editor
                    else if Contributes(permissions, Viewer) then Viewer
                    else NoTier
  {
    hide FragmentTier;
    best := NoTier;
    for i := 0 to |permissions|
      invariant forall j | 0 <= j < i :: Rank(FragmentTier(permissions[j])) <= Rank(best)
      invariant best == NoTier || exists j | 0 <= j < i :: FragmentTier(permissions[j]) == best
    {
      if Rank(FragmentTier(permissions[i])) > Rank(best) {
        best := FragmentTier(permissions[i]);
      }
    }
  }

  lemma {:induction false} TierFromIs(slug: string, i: nat, k: nat)
    requires i <= k < |CATALOG| && CATALOG[k].slug == slug && forall j | i <= j < k :: CATALOG[j].slug != slug
    ensures TierFrom(slug, i) == CATALOG[k].tier
    decreases k - i
  {
    if i < k {
      TierFromIs(slug, i + 1, k);
    }
  }

  lemma {:induction false} NoTierOutside(slug: string, i: nat)
    requires i <= |CATALOG| && forall j | i <= j < |CATALOG| :: CATALOG[j].slug != slug
    ensures TierFrom(slug, i) == NoTier
    decreases |CATALOG| - i
  {
    if i < |CATALOG| {
      NoTierOutside(slug, i + 1);
    }
  }

  /** A permission contributes the tier of its catalog entry, and a slug outside the catalog contributes none. */
  lemma FragmentTierExactly(slug: string, k: nat)
    ensures !ValidPermission(slug) ==> FragmentTier(slug) == NoTier
    ensures k < |CATALOG| && CATALOG[k].slug == slug && (forall j | 0 <= j < k :: CATALOG[j].slug != slug)
            ==> FragmentTier(slug) == CATALOG[k].tier
  {
    if !ValidPermission(slug) {
      NoTierOutside(slug, 0);
    }
    if k < |CATALOG| && CATALOG[k].slug == slug && forall j | 0 <= j < k :: CATALOG[j].slug != slug {
      TierFromIs(slug, 0, k);
    }
  }
}
