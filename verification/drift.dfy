/** Drift events: opening one per divergence, and closing those that no longer hold. */
module Drift {
  import opened Wrappers
  import opened Text

  const INSTANCE_SPEC := "instance_spec"

  datatype Row = Row(org: string, cluster: string, kind: string, ref: string, hash: string, open: bool)

  datatype Notice = Detected(id: nat) | Resolved(id: nat)

  /** An instance whose reported state differs from what is desired. */
  datatype Instance = Instance(org: string, cluster: string, kind: string, name: string, namespace: string, state: string)

  /** What an open event says. */
  datatype Claim = Claim(cluster: string, ref: string, state: string)

  function RefOf(i: Instance): string {
    if i.namespace != "" then i.kind + "/" + i.namespace + "/" + i.name else i.kind + "/" + i.name
  }

  function ClaimOf(i: Instance): Claim {
    Claim(i.cluster, RefOf(i), i.state)
  }

  function ClaimsOf(diverged: seq<Instance>): set<Claim> {
    set i | i in diverged :: ClaimOf(i)
  }

  /** The open instance events. */
  function OpenClaims(rows: seq<Row>): set<Claim> {
    set r | r in rows && r.open && r.kind == INSTANCE_SPEC :: Claim(r.cluster, r.ref, r.hash)
  }

  predicate HasOpen(rows: seq<Row>, cluster: string, kind: string, ref: string, hash: string) {
    exists r | r in rows :: r.open && r.cluster == cluster && r.kind == kind && r.ref == ref && r.hash == hash
  }

  function Key(cluster: string, ref: string): string {
    cluster + "|" + (INSTANCE_SPEC + "|" + ref)
  }

  lemma KeysDiffer(a: string, r: string, b: string, s: string)
    requires '|' !in a && '|' !in b && Key(a, r) == Key(b, s)
    ensures a == b && r == s
  {
    SplitAt('|', a, INSTANCE_SPEC + "|" + r, b, INSTANCE_SPEC + "|" + s);
    assert INSTANCE_SPEC + "|" + r == (INSTANCE_SPEC + "|") + r && INSTANCE_SPEC + "|" + s == (INSTANCE_SPEC + "|") + s;
    CancelPrefix(INSTANCE_SPEC + "|", r, s);
  }

  /** The reported state by key; where two instances share a key the later one stands. */
  function Current(diverged: seq<Instance>): map<string, string> {
    if diverged == [] then map[]
    else
      var last := diverged[|diverged| - 1];
      Current(diverged[..|diverged| - 1])[Key(last.cluster, RefOf(last)) := last.state]
  }

  /** A missing key reads as the empty state. */
  function StateOf(current: map<string, string>, key: string): string {
    if key in current then current[key] else ""
  }

  predicate Holds(current: map<string, string>, c: Claim) {
    StateOf(current, Key(c.cluster, c.ref)) == c.state
  }

  predicate Reportable(i: Instance) {
    i.org != "" && i.cluster != ""
  }

  predicate Stale(current: map<string, string>, r: Row) {
    r.open && r.kind == INSTANCE_SPEC && !Holds(current, Claim(r.cluster, r.ref, r.hash))
  }

  /** The notices of `n` events opened from a number on. */
  function DetectedFrom(start: nat, n: nat): seq<Notice> {
    seq(n, i requires 0 <= i < n => Detected(start + i))
  }

  lemma OneMoreDetected(start: nat, n: nat)
    ensures DetectedFrom(start, n + 1) == DetectedFrom(start, n) + [Detected(start + n)] && DetectedFrom(start, 0) == []
  {
  }

  /** The notices of the events, among the first `k`, that were open or new and are closed. */
  function Closed(before: seq<Row>, after: seq<Row>, k: nat): seq<Notice>
    requires k <= |after|
  {
    if k == 0 then []
    else Closed(before, after, k - 1) + (if (k - 1 < |before| ==> before[k - 1].open) && !after[k - 1].open then [Resolved(k - 1)] else [])
  }

  /** A notice of closing goes out for exactly the events that were open or new and are closed. */
  lemma {:induction false} ClosedExactly(before: seq<Row>, after: seq<Row>, k: nat, notice: Notice)
    requires k <= |after|
    ensures notice in Closed(before, after, k) <==>
            notice.Resolved? && notice.id < k && !after[notice.id].open && (notice.id >= |before| || before[notice.id].open)
  {
    if k > 0 {
      ClosedExactly(before, after, k - 1, notice);
    }
  }

  lemma {:induction false} ClosedSees(before: seq<Row>, a: seq<Row>, b: seq<Row>, k: nat)
    requires k <= |a| && k <= |b| && forall i | 0 <= i < k :: a[i] == b[i]
    ensures Closed(before, a, k) == Closed(before, b, k)
  {
    if k > 0 {
      ClosedSees(before, a, b, k - 1);
    }
  }

  lemma {:induction false} ClosedSinceThen(before: seq<Row>, mid: seq<Row>, after: seq<Row>, k: nat)
    requires k <= |after| && |before| <= |mid| && mid[..|before|] == before
    requires forall i | |before| <= i < |mid| :: mid[i].open
    ensures Closed(before, after, k) == Closed(mid, after, k)
  {
    if k > 0 {
      ClosedSinceThen(before, mid, after, k - 1);
      assert k - 1 < |before| ==> mid[..|before|][k - 1] == before[k - 1];
    }
  }

  class Detector {
    var rows: seq<Row>
    var outbox: seq<Notice>

    constructor ()
      ensures rows == [] && outbox == []
    {
      rows, outbox := [], [];
    }

    /** Open an event unless an identical one is open; None when the report is incomplete. */
    method ReportDrift(org: string, cluster: string, kind: string, ref: string, hash: string) returns (created: Option<bool>)
      modifies this
      ensures created.None? <==> org == "" || cluster == "" || kind == ""
      ensures created.Some? ==> (created.value <==> !HasOpen(old(rows), cluster, kind, ref, hash))
      ensures rows == old(rows) + (if created == Some(true) then [Row(org, cluster, kind, ref, hash, true)] else [])
      ensures outbox == old(outbox) + (if created == Some(true) then [Detected(old(|rows|))] else [])
    {
      if org == "" || cluster == "" || kind == "" {
        return None;
      }
      if HasOpen(rows, cluster, kind, ref, hash) {
        return Some(false);
      }
      outbox := outbox + [Detected(|rows|)];
      rows := rows + [Row(org, cluster, kind, ref, hash, true)];
      return Some(true);
    }

    method ResolveDrift(id: nat)
      modifies this
      ensures rows == if id < old(|rows|) then old(rows)[id := old(rows)[id].(open := false)] else old(rows)
      ensures outbox == old(outbox) + (if id < old(|rows|) && old(rows)[id].open then [Resolved(id)] else [])
    {
      if id < |rows| && rows[id].open {
        rows := rows[id := rows[id].(open := false)];
        outbox := outbox + [Resolved(id)];
      }
    }

    method ReportInstance(d: Instance) returns (created: Option<bool>)
      modifies this
      ensures created.Some? <==> Reportable(d)
      ensures created.Some? ==> OpenClaims(rows) == OpenClaims(old(rows)) + {ClaimOf(d)}
      ensures created == Some(true) ==> |rows| == old(|rows|) + 1 && rows[..old(|rows|)] == old(rows) && rows[old(|rows|)].open
      ensures created != Some(true) ==> rows == old(rows) && outbox == old(outbox)
      ensures created == Some(true) ==> outbox == old(outbox) + [Detected(old(|rows|))]
      ensures created.Some? ==> (created.value <==> ClaimOf(d) !in OpenClaims(old(rows)))
    {
      OpenExactly(rows, ClaimOf(d));
      OpenOneMore(rows, Row(d.org, d.cluster, INSTANCE_SPEC, RefOf(d), d.state, true));
      created := ReportDrift(d.org, d.cluster, INSTANCE_SPEC, RefOf(d), d.state);
    }

    /** The first half of a sweep: report every divergence; stops at one that cannot be reported. */
    method ReportAll(diverged: seq<Instance>) returns (n: nat, current: map<string, string>, ok: bool)
      modifies this
      ensures ok <==> forall i | i in diverged :: Reportable(i)
      ensures |rows| == old(|rows|) + n && rows[..old(|rows|)] == old(rows)
      ensures ok ==> OpenClaims(rows) == OpenClaims(old(rows)) + ClaimsOf(diverged) && current == Current(diverged)
      ensures outbox == old(outbox) + DetectedFrom(old(|rows|), n)
      ensures forall k | old(|rows|) <= k < |rows| :: rows[k].open
      ensures ok ==> (n == 0 <==> ClaimsOf(diverged) <= OpenClaims(old(rows)))
    {
      hide OpenClaims, Key, RefOf, ClaimOf, ClaimsOf, Reportable, HasOpen;
      n, current := 0, map[];
      NoInstances();
      OneMoreDetected(|rows|, 0);
      for i := 0 to |diverged|
        invariant |rows| == old(|rows|) + n && rows[..old(|rows|)] == old(rows)
        invariant OpenClaims(rows) == OpenClaims(old(rows)) + ClaimsOf(diverged[..i])
        invariant current == Current(diverged[..i])
        invariant forall d | d in diverged[..i] :: Reportable(d)
        invariant outbox == old(outbox) + DetectedFrom(old(|rows|), n)
        invariant forall k | old(|rows|) <= k < |rows| :: rows[k].open
        invariant n == 0 ==> rows == old(rows)
        invariant n == 0 <==> ClaimsOf(diverged[..i]) <= OpenClaims(old(rows))
      {
        var d := diverged[i];
        NextInstance(diverged, i);
        ClaimIsListed(diverged, d);
        current := current[Key(d.cluster, RefOf(d)) := d.state];
        var created := ReportInstance(d);
        if created.None? {
          return n, current, false;
        }
        if created.value {
          OneMoreDetected(old(|rows|), n);
          n := n + 1;
        }
      }
      assert diverged[..|diverged|] == diverged;
      return n, current, true;
    }

    /** The second half: resolve the open instance events that no longer hold; other kinds are left alone. */
    method ResolveStale(current: map<string, string>)
      modifies this
      ensures |rows| == old(|rows|)
      ensures forall k | 0 <= k < |rows| ::
                rows[k] == if Stale(current, old(rows)[k]) then old(rows)[k].(open := false) else old(rows)[k]
      ensures outbox == old(outbox) + Closed(old(rows), rows, |rows|)
      ensures outbox == old(outbox) <==> forall c | c in OpenClaims(old(rows)) :: Holds(current, c)
    {
      hide Key, OpenClaims;
      for id := 0 to |rows|
        invariant |rows| == old(|rows|)
        invariant forall k | 0 <= k < id ::
                    rows[k] == if Stale(current, old(rows)[k]) then old(rows)[k].(open := false) else old(rows)[k]
        invariant forall k | id <= k < |rows| :: rows[k] == old(rows)[k]
        invariant outbox == old(outbox) + Closed(old(rows), rows, id)
      {
        var d := rows[id];
        if !d.open || d.kind != INSTANCE_SPEC {
          continue;
        }
        if StateOf(current, Key(d.cluster, d.ref)) == d.hash {
          continue;
        }
        ghost var before := rows;
        ResolveDrift(id);
        ClosedSees(old(rows), before, rows, id);
      }
      ClosedIfStale(old(rows), rows, current, |rows|);
      NoneStale(old(rows), current);
    }

    /** One sweep. When it gets through, exactly those instance events are open that were open or diverge
        and still stand as reported. */
    method DriftSweep(diverged: seq<Instance>) returns (n: nat, ok: bool)
      modifies this
      ensures ok <==> forall i | i in diverged :: i.org != "" && i.cluster != ""
      ensures ok ==> OpenClaims(rows) == StillOpen(OpenClaims(old(rows)) + ClaimsOf(diverged), Current(diverged))
      ensures |rows| == old(|rows|) + n
      ensures forall k | 0 <= k < old(|rows|) && old(rows)[k].kind != INSTANCE_SPEC :: rows[k] == old(rows)[k]
      ensures ok ==> (n == 0 <==> ClaimsOf(diverged) <= OpenClaims(old(rows)))
      ensures ok ==> outbox == old(outbox) + DetectedFrom(old(|rows|), n) + Closed(old(rows), rows, |rows|)
      ensures ok ==> (outbox == old(outbox) <==> Idle(OpenClaims(old(rows)), diverged))
      ensures ok && Idle(OpenClaims(old(rows)), diverged) ==> rows == old(rows)
    {
      var current;
      n, current, ok := ReportAll(diverged);
      if !ok {
        return n, false;
      }
      ghost var mid := rows;
      ResolveStale(current);
      OnlyStaleClosed(mid, rows, current);
      ClosedSinceThen(old(rows), mid, rows, |rows|);
      if forall c | c in OpenClaims(mid) :: Holds(current, c) {
        forall k | 0 <= k < |mid| ensures rows[k] == mid[k] {
          if mid[k].open && mid[k].kind == INSTANCE_SPEC {
            assert Claim(mid[k].cluster, mid[k].ref, mid[k].hash) in OpenClaims(mid);
          }
        }
      }
    }
  }

  /** A sweep that has nothing to open and nothing to resolve. */
  predicate Idle(open: set<Claim>, diverged: seq<Instance>) {
    ClaimsOf(diverged) <= open && forall c | c in open :: Holds(Current(diverged), c)
  }

  lemma {:induction false} ClosedIfStale(before: seq<Row>, after: seq<Row>, current: map<string, string>, k: nat)
    requires k <= |before| == |after|
    requires forall i | 0 <= i < k :: after[i] == if Stale(current, before[i]) then before[i].(open := false) else before[i]
    ensures Closed(before, after, k) == [] <==> forall i | 0 <= i < k :: !Stale(current, before[i])
  {
    if k > 0 {
      ClosedIfStale(before, after, current, k - 1);
    }
  }

  lemma NoneStale(rows: seq<Row>, current: map<string, string>)
    ensures (forall k | 0 <= k < |rows| :: !Stale(current, rows[k])) <==> forall c | c in OpenClaims(rows) :: Holds(current, c)
  {
    if forall k | 0 <= k < |rows| :: !Stale(current, rows[k]) {
      forall c | c in OpenClaims(rows) ensures Holds(current, c) {
        var k :| 0 <= k < |rows| && rows[k].open && rows[k].kind == INSTANCE_SPEC && c == Claim(rows[k].cluster, rows[k].ref, rows[k].hash);
        assert !Stale(current, rows[k]);
      }
    }
    if forall c | c in OpenClaims(rows) :: Holds(current, c) {
      forall k | 0 <= k < |rows| ensures !Stale(current, rows[k]) {
        if rows[k].open && rows[k].kind == INSTANCE_SPEC {
          assert Claim(rows[k].cluster, rows[k].ref, rows[k].hash) in OpenClaims(rows);
        }
      }
    }
  }

  function StillOpen(claims: set<Claim>, current: map<string, string>): set<Claim> {
    set c | c in claims && Holds(current, c)
  }

  lemma NoInstances()
    ensures ClaimsOf([]) == {}
  {
  }

  lemma ClaimIsListed(diverged: seq<Instance>, d: Instance)
    requires d in diverged
    ensures ClaimOf(d) in ClaimsOf(diverged)
  {
  }

  lemma NextInstance(diverged: seq<Instance>, i: nat)
    requires i < |diverged|
    ensures diverged[..i + 1][..i] == diverged[..i]
    ensures ClaimsOf(diverged[..i + 1]) == ClaimsOf(diverged[..i]) + {ClaimOf(diverged[i])}
    ensures forall d :: d in diverged[..i + 1] <==> d in diverged[..i] || d == diverged[i]
  {
    assert diverged[..i + 1] == diverged[..i] + [diverged[i]];
  }

  lemma OpenExactly(rows: seq<Row>, c: Claim)
    ensures HasOpen(rows, c.cluster, INSTANCE_SPEC, c.ref, c.state) <==> c in OpenClaims(rows)
  {
  }

  lemma OpenOneMore(rows: seq<Row>, r: Row)
    requires r.open && r.kind == INSTANCE_SPEC
    ensures OpenClaims(rows + [r]) == OpenClaims(rows) + {Claim(r.cluster, r.ref, r.hash)}
  {
  }

  lemma OnlyStaleClosed(before: seq<Row>, after: seq<Row>, current: map<string, string>)
    requires |after| == |before|
    requires forall k | 0 <= k < |before| :: after[k] == if Stale(current, before[k]) then before[k].(open := false) else before[k]
    ensures OpenClaims(after) == StillOpen(OpenClaims(before), current)
  {
    forall c ensures c in OpenClaims(after) <==> c in StillOpen(OpenClaims(before), current) {
      if c in OpenClaims(after) {
        var k :| 0 <= k < |after| && after[k].open && after[k].kind == INSTANCE_SPEC && c == Claim(after[k].cluster, after[k].ref, after[k].hash);
        assert before[k] in before;
      }
      if c in StillOpen(OpenClaims(before), current) {
        var k :| 0 <= k < |before| && before[k].open && before[k].kind == INSTANCE_SPEC && c == Claim(before[k].cluster, before[k].ref, before[k].hash);
        assert after[k] in after;
      }
    }
  }

  // ----- When a sweep is enough

  /** No two divergences say different things about one resource. */
  predicate Consistent(diverged: seq<Instance>) {
    forall i, j | i in diverged && j in diverged && i.cluster == j.cluster && RefOf(i) == RefOf(j) :: i.state == j.state
  }

  predicate PlainClusters(diverged: seq<Instance>, open: set<Claim>) {
    (forall i | i in diverged :: '|' !in i.cluster) && (forall c | c in open :: '|' !in c.cluster)
  }

  /** What the listings promise: no cluster id holds the separator, and no state is empty. */
  predicate Listed(diverged: seq<Instance>, open: set<Claim>) {
    PlainClusters(diverged, open) && (forall i | i in diverged :: i.state != "") && (forall c | c in open :: c.state != "")
  }

  lemma {:induction false} CurrentIs(diverged: seq<Instance>, key: string)
    ensures key in Current(diverged) <==> exists i | i in diverged :: Key(i.cluster, RefOf(i)) == key
    ensures key in Current(diverged) ==>
              exists i | i in diverged :: Key(i.cluster, RefOf(i)) == key && i.state == Current(diverged)[key]
  {
    if diverged != [] {
      var before, last := diverged[..|diverged| - 1], diverged[|diverged| - 1];
      assert diverged == before + [last];
      CurrentIs(before, key);
      assert last in diverged;
      if Key(last.cluster, RefOf(last)) != key && key in Current(before) {
        var i :| i in before && Key(i.cluster, RefOf(i)) == key && i.state == Current(before)[key];
        assert i in diverged;
      }
    }
  }

  /** A claim stands exactly if it is what the last listed instance of its resource reports. */
  lemma StandsOnlyIfDiverged(diverged: seq<Instance>, open: set<Claim>, c: Claim)
    requires Listed(diverged, open) && '|' !in c.cluster && c.state != "" && Holds(Current(diverged), c)
    ensures c in ClaimsOf(diverged)
  {
    var key := Key(c.cluster, c.ref);
    CurrentIs(diverged, key);
    var i :| i in diverged && Key(i.cluster, RefOf(i)) == key && i.state == Current(diverged)[key];
    KeysDiffer(c.cluster, c.ref, i.cluster, RefOf(i));
    assert c == ClaimOf(i);
  }

  lemma DivergedStands(diverged: seq<Instance>, open: set<Claim>, i: Instance)
    requires Listed(diverged, open) && Consistent(diverged) && i in diverged
    ensures Holds(Current(diverged), ClaimOf(i))
  {
    var key := Key(i.cluster, RefOf(i));
    CurrentIs(diverged, key);
    var j :| j in diverged && Key(j.cluster, RefOf(j)) == key && j.state == Current(diverged)[key];
    KeysDiffer(i.cluster, RefOf(i), j.cluster, RefOf(j));
  }

  /** After a sweep the open instance events are exactly the divergences, whatever was open before, exactly
      if no two divergences contradict each other about one resource. */
  lemma SweepShowsTheDivergences(diverged: seq<Instance>, open: set<Claim>)
    requires Listed(diverged, open)
    ensures StillOpen(open + ClaimsOf(diverged), Current(diverged)) == ClaimsOf(diverged) <==> Consistent(diverged)
  {
    var after := StillOpen(open + ClaimsOf(diverged), Current(diverged));
    forall c | c in after ensures c in ClaimsOf(diverged) {
      StandsOnlyIfDiverged(diverged, open, c);
    }
    if Consistent(diverged) {
      forall i | i in diverged ensures ClaimOf(i) in after {
        DivergedStands(diverged, open, i);
      }
    }
    if after == ClaimsOf(diverged) {
      forall i, j | i in diverged && j in diverged && i.cluster == j.cluster && RefOf(i) == RefOf(j) ensures i.state == j.state {
        assert ClaimOf(i) in ClaimsOf(diverged) && ClaimOf(j) in ClaimsOf(diverged);
      }
    }
  }

  /** A sweep is a fixpoint, so that sweeping again with the same list opens and resolves nothing, exactly
      if no two divergences contradict each other. */
  lemma SecondSweepIsIdleExactly(diverged: seq<Instance>, before: set<Claim>)
    requires Listed(diverged, before)
    ensures Idle(StillOpen(before + ClaimsOf(diverged), Current(diverged)), diverged) <==> Consistent(diverged)
  {
    SweepShowsTheDivergences(diverged, before);
    if !Consistent(diverged) {
      ContradictionIsNeverOpen(before, diverged, diverged);
    }
  }

  /** What any sweep leaves open says one thing about each resource, so a contradictory list has something
      that is not open. */
  lemma ContradictionIsNeverOpen(before: set<Claim>, last: seq<Instance>, diverged: seq<Instance>)
    requires !Consistent(diverged)
    ensures !(ClaimsOf(diverged) <= StillOpen(before + ClaimsOf(last), Current(last)))
  {
    var i, j :| i in diverged && j in diverged && i.cluster == j.cluster && RefOf(i) == RefOf(j) && i.state != j.state;
    assert ClaimOf(i) in ClaimsOf(diverged) && ClaimOf(j) in ClaimsOf(diverged);
    assert !(Holds(Current(last), ClaimOf(i)) && Holds(Current(last), ClaimOf(j)));
  }

  /** What is open after so many sweeps, each with the list of its time. */
  function OpenAfter(open: set<Claim>, lists: seq<seq<Instance>>): set<Claim> {
    if lists == [] then open
    else
      var last := lists[|lists| - 1];
      StillOpen(OpenAfter(open, lists[..|lists| - 1]) + ClaimsOf(last), Current(last))
  }

  /** Every later sweep of a contradictory list opens an event anew: by the contract of DriftSweep it
      reports at least one, for as long as the contradiction lasts. */
  lemma ContradictionReopensForEver(open: set<Claim>, lists: seq<seq<Instance>>, k: nat)
    requires 0 < k < |lists| && !Consistent(lists[k])
    ensures !(ClaimsOf(lists[k]) <= OpenAfter(open, lists[..k])) && !Idle(OpenAfter(open, lists[..k]), lists[k])
  {
    hide Consistent, Current, ClaimsOf, Holds, StillOpen;
    var done := lists[..k];
    assert done[..|done| - 1] == lists[..k - 1];
    ContradictionIsNeverOpen(OpenAfter(open, lists[..k - 1]), done[k - 1], lists[k]);
  }

  /** Two instances of one resource with different states: only one of them is shown. */
  lemma ContradictionIsNotShown()
    ensures var diverged := [Instance("org", "c", "Bucket", "b", "", "OutOfSync"), Instance("org", "c", "Bucket", "b", "", "Unknown")];
            StillOpen(ClaimsOf(diverged), Current(diverged)) != ClaimsOf(diverged)
  {
    hide Current, StillOpen, ClaimsOf;
    var diverged := [Instance("org", "c", "Bucket", "b", "", "OutOfSync"), Instance("org", "c", "Bucket", "b", "", "Unknown")];
    assert diverged[0] in diverged && diverged[1] in diverged;
    assert {} + ClaimsOf(diverged) == ClaimsOf(diverged);
    SweepShowsTheDivergences(diverged, {});
  }

  // ----- Which resources share a reference

  predicate SameResource(a: Instance, b: Instance) {
    a.kind == b.kind && a.namespace == b.namespace && a.name == b.name
  }

  predicate SlashFree(i: Instance) {
    '/' !in i.kind && '/' !in i.namespace && '/' !in i.name
  }

  lemma PlainRefSplits(i: Instance, kind: string, rest: string)
    requires '/' !in i.kind && '/' !in kind && RefOf(i) == kind + "/" + rest
    ensures i.kind == kind && rest == if i.namespace != "" then i.namespace + "/" + i.name else i.name
  {
    var own := if i.namespace != "" then i.namespace + "/" + i.name else i.name;
    assert "/" == ['/'];
    assert RefOf(i) == i.kind + ['/'] + own;
    SplitAt('/', i.kind, own, kind, rest);
  }

  /** As names hold no slashes, instances of different kind, namespace or name have different references; one
      without a namespace is never taken for one with. */
  lemma RefsDiffer(a: Instance, b: Instance)
    requires SlashFree(a) && SlashFree(b)
    ensures RefOf(a) == RefOf(b) <==> SameResource(a, b)
  {
    if RefOf(a) == RefOf(b) {
      var x := if a.namespace != "" then a.namespace + "/" + a.name else a.name;
      var y := if b.namespace != "" then b.namespace + "/" + b.name else b.name;
      assert RefOf(b) == b.kind + "/" + y;
      PlainRefSplits(a, b.kind, y);
      assert a.namespace != "" ==> x[|a.namespace|] == '/';
      assert b.namespace != "" ==> y[|b.namespace|] == '/';
      if a.namespace != "" && b.namespace != "" {
        assert "/" == ['/'];
        SplitAt('/', a.namespace, a.name, b.namespace, b.name);
      }
    }
  }

  /** A reference tells which resource it is of, whatever characters names hold, exactly if there is no
      namespace in it and no slash in kind or name. */
  lemma RefIsOwnExactly(a: Instance)
    ensures (forall b | RefOf(b) == RefOf(a) :: SameResource(a, b)) <==> a.namespace == "" && '/' !in a.kind && '/' !in a.name
  {
    if a.namespace == "" && '/' !in a.kind && '/' !in a.name {
      forall b | RefOf(b) == RefOf(a) ensures SameResource(a, b) {
        OneSlash(a, b);
      }
    } else {
      var b := OtherReading(a);
      assert RefOf(b) == RefOf(a) && !SameResource(a, b);
    }
  }

  lemma OneSlash(a: Instance, b: Instance)
    requires a.namespace == "" && '/' !in a.kind && '/' !in a.name && RefOf(b) == RefOf(a)
    ensures SameResource(a, b)
  {
    var s := RefOf(a);
    assert s == a.kind + ['/'] + a.name;
    assert forall i | 0 <= i < |s| :: s[i] == '/' <==> i == |a.kind|;
    assert RefOf(b)[|b.kind|] == '/';
    assert |b.kind| == |a.kind|;
    if b.namespace != "" {
      SecondSlash(b);
      assert false;
    }
    assert a.kind == s[..|a.kind|] == RefOf(b)[..|b.kind|] == b.kind;
    assert a.name == s[|a.kind| + 1..] == RefOf(b)[|b.kind| + 1..];
  }

  lemma SecondSlash(b: Instance)
    requires b.namespace != ""
    ensures |b.kind| + 1 + |b.namespace| < |RefOf(b)| && RefOf(b)[|b.kind| + 1 + |b.namespace|] == '/'
  {
  }

  lemma OtherReading(a: Instance) returns (b: Instance)
    requires !(a.namespace == "" && '/' !in a.kind && '/' !in a.name)
    ensures RefOf(b) == RefOf(a) && !SameResource(a, b)
  {
    if a.namespace != "" {
      b := a.(namespace := "", name := a.namespace + "/" + a.name);
      assert RefOf(b) == a.kind + "/" + (a.namespace + "/" + a.name) == RefOf(a);
    } else if '/' in a.kind {
      var i :| 0 <= i < |a.kind| && a.kind[i] == '/';
      b := a.(kind := a.kind[..i], name := a.kind[i + 1..] + "/" + a.name);
      assert a.kind == a.kind[..i] + "/" + a.kind[i + 1..];
      assert RefOf(b) == a.kind[..i] + "/" + (a.kind[i + 1..] + "/" + a.name) == RefOf(a);
      assert |b.kind| < |a.kind|;
    } else {
      var i :| 0 <= i < |a.name| && a.name[i] == '/';
      b := a.(kind := a.kind + "/" + a.name[..i], name := a.name[i + 1..]);
      assert a.name == a.name[..i] + "/" + a.name[i + 1..];
      assert RefOf(b) == (a.kind + "/" + a.name[..i]) + "/" + a.name[i + 1..] == RefOf(a);
      assert |b.kind| > |a.kind|;
    }
  }
}
