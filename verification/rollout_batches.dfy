/** The loops of a rollout, write by write: what any prefix of seeding, reconciling and delivering leaves
    behind, and that it keeps the invariant. */
module RolloutBatches {
  import opened Wrappers
  import opened Stages
  import opened ClusterSets
  import opened CommandIds
  import opened CommandQueue
  import opened RolloutModel
  import opened RolloutSafety

  lemma PrefixHead(w: World, first: Write, rest: seq<Write>, n: nat)
    ensures CommitPrefix(w, [first] + rest, n) == if n == 0 then w else CommitPrefix(Commit(w, first), rest, n - 1)
  {
    var writes := [first] + rest;
    if n == 0 {
      assert writes[..0] == [];
    } else if n < |writes| {
      assert writes[..n] == [first] + rest[..n - 1];
      assert writes[..n][1..] == rest[..n - 1];
    } else {
      assert writes[1..] == rest;
    }
  }

  lemma PrefixAll(w: World, writes: seq<Write>, n: nat)
    requires |writes| <= n
    ensures CommitPrefix(w, writes, n) == CommitAll(w, writes)
  {
  }

  lemma {:induction false} CommitAllSplit(w: World, a: seq<Write>, b: seq<Write>)
    ensures CommitAll(w, a + b) == CommitAll(CommitAll(w, a), b)
    decreases |a|
  {
    if a == [] {
      assert a + b == b;
    } else {
      assert (a + b)[1..] == a[1..] + b;
      CommitAllSplit(Commit(w, a[0]), a[1..], b);
    }
  }

  /** A crash hits the first part of an operation or, with the first part done, the second. */
  lemma PrefixSplit(w: World, a: seq<Write>, b: seq<Write>, n: nat)
    ensures CommitPrefix(w, a + b, n) ==
            if n < |a| then CommitPrefix(w, a, n) else CommitPrefix(CommitAll(w, a), b, n - |a|)
  {
    if n < |a| {
      assert (a + b)[..n] == a[..n];
    } else if n < |a + b| {
      assert (a + b)[..n] == a + b[..n - |a|];
      CommitAllSplit(w, a, b[..n - |a|]);
    } else {
      CommitAllSplit(w, a, b);
    }
  }

  /** Up to `slots` pending rows turned into delivered ones. */
  function Handed(stage: nat, rows: seq<Target>, slots: int): seq<Target> {
    if slots <= 0 || rows == [] then rows
    else if !rows[0].status.TargetPending? then [rows[0]] + Handed(stage, rows[1..], slots)
    else
      var key := ApplyKey(stage, rows[0].cluster);
      [Target(rows[0].cluster, TargetDelivered, Some(key))] + Handed(stage, rows[1..], slots - 1)
  }

  /** The world differs from `w` in rows of the current stage and in commands added to the queue. */
  predicate OnlyRows(w: World, v: World) {
    && w.stage < |w.targets| && |v.targets| == |w.targets|
    && v == w.(targets := w.targets[w.stage := v.targets[w.stage]], queue := v.queue)
    && (forall k | k in w.queue :: k in v.queue && v.queue[k] == w.queue[k])
    && (forall k | k in v.queue && k !in w.queue :: k.stage == w.stage)
  }

  /** Writing rows of a stage past its before gate takes no before gate back. */
  lemma GuardedOnRows(w: World, v: World)
    requires Guarded(w) && OnlyRows(w, v) && Passed(w, w.stage, Before)
    ensures Guarded(v)
  {
    assert SamePlace(w, v);
    PassedStays(w, v, w.stage, Before);
    forall k | k in v.queue && k.suffix.Apply? ensures Passed(v, k.stage, Before) {
      if k in w.queue {
        PassedStays(w, v, k.stage, Before);
      }
    }
    if !w.state.RolledBack? {
      forall s | 0 <= s < |v.targets| && v.targets[s] != [] ensures Cleared(v, s) {
        if s != w.stage {
          assert Cleared(w, s);
          ClearedStays(w, v, s);
        }
      }
    }
  }

  /** Seeding a stage takes no other stage's before gate back. */
  lemma ClearedWhileSeeding(w: World, v: World)
    requires Guarded(w) && !w.state.RolledBack? && OnlyRows(w, v) && v.queue == w.queue
    ensures CommandsPassed(v) && ClearedBut(v, w.stage)
  {
    assert SamePlace(w, v);
    forall k | k in v.queue && k.suffix.Apply? ensures Passed(v, k.stage, Before) {
      PassedStays(w, v, k.stage, Before);
    }
    forall s | 0 <= s < |v.targets| && s != w.stage && v.targets[s] != [] ensures Cleared(v, s) {
      assert Cleared(w, s);
      ClearedStays(w, v, s);
    }
  }

  function Min(a: int, b: int): int {
    if a < b then a else b
  }

  lemma SpotOf(rows: seq<Target>, i: nat)
    requires Distinct(rows) && i < |rows|
    ensures Find(rows, rows[i].cluster) == Some(i)
  {
  }

  predicate Ready(w: World) {
    Base(w) && w.state.Running? && w.stage < |w.targets|
  }

  lemma SeedOne(w: World, done: seq<string>, members: seq<string>)
    requires Ready(w) && w.targets[w.stage] == SeedRows(done) && members != [] && NoDuplicates(done + members)
    ensures var v := Commit(w, UpsertTarget(w.stage, Target(members[0], TargetPending, None)));
            Base(v) && OnlyRows(w, v) && v.queue == w.queue && v.targets[w.stage] == SeedRows(done + [members[0]])
  {
    var t := Target(members[0], TargetPending, None);
    assert RowOk(w, w.stage, t);
    SeedingIsNotDone(done);
    UpsertKeeps(w, t);
    hide Base;
    SeedRowsAt(done);
    SeedRowsAppend(done, members[0]);
    assert forall i | 0 <= i < |done| :: done[i] == (done + members)[i];
    assert (done + members)[|done|] == members[0];
    assert Find(SeedRows(done), members[0]).None?;
  }

  lemma SeedingIsNotDone(done: seq<string>)
    ensures !Done(SeedRows(done))
  {
    SeedRowsAt(done);
    if done != [] {
      assert SeedRows(done)[0].status.TargetPending?;
    }
  }

  lemma {:induction false} SeedPrefix(w: World, done: seq<string>, members: seq<string>, n: nat)
    requires Ready(w) && w.targets[w.stage] == SeedRows(done) && NoDuplicates(done + members)
    ensures var v := CommitPrefix(w, Seed(w.stage, members), n);
            Base(v) && OnlyRows(w, v) && v.queue == w.queue
            && v.targets[w.stage] == SeedRows(done + members[..Min(n, |members|)])
    decreases |members|
  {
    hide Base, Commit, CommitPrefix;
    if members == [] {
      assert done + members[..0] == done;
      PrefixAll(w, [], n);
    } else {
      var write := UpsertTarget(w.stage, Target(members[0], TargetPending, None));
      PrefixHead(w, write, Seed(w.stage, members[1..]), n);
      if n == 0 {
        assert done + members[..0] == done;
      } else {
        SeedOne(w, done, members);
        assert (done + [members[0]]) + members[1..] == done + members;
        SeedPrefix(Commit(w, write), done + [members[0]], members[1..], n - 1);
        OnlyRowsCompose(w, Commit(w, write), CommitPrefix(w, Seed(w.stage, members), n));
        assert (done + [members[0]]) + members[1..][..Min(n - 1, |members| - 1)] == done + members[..Min(n, |members|)];
      }
    }
  }

  lemma {:induction false} SeedRowsAt(members: seq<string>)
    ensures |SeedRows(members)| == |members|
    ensures forall i | 0 <= i < |members| :: SeedRows(members)[i] == Target(members[i], TargetPending, None)
  {
    if members != [] {
      SeedRowsAt(members[1..]);
    }
  }

  lemma SeedRowsAppend(members: seq<string>, last: string)
    ensures SeedRows(members + [last]) == SeedRows(members) + [Target(last, TargetPending, None)]
  {
    SeedRowsAt(members);
    SeedRowsAt(members + [last]);
  }

  lemma OnlyRowsCompose(w: World, u: World, v: World)
    requires OnlyRows(w, u) && OnlyRows(u, v)
    ensures OnlyRows(w, v)
  {
  }

  function HandedRow(stage: nat, t: Target): Target {
    Target(t.cluster, TargetDelivered, Some(ApplyKey(stage, t.cluster)))
  }

  lemma PendingIsNotDone(rows: seq<Target>, i: nat)
    requires i < |rows| && rows[i].status.TargetPending?
    ensures !Done(rows)
  {
  }

  lemma EnqueueForRow(w: World, i: nat, version: string)
    requires Ready(w) && i < |w.targets[w.stage]|
    ensures var key := ApplyKey(w.stage, w.targets[w.stage][i].cluster);
            var u := Commit(w, EnqueueCommand(key, version));
            Base(u) && OnlyRows(w, u) && u.targets == w.targets && key in u.queue
  {
    var rows := w.targets[w.stage];
    assert StageRowsOk(w, w.stage);
    SpotOf(rows, i);
    EnqueueKeeps(w, ApplyKey(w.stage, rows[i].cluster), version);
    assert w.targets[w.stage := rows] == w.targets;
  }

  lemma MarkRow(u: World, i: nat)
    requires Ready(u) && i < |u.targets[u.stage]| && u.targets[u.stage][i].status.TargetPending?
    requires ApplyKey(u.stage, u.targets[u.stage][i].cluster) in u.queue
    ensures var t := HandedRow(u.stage, u.targets[u.stage][i]);
            var v := Commit(u, UpsertTarget(u.stage, t));
            Base(v) && OnlyRows(u, v) && v.targets[u.stage] == u.targets[u.stage][i := t]
  {
    var rows := u.targets[u.stage];
    assert StageRowsOk(u, u.stage);
    SpotOf(rows, i);
    PendingIsNotDone(rows, i);
    UpsertKeeps(u, HandedRow(u.stage, rows[i]));
  }

  lemma HandOne(w: World, head: seq<Target>, rows: seq<Target>, version: string)
    requires Ready(w) && w.targets[w.stage] == head + rows
    requires rows != [] && rows[0].status.TargetPending?
    ensures var u := Commit(w, EnqueueCommand(ApplyKey(w.stage, rows[0].cluster), version));
            var v := Commit(u, UpsertTarget(w.stage, HandedRow(w.stage, rows[0])));
            && Base(u) && OnlyRows(w, u) && u.targets == w.targets
            && Base(v) && OnlyRows(w, v) && v.targets[w.stage] == (head + [HandedRow(w.stage, rows[0])]) + rows[1..]
  {
    hide Base, Commit;
    assert (head + rows)[|head|] == rows[0];
    EnqueueForRow(w, |head|, version);
    var u := Commit(w, EnqueueCommand(ApplyKey(w.stage, rows[0].cluster), version));
    MarkRow(u, |head|);
    OnlyRowsCompose(w, u, Commit(u, UpsertTarget(w.stage, HandedRow(w.stage, rows[0]))));
  }

  lemma {:induction false} DeliverPrefix(w: World, head: seq<Target>, rows: seq<Target>, slots: int, version: string, n: nat)
    requires Ready(w) && w.targets[w.stage] == head + rows
    ensures var v := CommitPrefix(w, DeliverBatch(w.stage, rows, slots, version), n);
            Base(v) && OnlyRows(w, v)
            && v.targets[w.stage] == head + Handed(w.stage, rows, Min(slots, n / 2))
    decreases |rows|
  {
    hide Base, Commit, CommitPrefix, OnlyRows, Handed;
    var s := w.stage;
    OnlyRowsReflexive(w);
    HandedNone(s, rows, Min(slots, n / 2));
    if slots <= 0 || rows == [] {
      PrefixAll(w, [], n);
    } else if !rows[0].status.TargetPending? {
      assert head + rows == (head + [rows[0]]) + rows[1..];
      DeliverPrefix(w, head + [rows[0]], rows[1..], slots, version, n);
      HandedSkips(s, head, rows, Min(slots, n / 2));
    } else {
      var t := HandedRow(s, rows[0]);
      var enqueue, mark := EnqueueCommand(ApplyKey(s, t.cluster), version), UpsertTarget(s, t);
      var rest := DeliverBatch(s, rows[1..], slots - 1, version);
      assert DeliverBatch(s, rows, slots, version) == [enqueue] + ([mark] + rest);
      PrefixHead(w, enqueue, [mark] + rest, n);
      if n > 0 {
        HandOne(w, head, rows, version);
        var u := Commit(w, enqueue);
        PrefixHead(u, mark, rest, n - 1);
        if n > 1 {
          var v := Commit(u, mark);
          OnlyRowsInPlace(w, v);
          DeliverPrefix(v, head + [t], rows[1..], slots - 1, version, n - 2);
          OnlyRowsCompose(w, v, CommitPrefix(v, rest, n - 2));
          assert Min(slots - 1, (n - 2) / 2) == Min(slots, n / 2) - 1;
          HandedNext(s, head, rows, Min(slots, n / 2));
        }
      }
    }
  }

  lemma OnlyRowsInPlace(w: World, v: World)
    requires OnlyRows(w, v)
    ensures v.stage == w.stage && v.state == w.state && |v.targets| == |w.targets| && w.stage < |w.targets|
  {
  }

  lemma HandedNext(stage: nat, head: seq<Target>, rows: seq<Target>, slots: int)
    requires rows != [] && rows[0].status.TargetPending? && slots > 0
    ensures (head + [HandedRow(stage, rows[0])]) + Handed(stage, rows[1..], slots - 1) == head + Handed(stage, rows, slots)
  {
  }

  lemma OnlyRowsReflexive(w: World)
    requires w.stage < |w.targets|
    ensures OnlyRows(w, w)
  {
  }

  lemma HandedNone(stage: nat, rows: seq<Target>, slots: int)
    ensures slots <= 0 || rows == [] ==> Handed(stage, rows, slots) == rows
  {
  }

  lemma HandedSkips(stage: nat, head: seq<Target>, rows: seq<Target>, slots: int)
    requires rows != [] && !rows[0].status.TargetPending?
    ensures (head + [rows[0]]) + Handed(stage, rows[1..], slots) == head + Handed(stage, rows, slots)
  {
  }

  /** Row by row, either as before or settled. */
  predicate PartlySettled(before: seq<Target>, after: seq<Target>, queue: Rows<CommandKey>) {
    |after| == |before|
    && forall i | 0 <= i < |before| :: after[i] == before[i] || after[i] == Settle(before[i], queue)
  }

  lemma PartlySettledHead(head: seq<Target>, first: Target, rest: seq<Target>, after: seq<Target>, queue: Rows<CommandKey>)
    requires Settle(Settle(first, queue), queue) == Settle(first, queue)
    requires PartlySettled((head + [Settle(first, queue)]) + rest, after, queue)
    ensures PartlySettled(head + ([first] + rest), after, queue)
  {
    var before, middle := head + ([first] + rest), (head + [Settle(first, queue)]) + rest;
    forall i | 0 <= i < |before| ensures after[i] == before[i] || after[i] == Settle(before[i], queue) {
      if i != |head| {
        assert middle[i] == before[i];
      }
    }
  }

  lemma SettleOne(w: World, head: seq<Target>, rows: seq<Target>)
    requires Ready(w) && w.targets[w.stage] == head + rows && rows != []
    requires Settle(rows[0], w.queue).status != rows[0].status
    ensures var t := Settle(rows[0], w.queue);
            var v := Commit(w, SetTargetStatus(w.stage, rows[0].cluster, t.status));
            Base(v) && OnlyRows(w, v) && v.queue == w.queue && v.targets[w.stage] == (head + [t]) + rows[1..]
  {
    var t := Settle(rows[0], w.queue);
    assert (head + rows)[|head|] == rows[0];
    assert StageRowsOk(w, w.stage) && RowOk(w, w.stage, rows[0]);
    SpotOf(head + rows, |head|);
    SetStatusKeeps(w, rows[0].cluster, t.status);
  }

  lemma {:induction false} ReconcilePrefix(w: World, head: seq<Target>, rows: seq<Target>, n: nat)
    requires Ready(w) && w.targets[w.stage] == head + rows
    ensures var writes := Reconcile(w.stage, rows, w.queue);
            var v := CommitPrefix(w, writes, n);
            Base(v) && OnlyRows(w, v) && v.queue == w.queue
            && PartlySettled(head + rows, v.targets[w.stage], w.queue)
            && (n >= |writes| ==> v.targets[w.stage] == head + SettleAll(rows, w.queue))
    decreases |rows|
  {
    hide Base, Commit, CommitPrefix, Settle;
    var s := w.stage;
    if rows == [] {
      assert head + rows == head;
      PrefixAll(w, [], n);
      NothingSettled(w, head);
    } else {
      var t := Settle(rows[0], w.queue);
      var rest := Reconcile(s, rows[1..], w.queue);
      var after := SettleAll(rows[1..], w.queue);
      assert SettleAll(rows, w.queue) == [t] + after;
      assert head + ([t] + after) == (head + [t]) + after;
      if t.status == rows[0].status {
        SettledRows(w, head, rows);
        ReconcilePrefix(w, head + [t], rows[1..], n);
      } else {
        var write := SetTargetStatus(s, rows[0].cluster, t.status);
        assert Reconcile(s, rows, w.queue) == [write] + rest;
        PrefixHead(w, write, rest, n);
        if n > 0 {
          SettleOne(w, head, rows);
          var v := Commit(w, write);
          ReconcilePrefix(v, head + [t], rows[1..], n - 1);
          OnlyRowsCompose(w, v, CommitPrefix(v, rest, n - 1));
          assert rows == [rows[0]] + rows[1..];
          SettlingTwice(rows[0], w.queue);
          PartlySettledHead(head, rows[0], rows[1..], CommitPrefix(v, rest, n - 1).targets[s], w.queue);
        }
      }
    }
  }

  lemma SettlingTwice(t: Target, queue: Rows<CommandKey>)
    ensures Settle(Settle(t, queue), queue) == Settle(t, queue)
  {
  }

  lemma NothingSettled(w: World, head: seq<Target>)
    requires w.stage < |w.targets| && w.targets[w.stage] == head
    ensures OnlyRows(w, w) && PartlySettled(head, head, w.queue) && head + SettleAll([], w.queue) == head
  {
  }

  lemma UnsettledRow(t: Target, queue: Rows<CommandKey>)
    requires Settle(t, queue).status == t.status
    ensures Settle(t, queue) == t
  {
  }

  lemma SettledRows(w: World, head: seq<Target>, rows: seq<Target>)
    requires rows != [] && Settle(rows[0], w.queue).status == rows[0].status
    ensures Reconcile(w.stage, rows, w.queue) == Reconcile(w.stage, rows[1..], w.queue)
    ensures head + rows == (head + [Settle(rows[0], w.queue)]) + rows[1..]
  {
    hide Settle;
    UnsettledRow(rows[0], w.queue);
  }
}
