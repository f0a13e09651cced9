/** What an advance step, a seeding, a reconciliation and a batch do to the stored rollout as a whole. */
module RolloutEffects {
  import opened Wrappers
  import opened Stages
  import opened ClusterSets
  import opened CommandIds
  import opened CommandQueue
  import opened RolloutModel
  import Model = RolloutModel
  import Batches = RolloutBatches
  import opened RolloutSafety

  lemma {:induction false} CountAppend(rows: seq<Target>, last: Target, status: TargetStatus)
    ensures Count(rows + [last], status) == Count(rows, status) + (if last.status == status then 1 else 0)
  {
    if rows == [] {
      assert rows + [last] == [last];
      assert Count([last], status) == (if last.status == status then 1 else 0) + Count([last][1..], status);
    } else {
      assert (rows + [last])[1..] == rows[1..] + [last];
      CountAppend(rows[1..], last, status);
    }
  }

  /** The primary key of the target rows: one per rollout, cluster and stage. */
  predicate Keyed(w: World) {
    forall s | 0 <= s < |w.targets| :: Distinct(w.targets[s])
  }

  lemma CommitKeepsKeyed(w: World, write: Write)
    requires Keyed(w)
    ensures Keyed(Commit(w, write))
  {
    match write
    case UpsertTarget(s, t) =>
      if s < |w.targets| {
        UpsertFacts(w.targets[s], t);
      }
    case SetTargetStatus(s, cluster, status) =>
      if s < |w.targets| {
        var after := SetRowStatus(w.targets[s], cluster, status);
        assert forall i | 0 <= i < |after| :: after[i].cluster == w.targets[s][i].cluster;
      }
    case _ =>
  }

  lemma {:induction false} CommitAllKeepsKeyed(w: World, writes: seq<Write>)
    requires Keyed(w)
    ensures Keyed(CommitAll(w, writes))
    decreases |writes|
  {
    if writes != [] {
      CommitKeepsKeyed(w, writes[0]);
      CommitAllKeepsKeyed(Commit(w, writes[0]), writes[1..]);
    }
  }

  /** Seeding a stage without rows leaves exactly the members, pending, in order. */
  lemma {:induction false} SeedEffect(w: World, s: nat, done: seq<string>, members: seq<string>)
    requires s < |w.targets| && w.targets[s] == Model.SeedRows(done) && NoDuplicates(done + members)
    ensures CommitAll(w, Seed(s, members)) == w.(targets := w.targets[s := Model.SeedRows(done + members)])
    decreases |members|
  {
    if members == [] {
      assert done + members == done;
    } else {
      var t := Target(members[0], TargetPending, None);
      Batches.SeedRowsAt(done);
      assert forall i | 0 <= i < |done| :: done[i] == (done + members)[i];
      assert (done + members)[|done|] == members[0];
      Batches.SeedRowsAppend(done, members[0]);
      assert (done + [members[0]]) + members[1..] == done + members;
      var v := Commit(w, UpsertTarget(s, t));
      SeedEffect(v, s, done + [members[0]], members[1..]);
      assert Seed(s, members)[1..] == Seed(s, members[1..]);
    }
  }

  lemma ReconcileStep(w: World, s: nat, rows: seq<Target>, queue: Rows<CommandKey>)
    requires rows != []
    ensures var settled := Settle(rows[0], queue).status;
            var v := if settled == rows[0].status then w else Commit(w, SetTargetStatus(s, rows[0].cluster, settled));
            CommitAll(w, Reconcile(s, rows, queue)) == CommitAll(v, Reconcile(s, rows[1..], queue))
  {
    var settled := Settle(rows[0], queue).status;
    var rest := Reconcile(s, rows[1..], queue);
    if settled == rows[0].status {
      assert Reconcile(s, rows, queue) == rest;
    } else {
      assert Reconcile(s, rows, queue)[1..] == rest;
    }
  }

  lemma SettleFirst(w: World, s: nat, head: seq<Target>, rows: seq<Target>)
    requires s < |w.targets| && w.targets[s] == head + rows && Distinct(head + rows) && rows != []
    ensures var t := Settle(rows[0], w.queue);
            var after := (head + [t]) + rows[1..];
            && Distinct(after)
            && (if t.status == rows[0].status then w else Commit(w, SetTargetStatus(s, rows[0].cluster, t.status)))
               == w.(targets := w.targets[s := after])
  {
    hide Settle;
    var t := Settle(rows[0], w.queue);
    var after := (head + [t]) + rows[1..];
    SettleKeepsRow(rows[0], w.queue);
    assert (head + rows)[|head|] == rows[0];
    Batches.SpotOf(head + rows, |head|);
    assert after == (head + rows)[|head| := rows[0].(status := t.status)];
    assert forall i | 0 <= i < |after| :: after[i].cluster == (head + rows)[i].cluster;
    if t.status == rows[0].status {
      assert after == head + rows;
      assert w.targets[s := after] == w.targets;
    } else {
      var v := Commit(w, SetTargetStatus(s, rows[0].cluster, t.status));
      assert v.targets == w.targets[s := after];
    }
  }

  lemma SettleKeepsRow(t: Target, queue: Rows<CommandKey>)
    ensures Settle(t, queue) == t.(status := Settle(t, queue).status)
  {
  }

  lemma NothingToSettle(w: World, s: nat, head: seq<Target>)
    requires s < |w.targets| && w.targets[s] == head
    ensures w == w.(targets := w.targets[s := head + SettleAll([], w.queue)])
  {
    assert head + [] == head;
    assert w.targets[s := head] == w.targets;
  }

  lemma SettledAppend(head: seq<Target>, rows: seq<Target>, queue: Rows<CommandKey>)
    requires rows != []
    ensures (head + [Settle(rows[0], queue)]) + SettleAll(rows[1..], queue) == head + SettleAll(rows, queue)
  {
    assert SettleAll(rows, queue) == [Settle(rows[0], queue)] + SettleAll(rows[1..], queue);
  }

  /** Reconciling a stage settles each of its rows and touches nothing else. */
  lemma {:induction false} ReconcileEffect(w: World, s: nat, head: seq<Target>, rows: seq<Target>)
    requires s < |w.targets| && w.targets[s] == head + rows && Distinct(head + rows)
    ensures CommitAll(w, Reconcile(s, rows, w.queue)) == w.(targets := w.targets[s := head + SettleAll(rows, w.queue)])
    decreases |rows|
  {
    hide Settle, Commit, Distinct, SettleAll;
    if rows == [] {
      NothingToSettle(w, s, head);
      assert head + rows == head;
    } else {
      var t := Settle(rows[0], w.queue);
      var after := (head + [t]) + rows[1..];
      SettleFirst(w, s, head, rows);
      ReconcileStep(w, s, rows, w.queue);
      var v := w.(targets := w.targets[s := after]);
      ReconcileEffect(v, s, head + [t], rows[1..]);
      SettledAppend(head, rows, w.queue);
      assert v.targets[s := head + SettleAll(rows, w.queue)] == w.targets[s := head + SettleAll(rows, w.queue)];
    }
  }

  lemma AfterReconcileIgnoresRows(w: World, v: World, rows: seq<Target>)
    requires w.stage < |w.stages| && v == w.(targets := v.targets)
    ensures AfterReconcile(v, rows) == AfterReconcile(w, rows)
  {
    hide Count, DeliverBatch, ParseMaxConcurrency, StageMembers;
  }

  /** Driving a stage: settle its rows, then decide by the settled rows alone. */
  lemma DriveSplits(w: World)
    requires WellFormed(w) && Keyed(w) && w.stage < |w.stages|
    ensures var rows := SettleAll(w.targets[w.stage], w.queue);
            var v := w.(targets := w.targets[w.stage := rows]);
            && CommitAll(w, Reconcile(w.stage, w.targets[w.stage], w.queue)) == v
            && CommitAll(w, DriveStage(w)) == CommitAll(v, AfterReconcile(v, rows))
  {
    var rows := SettleAll(w.targets[w.stage], w.queue);
    var v := w.(targets := w.targets[w.stage := rows]);
    assert [] + w.targets[w.stage] == w.targets[w.stage] && [] + rows == rows;
    ReconcileEffect(w, w.stage, [], w.targets[w.stage]);
    AfterReconcileIgnoresRows(w, v, rows);
    hide CommitAll, Settle, SettleAll, Reconcile, AfterReconcile, Keyed;
    Batches.CommitAllSplit(w, Reconcile(w.stage, w.targets[w.stage], w.queue), AfterReconcile(w, rows));
  }

  lemma CountNext(rows: seq<Target>, i: nat, status: TargetStatus)
    requires i < |rows|
    ensures Count(rows[..i + 1], status) == Count(rows[..i], status) + (if rows[i].status == status then 1 else 0)
  {
    assert rows[..i + 1] == rows[..i] + [rows[i]];
    CountAppend(rows[..i], rows[i], status);
  }

  lemma NoWritesLeft(w: World)
    ensures CommitAll(w, []) == w
  {
  }

  lemma NoneCounted()
    ensures forall status :: Count([], status) == 0
  {
  }

  lemma NothingToReconcile(w: World, s: nat, queue: Rows<CommandKey>)
    ensures CommitAll(w, Reconcile(s, [], queue)) == w
  {
  }

  lemma CommitTwo(w: World, a: Write, b: Write)
    ensures CommitAll(w, [a, b]) == Commit(Commit(w, a), b)
  {
    assert [a, b][1..] == [b] && [b][1..] == [];
    assert CommitAll(Commit(w, a), [b]) == CommitAll(Commit(Commit(w, a), b), []);
  }

  /** A pending row's command enqueued, then the row marked. */
  function AfterHand(w: World, s: nat, cluster: string): World {
    var hand := Hand(s, cluster, w.desired);
    Commit(Commit(w, hand[0]), hand[1])
  }

  lemma DeliverStep(w: World, s: nat, rows: seq<Target>, slots: int)
    requires rows != [] && slots > 0 && rows[0].status.TargetPending?
    ensures CommitAll(w, DeliverBatch(s, rows, slots, w.desired))
            == CommitAll(AfterHand(w, s, rows[0].cluster), DeliverBatch(s, rows[1..], slots - 1, w.desired))
  {
    var hand := Hand(s, rows[0].cluster, w.desired);
    Batches.CommitAllSplit(w, hand, DeliverBatch(s, rows[1..], slots - 1, w.desired));
    CommitTwo(w, hand[0], hand[1]);
  }

  lemma DeliverNothing(w: World, s: nat, rows: seq<Target>, slots: int)
    requires rows == [] || slots <= 0
    ensures CommitAll(w, DeliverBatch(s, rows, slots, w.desired)) == w
  {
  }

  lemma DeliverSkip(s: nat, rows: seq<Target>, slots: int, version: string)
    requires rows != [] && !rows[0].status.TargetPending?
    ensures DeliverBatch(s, rows, slots, version) == DeliverBatch(s, rows[1..], slots, version)
  {
  }

  // ----- What one whole advance step makes of a rollout

  /** A delivered target is healthy once its command was acknowledged and failed once it was refused; nothing
      else changes a target's status. */
  predicate SettledRow(before: Target, after: Target, queue: Rows<CommandKey>) {
    var answered := before.status.TargetDelivered? && before.command.Some? && before.command.value in queue;
    after.cluster == before.cluster && after.command == before.command &&
    if answered && queue[before.command.value].status.CommandAcked? then after.status.TargetHealthy?
    else if answered && queue[before.command.value].status.CommandNacked? then after.status.TargetFailed?
    else after.status == before.status
  }

  predicate SettledRows(before: seq<Target>, after: seq<Target>, queue: Rows<CommandKey>) {
    |after| == |before| && forall i | 0 <= i < |before| :: SettledRow(before[i], after[i], queue)
  }

  /** Of the pending rows, in order, the first `slots` are handed over. */
  predicate IsHanded(rows: seq<Target>, i: nat, slots: int)
    requires i < |rows|
  {
    rows[i].status.TargetPending? && Count(rows[..i], TargetPending) < slots
  }

  /** Each of those becomes delivered under its own command, and no other row moves; the rows come after
      others that are not looked at. */
  ghost predicate RowsHanded(stage: nat, head: seq<Target>, rows: seq<Target>, slots: int, after: seq<Target>) {
    && |after| == |head| + |rows|
    && (forall i | 0 <= i < |head| :: after[i] == head[i])
    && (forall i | 0 <= i < |rows| ::
          after[|head| + i] == if IsHanded(rows, i, slots)
                               then Target(rows[i].cluster, TargetDelivered, Some(CommandKey(stage, rows[i].cluster, Apply)))
                               else rows[i])
  }

  /** Each has a command, which asks for the desired version and is pending unless there was one under that id;
      no other command moves. */
  ghost predicate CommandsHanded(u: World, rows: seq<Target>, slots: int, queue: Rows<CommandKey>) {
    && (forall i | 0 <= i < |rows| && IsHanded(rows, i, slots) :: CommandKey(u.stage, rows[i].cluster, Apply) in queue)
    && (forall k | k in u.queue :: k in queue && queue[k] == u.queue[k])
    && (forall k | k in queue && k !in u.queue ::
          k.stage == u.stage && k.suffix.Apply?
          && (exists i | 0 <= i < |rows| :: IsHanded(rows, i, slots) && rows[i].cluster == k.cluster)
          && queue[k] == Command(k.cluster, "inari.fleet.RolloutApply", DesiredState(u.about, u.desired), CommandPending, 0, "", u.now, u.now))
  }

  /** Handing over so many rows of the current stage, and nothing else. */
  ghost predicate HandsOver(u: World, v: World, slots: int) {
    && u.stage < |u.targets| && |v.targets| == |u.targets|
    && v == u.(targets := u.targets[u.stage := v.targets[u.stage]], queue := v.queue)
    && RowsHanded(u.stage, [], u.targets[u.stage], slots, v.targets[u.stage])
    && CommandsHanded(u, u.targets[u.stage], slots, v.queue)
  }

  /** Parking: the gate is open from now on; an approval gate comes with one new, pending request, linked to it. */
  predicate ParksOn(u: World, v: World, side: Side, kind: GateKind) {
    var asks := kind.Approval?;
    v == u.(state := WaitingGate,
            gate := Some(GateContext(side, kind, u.now, if asks then Some(|u.approvals|) else None)),
            approvals := if asks then u.approvals + [GateApproval(u.stage, side, ApprovalPending)] else u.approvals,
            entered := u.entered[(u.stage, side) := u.now])
  }

  /** At a gate: a missing request is made up for, a wait that is over is left, and nothing else happens. */
  predicate AtGate(w: World, v: World) {
    if w.gate.None? then v == w.(state := Running)
    else
      var g := w.gate.value;
      if g.kind.Approval? && g.approvalId.None? then
        v == w.(gate := Some(g.(approvalId := Some(|w.approvals|))),
                approvals := w.approvals + [GateApproval(w.stage, g.side, ApprovalPending)])
      else if g.kind.Wait? && w.now >= g.enteredAt + g.kind.seconds then
        v == w.(state := Running, gate := None, stage := if g.side.After? then w.stage + 1 else w.stage)
      else v == w
  }

  /** Each member has a pending row; then comes the before gate, or else a first batch. */
  ghost predicate SeedsAndGoesOn(w: World, members: seq<string>, v: World)
    requires WellFormed(w) && w.stage < |w.stages|
  {
    var u := w.(targets := w.targets[w.stage := seq(|members|, i requires 0 <= i < |members| => Target(members[i], TargetPending, None))]);
    match w.stages[w.stage].beforeGate
    case Some(kind) => ParksOn(u, v, Before, kind)
    case None =>
      match Slots(w, w.stage, |members|)
      case None => v == u
      case Some(n) => HandsOver(u, v, n)
  }

  /** Into a stage: a missing cluster set stops it, and without members the rollout fails. */
  ghost predicate IntoStage(w: World, v: World)
    requires WellFormed(w) && w.stage < |w.stages|
  {
    match Members(w, w.stage)
    case None => v == w
    case Some(members) => if members == [] then v == w.(state := Failed) else SeedsAndGoesOn(w, members, v)
  }

  /** With the answers taken in: any failed target fails the rollout; while some are open, as many more are
      handed over as the concurrency leaves free; then comes the after gate or the next stage. */
  ghost predicate Decides(u: World, v: World)
    requires WellFormed(u) && u.stage < |u.stages|
  {
    var rows := u.targets[u.stage];
    if exists i | 0 <= i < |rows| :: rows[i].status.TargetFailed? then v == u.(state := Failed)
    else if exists i | 0 <= i < |rows| :: rows[i].status.TargetPending? || rows[i].status.TargetDelivered? then
      match Members(u, u.stage)
      case None => v == u
      case Some(members) =>
        match Slots(u, u.stage, |members|)
        case None => v == u
        case Some(n) => HandsOver(u, v, n - |set i | 0 <= i < |rows| && rows[i].status.TargetDelivered?|)
    else
      match u.stages[u.stage].afterGate
      case Some(kind) => ParksOn(u, v, After, kind)
      case None => v == u.(stage := u.stage + 1, gate := None)
  }

  ghost predicate ThroughStage(w: World, v: World)
    requires WellFormed(w) && w.stage < |w.stages|
  {
    exists rows: seq<Target> ::
      SettledRows(w.targets[w.stage], rows, w.queue) && Decides(w.(targets := w.targets[w.stage := rows]), v)
  }

  /** What one whole advance step makes of a rollout, in every state. */
  ghost predicate Advanced(w: World, v: World)
    requires WellFormed(w)
  {
    match w.state
    case WaitingGate => AtGate(w, v)
    case Running =>
      if w.stage >= |w.stages| then v == w.(state := Completed, gate := None)
      else if w.targets[w.stage] == [] then IntoStage(w, v)
      else ThroughStage(w, v)
    case _ => v == w
  }

  // ----- That is what its writes come to

  lemma CommitNone(w: World)
    ensures CommitAll(w, []) == w
  {
  }

  lemma OneMove(w: World, to: RolloutState, stage: nat, gate: Option<GateContext>)
    requires CanRolloutTransition(w.state, to) && (!to.WaitingGate? || gate.None?)
    ensures CommitAll(w, Model.Transition(w, to, stage, gate)) == w.(state := to, stage := stage, gate := gate)
  {
    assert [Cas(w.state, to, stage, gate)][1..] == [];
  }

  lemma GateIsEntered(w: World, side: Side, kind: GateKind)
    requires w.state.Running?
    ensures ParksOn(w, CommitAll(w, Model.EnterGate(w, w.stage, side, kind)), side, kind)
  {
    var gate := Some(GateContext(side, kind, w.now, None));
    var enter := Cas(w.state, WaitingGate, w.stage, gate);
    var u := Commit(w, enter);
    assert [enter][1..] == [];
    assert CommitAll(w, [enter]) == u;
    if kind.Approval? {
      Batches.CommitAllSplit(w, [enter], AskFor(w, w.stage, side));
      CommitTwo(u, RequestApproval(w.stage, side), LinkApproval(w.stage, side, |w.approvals|));
    } else {
      assert [enter] + [] == [enter];
    }
  }

  lemma GateStep(w: World)
    requires WellFormed(w) && w.state.WaitingGate?
    ensures AtGate(w, CommitAll(w, Model.AdvanceOnce(w)))
  {
    CommitNone(w);
    if w.gate.None? {
      OneMove(w, Running, w.stage, None);
    } else {
      var g := w.gate.value;
      OneMove(w, Running, if g.side.After? then w.stage + 1 else w.stage, None);
      CommitTwo(w, RequestApproval(w.stage, g.side), LinkApproval(w.stage, g.side, |w.approvals|));
    }
  }

  // ----- Handing over

  lemma CountSplits(first: Target, rest: seq<Target>, i: nat, status: TargetStatus)
    requires i <= |rest|
    ensures Count(([first] + rest)[..i + 1], status) == (if first.status == status then 1 else 0) + Count(rest[..i], status)
  {
    assert ([first] + rest)[..i + 1] == [first] + rest[..i];
    assert ([first] + rest[..i])[1..] == rest[..i];
  }

  lemma HandedFirst(rows: seq<Target>, slots: int)
    requires rows != []
    ensures IsHanded(rows, 0, slots) <==> rows[0].status.TargetPending? && slots > 0
    ensures forall i | 1 <= i < |rows| ::
              IsHanded(rows, i, slots) <==> IsHanded(rows[1..], i - 1, if rows[0].status.TargetPending? then slots - 1 else slots)
  {
    assert rows[..0] == [];
    assert [rows[0]] + rows[1..] == rows;
    forall i | 1 <= i < |rows|
      ensures IsHanded(rows, i, slots) <==> IsHanded(rows[1..], i - 1, if rows[0].status.TargetPending? then slots - 1 else slots)
    {
      CountSplits(rows[0], rows[1..], i - 1, TargetPending);
    }
  }

  lemma NoneHanded(rows: seq<Target>, slots: int)
    requires slots <= 0
    ensures forall i | 0 <= i < |rows| :: !IsHanded(rows, i, slots)
  {
  }

  lemma HandEffect(w: World, head: seq<Target>, rows: seq<Target>)
    requires w.stage < |w.targets| && w.targets[w.stage] == head + rows && Distinct(head + rows) && rows != []
    ensures var key := CommandKey(w.stage, rows[0].cluster, Apply);
            var t := Target(rows[0].cluster, TargetDelivered, Some(key));
            && AfterHand(w, w.stage, rows[0].cluster)
               == w.(targets := w.targets[w.stage := (head + [t]) + rows[1..]],
                     queue := if key in w.queue then w.queue
                              else w.queue[key := Command(rows[0].cluster, "inari.fleet.RolloutApply", DesiredState(w.about, w.desired), CommandPending, 0, "", w.now, w.now)])
            && Distinct((head + [t]) + rows[1..])
  {
    hide DesiredState;
    var key := CommandKey(w.stage, rows[0].cluster, Apply);
    var t := Target(rows[0].cluster, TargetDelivered, Some(key));
    assert (head + rows)[|head|] == rows[0];
    Batches.SpotOf(head + rows, |head|);
    var after := (head + [t]) + rows[1..];
    assert after == (head + rows)[|head| := t];
    assert forall i | 0 <= i < |after| :: after[i].cluster == (head + rows)[i].cluster;
  }

  lemma RowsCompose(stage: nat, head: seq<Target>, rows: seq<Target>, slots: int, mid: Target, rest: int, after: seq<Target>)
    requires rows != []
    requires RowsHanded(stage, head + [mid], rows[1..], rest, after)
    requires if rows[0].status.TargetPending? && slots > 0
             then mid == Target(rows[0].cluster, TargetDelivered, Some(CommandKey(stage, rows[0].cluster, Apply))) && rest == slots - 1
             else mid == rows[0] && rest == slots && !rows[0].status.TargetPending?
    ensures RowsHanded(stage, head, rows, slots, after)
  {
    hide IsHanded;
    HandedFirst(rows, slots);
    forall i | 0 <= i < |head| ensures after[i] == head[i] {
      assert (head + [mid])[i] == head[i];
    }
    assert after[|head|] == (head + [mid])[|head|] == mid;
    forall i | 1 <= i < |rows|
      ensures after[|head| + i] == if IsHanded(rows, i, slots)
                                   then Target(rows[i].cluster, TargetDelivered, Some(CommandKey(stage, rows[i].cluster, Apply)))
                                   else rows[i]
    {
      assert rows[i] == rows[1..][i - 1];
      assert after[|head + [mid]| + (i - 1)] == after[|head| + i];
    }
  }

  lemma CommandsCompose(u: World, mid: World, rows: seq<Target>, slots: int, rest: int, queue: Rows<CommandKey>)
    requires rows != [] && mid == u.(targets := mid.targets, queue := mid.queue)
    requires CommandsHanded(mid, rows[1..], rest, queue)
    requires var key := CommandKey(u.stage, rows[0].cluster, Apply);
             if rows[0].status.TargetPending? && slots > 0
             then rest == slots - 1
                  && mid.queue == if key in u.queue then u.queue
                                  else u.queue[key := Command(rows[0].cluster, "inari.fleet.RolloutApply", DesiredState(u.about, u.desired), CommandPending, 0, "", u.now, u.now)]
             else rest == slots && !rows[0].status.TargetPending? && mid.queue == u.queue
    ensures CommandsHanded(u, rows, slots, queue)
  {
    hide IsHanded, DesiredState;
    HandedFirst(rows, slots);
    forall i | 0 <= i < |rows| && IsHanded(rows, i, slots) ensures CommandKey(u.stage, rows[i].cluster, Apply) in queue {
      if i > 0 {
        assert IsHanded(rows[1..], i - 1, rest);
        assert rows[1..][i - 1] == rows[i];
      }
    }
    forall k | k in queue && k !in u.queue
      ensures exists i | 0 <= i < |rows| :: IsHanded(rows, i, slots) && rows[i].cluster == k.cluster
    {
      if k in mid.queue {
        assert IsHanded(rows, 0, slots) && rows[0].cluster == k.cluster;
      } else {
        var j :| 0 <= j < |rows[1..]| && IsHanded(rows[1..], j, rest) && rows[1..][j].cluster == k.cluster;
        assert IsHanded(rows, j + 1, slots) && rows[j + 1].cluster == k.cluster;
      }
    }
  }

  lemma NothingHanded(w: World, head: seq<Target>, rows: seq<Target>, slots: int)
    requires w.stage < |w.targets| && w.targets[w.stage] == head + rows && (rows == [] || slots <= 0)
    ensures w == w.(targets := w.targets[w.stage := head + rows], queue := w.queue)
    ensures RowsHanded(w.stage, head, rows, slots, head + rows) && CommandsHanded(w, rows, slots, w.queue)
  {
    assert w.targets[w.stage := head + rows] == w.targets;
    if slots <= 0 {
      NoneHanded(rows, slots);
    }
    hide IsHanded;
  }

  /** What a batch comes to. */
  lemma {:induction false} DeliverHands(w: World, head: seq<Target>, rows: seq<Target>, slots: int)
    requires w.stage < |w.targets| && w.targets[w.stage] == head + rows && Distinct(head + rows)
    ensures var v := CommitAll(w, DeliverBatch(w.stage, rows, slots, w.desired));
            && |v.targets| == |w.targets|
            && v == w.(targets := w.targets[w.stage := v.targets[w.stage]], queue := v.queue)
            && RowsHanded(w.stage, head, rows, slots, v.targets[w.stage])
            && CommandsHanded(w, rows, slots, v.queue)
    decreases |rows|
  {
    hide IsHanded, DesiredState, AfterHand, DeliverBatch, CommitAll, RowsHanded, CommandsHanded, Distinct;
    if rows == [] || slots <= 0 {
      DeliverNothing(w, w.stage, rows, slots);
      NothingHanded(w, head, rows, slots);
    } else if rows[0].status.TargetPending? {
      var t := Target(rows[0].cluster, TargetDelivered, Some(CommandKey(w.stage, rows[0].cluster, Apply)));
      HandEffect(w, head, rows);
      DeliverStep(w, w.stage, rows, slots);
      var mid := AfterHand(w, w.stage, rows[0].cluster);
      DeliverHands(mid, head + [t], rows[1..], slots - 1);
      var v := CommitAll(mid, DeliverBatch(w.stage, rows[1..], slots - 1, w.desired));
      RowsCompose(w.stage, head, rows, slots, t, slots - 1, v.targets[w.stage]);
      CommandsCompose(w, mid, rows, slots, slots - 1, v.queue);
    } else {
      DeliverSkip(w.stage, rows, slots, w.desired);
      assert (head + [rows[0]]) + rows[1..] == head + rows;
      DeliverHands(w, head + [rows[0]], rows[1..], slots);
      var v := CommitAll(w, DeliverBatch(w.stage, rows, slots, w.desired));
      RowsCompose(w.stage, head, rows, slots, rows[0], slots, v.targets[w.stage]);
      CommandsCompose(w, w, rows, slots, slots, v.queue);
    }
  }

  lemma BatchHandsOver(w: World, slots: int)
    requires w.stage < |w.targets| && Distinct(w.targets[w.stage])
    ensures HandsOver(w, CommitAll(w, DeliverBatch(w.stage, w.targets[w.stage], slots, w.desired)), slots)
  {
    hide IsHanded, DesiredState, DeliverBatch, CommitAll, Distinct, RowsHanded, CommandsHanded;
    var rows := w.targets[w.stage];
    assert [] + rows == rows;
    DeliverHands(w, [], rows, slots);
  }

  // ----- One advance step

  lemma {:induction false} CountIsSome(rows: seq<Target>, status: TargetStatus)
    ensures Count(rows, status) > 0 <==> exists i | 0 <= i < |rows| :: rows[i].status == status
  {
    if rows != [] {
      CountIsSome(rows[1..], status);
      if i :| 0 <= i < |rows[1..]| && rows[1..][i].status == status {
        assert rows[i + 1].status == status;
      }
      if i :| 0 <= i < |rows| && rows[i].status == status {
        assert i > 0 ==> rows[1..][i - 1].status == status;
      }
    }
  }

  function OfStatus(rows: seq<Target>, status: TargetStatus): set<int> {
    set i | 0 <= i < |rows| && rows[i].status == status
  }

  lemma {:induction false} CountIsSize(rows: seq<Target>, status: TargetStatus)
    ensures Count(rows, status) == |OfStatus(rows, status)|
  {
    hide OfStatus, Count;
    if rows == [] {
      NoneOfStatus(status);
    } else {
      var n := |rows| - 1;
      CountIsSize(rows[..n], status);
      assert rows[..n] + [rows[n]] == rows;
      CountAppend(rows[..n], rows[n], status);
      OneMoreOfStatus(rows[..n], rows[n], status);
    }
  }

  lemma NoneOfStatus(status: TargetStatus)
    ensures OfStatus([], status) == {} && Count([], status) == 0
  {
  }

  lemma OneMoreOfStatus(rows: seq<Target>, last: Target, status: TargetStatus)
    ensures |OfStatus(rows + [last], status)| == |OfStatus(rows, status)| + (if last.status == status then 1 else 0)
  {
    var before := OfStatus(rows, status);
    assert OfStatus(rows + [last], status) == if last.status == status then before + {|rows|} else before;
  }

  lemma SettleAllSettles(rows: seq<Target>, queue: Rows<CommandKey>)
    ensures SettledRows(rows, SettleAll(rows, queue), queue)
  {
  }

  lemma SettlingKeepsKeys(rows: seq<Target>, queue: Rows<CommandKey>)
    requires Distinct(rows)
    ensures Distinct(SettleAll(rows, queue))
  {
    assert forall i | 0 <= i < |rows| :: SettleAll(rows, queue)[i].cluster == rows[i].cluster;
  }

  lemma DecisionIs(u: World)
    requires WellFormed(u) && u.state.Running? && u.stage < |u.stages| && Distinct(u.targets[u.stage])
    ensures Decides(u, CommitAll(u, AfterReconcile(u, u.targets[u.stage])))
  {
    hide HandsOver, ParksOn, DeliverBatch, Distinct, Members, Slots, Count, CommitAll, EnterGate, Model.Transition, OfStatus;
    var rows := u.targets[u.stage];
    CountIsSome(rows, TargetFailed);
    CountIsSome(rows, TargetPending);
    CountIsSome(rows, TargetDelivered);
    CountDelivered(rows);
    CommitNone(u);
    OneMove(u, Failed, u.stage, u.gate);
    LeavesStage(u);
    if Members(u, u.stage).Some? {
      var slots := Slots(u, u.stage, |Members(u, u.stage).value|);
      if slots.Some? {
        BatchHandsOver(u, slots.value - Count(rows, TargetDelivered));
      }
    }
    if u.stages[u.stage].afterGate.Some? {
      GateIsEntered(u, After, u.stages[u.stage].afterGate.value);
    }
  }

  lemma CountDelivered(rows: seq<Target>)
    ensures Count(rows, TargetDelivered) == |set i | 0 <= i < |rows| && rows[i].status.TargetDelivered?|
  {
    CountIsSize(rows, TargetDelivered);
    assert OfStatus(rows, TargetDelivered) == set i | 0 <= i < |rows| && rows[i].status.TargetDelivered?;
  }

  lemma LeavesStage(u: World)
    ensures CommitAll(u, [Cas(u.state, u.state, u.stage + 1, None)]) == u.(stage := u.stage + 1, gate := None)
  {
    assert [Cas(u.state, u.state, u.stage + 1, None)][1..] == [];
  }

  lemma DriveStep(w: World)
    requires WellFormed(w) && Keyed(w) && w.state.Running? && w.stage < |w.stages|
    ensures ThroughStage(w, CommitAll(w, DriveStage(w)))
  {
    hide CommitAll, DriveStage, AfterReconcile, Decides, Settle, Reconcile;
    var rows := SettleAll(w.targets[w.stage], w.queue);
    var u := w.(targets := w.targets[w.stage := rows]);
    DriveSplits(w);
    SettlesAsTold(w);
    DecisionIs(u);
    assert u.targets[u.stage] == rows;
  }

  lemma SettlesAsTold(w: World)
    requires WellFormed(w) && Keyed(w) && w.stage < |w.stages|
    ensures var rows := SettleAll(w.targets[w.stage], w.queue);
            SettledRows(w.targets[w.stage], rows, w.queue) && Distinct(rows)
  {
    SettleAllSettles(w.targets[w.stage], w.queue);
    SettlingKeepsKeys(w.targets[w.stage], w.queue);
  }

  lemma SeededIs(members: seq<string>)
    ensures SeedRows(members) == seq(|members|, i requires 0 <= i < |members| => Target(members[i], TargetPending, None))
  {
    Batches.SeedRowsAt(members);
  }

  lemma AfterSeedingIs(w: World, u: World, members: seq<string>)
    requires WellFormed(w) && w.state.Running? && w.stage < |w.stages|
    requires u == w.(targets := w.targets[w.stage := SeedRows(members)]) && Distinct(SeedRows(members))
    ensures SeedsAndGoesOn(w, members, CommitAll(u, AfterSeeding(w, members)))
  {
    hide HandsOver, ParksOn, DeliverBatch, Distinct, Slots, EnterGate;
    SeededIs(members);
    CommitNone(u);
    if w.stages[w.stage].beforeGate.Some? {
      GateIsEntered(u, Before, w.stages[w.stage].beforeGate.value);
      SameGateEntry(w, u, w.stages[w.stage].beforeGate.value);
    } else if Slots(w, w.stage, |members|).Some? {
      BatchHandsOver(u, Slots(w, w.stage, |members|).value);
    }
    hide CommitAll;
  }

  lemma SameGateEntry(w: World, u: World, kind: GateKind)
    requires u == w.(targets := u.targets)
    ensures Model.EnterGate(w, w.stage, Before, kind) == Model.EnterGate(u, u.stage, Before, kind)
  {
  }

  lemma SeedingSplits(w: World, members: seq<string>)
    requires WellFormed(w) && w.stage < |w.stages| && w.targets[w.stage] == [] && NoDuplicates(members)
    ensures var u := w.(targets := w.targets[w.stage := SeedRows(members)]);
            && CommitAll(w, Seed(w.stage, members) + AfterSeeding(w, members)) == CommitAll(u, AfterSeeding(w, members))
            && Distinct(SeedRows(members))
  {
    hide Seed, AfterSeeding, CommitAll;
    assert [] + members == members;
    SeedEffect(w, w.stage, [], members);
    Batches.SeedRowsAt(members);
    Batches.CommitAllSplit(w, Seed(w.stage, members), AfterSeeding(w, members));
  }

  lemma EntryStep(w: World)
    requires WellFormed(w) && w.state.Running? && w.stage < |w.stages| && w.targets[w.stage] == []
    ensures IntoStage(w, CommitAll(w, Model.EnterStage(w)))
  {
    hide SeedsAndGoesOn, AfterSeeding, Seed, StageMembers, CommitAll, Model.Transition;
    CommitNone(w);
    OneMove(w, Failed, w.stage, w.gate);
    if Members(w, w.stage).Some? && Members(w, w.stage).value != [] {
      var members := Members(w, w.stage).value;
      MembersAreDistinct(w.fleet, w.stages[w.stage].clusterSetIds);
      SeedingSplits(w, members);
      AfterSeedingIs(w, w.(targets := w.targets[w.stage := SeedRows(members)]), members);
    }
  }

  /** One whole advance step does exactly that, from any stored state. */
  lemma AdvanceDoes(w: World)
    requires WellFormed(w) && Keyed(w)
    ensures Advanced(w, CommitAll(w, Model.AdvanceOnce(w)))
  {
    hide AtGate, IntoStage, ThroughStage, Keyed, EnterStage, DriveStage, ClearGate;
    CommitNone(w);
    match w.state {
      case WaitingGate => GateStep(w);
      case Running =>
        if w.stage >= |w.stages| {
          OneMove(w, Completed, w.stage, None);
        } else if w.targets[w.stage] == [] {
          EntryStep(w);
        } else {
          DriveStep(w);
        }
      case _ =>
    }
    hide CommitAll;
  }

  /** A step moves on to the next stage exactly if the stage has nothing left to wait for and no after gate. */
  lemma MovesOnExactly(w: World)
    requires WellFormed(w) && Keyed(w)
    ensures MovesOn(w) <==> w.state.Running? && CommitAll(w, Model.AdvanceOnce(w)).stage == w.stage + 1
  {
    hide CommitAll, Model.AdvanceOnce, ThroughStage, IntoStage, SettleAll, Keyed, Count, Decides;
    AdvanceDoes(w);
    var v := CommitAll(w, Model.AdvanceOnce(w));
    if w.state.Running? && w.stage < |w.stages| {
      if w.targets[w.stage] == [] {
        EntryStays(w, v);
      } else {
        SettlesAsTold(w);
        SettledOnce(w, v, SettleAll(w.targets[w.stage], w.queue));
        DecisionMoves(w.(targets := w.targets[w.stage := SettleAll(w.targets[w.stage], w.queue)]), v);
      }
    }
  }

  lemma EntryStays(w: World, v: World)
    requires WellFormed(w) && w.stage < |w.stages| && IntoStage(w, v)
    ensures v.stage == w.stage
  {
    hide StageMembers, ParseMaxConcurrency;
  }

  lemma DecisionMoves(u: World, v: World)
    requires WellFormed(u) && u.stage < |u.stages| && Decides(u, v)
    ensures var rows := u.targets[u.stage];
            v.stage == u.stage + 1 <==>
              Count(rows, TargetFailed) == 0 && Count(rows, TargetPending) + Count(rows, TargetDelivered) == 0
              && u.stages[u.stage].afterGate.None?
  {
    hide Members, Slots, Count, RowsHanded, CommandsHanded;
    var rows := u.targets[u.stage];
    CountIsSome(rows, TargetFailed);
    CountIsSome(rows, TargetPending);
    CountIsSome(rows, TargetDelivered);
  }

  lemma SettledOnce(w: World, v: World, rows: seq<Target>)
    requires WellFormed(w) && w.stage < |w.stages| && ThroughStage(w, v) && SettledRows(w.targets[w.stage], rows, w.queue)
    ensures Decides(w.(targets := w.targets[w.stage := rows]), v)
  {
    hide Decides;
    var x: seq<Target> :| SettledRows(w.targets[w.stage], x, w.queue) && Decides(w.(targets := w.targets[w.stage := x]), v);
    forall i | 0 <= i < |x| ensures x[i] == rows[i] {
      assert SettledRow(w.targets[w.stage][i], x[i], w.queue) && SettledRow(w.targets[w.stage][i], rows[i], w.queue);
    }
    assert x == rows;
  }

  // ----- Nothing is left open

  lemma SameHands(u: World, a: World, b: World, slots: int)
    requires HandsOver(u, a, slots) && HandsOver(u, b, slots)
    ensures a == b
  {
    hide RowsHanded, CommandsHanded;
    var rows := u.targets[u.stage];
    SameRows(u.stage, [], rows, slots, a.targets[u.stage], b.targets[u.stage]);
    SameCommands(u, rows, slots, a.queue, b.queue);
  }

  lemma SameRows(stage: nat, head: seq<Target>, rows: seq<Target>, slots: int, a: seq<Target>, b: seq<Target>)
    requires RowsHanded(stage, head, rows, slots, a) && RowsHanded(stage, head, rows, slots, b)
    ensures a == b
  {
    hide IsHanded;
    forall i | 0 <= i < |a| ensures a[i] == b[i] {
      if i >= |head| {
        var j := i - |head|;
        assert IsHanded(rows, j, slots) || !IsHanded(rows, j, slots);
        assert a[|head| + j] == b[|head| + j];
      }
    }
  }

  lemma SameCommands(u: World, rows: seq<Target>, slots: int, a: Rows<CommandKey>, b: Rows<CommandKey>)
    requires CommandsHanded(u, rows, slots, a) && CommandsHanded(u, rows, slots, b)
    ensures a == b
  {
    hide IsHanded, DesiredState;
    NoMoreCommands(u, rows, slots, a, b);
    NoMoreCommands(u, rows, slots, b, a);
    assert forall k | k in a :: a[k] == b[k];
  }

  lemma NoMoreCommands(u: World, rows: seq<Target>, slots: int, a: Rows<CommandKey>, b: Rows<CommandKey>)
    requires CommandsHanded(u, rows, slots, a) && CommandsHanded(u, rows, slots, b)
    ensures forall k | k in a :: k in b
  {
    hide IsHanded, DesiredState;
    forall k | k in a ensures k in b {
      if k !in u.queue {
        var i :| 0 <= i < |rows| && IsHanded(rows, i, slots) && rows[i].cluster == k.cluster;
        assert k == CommandKey(u.stage, rows[i].cluster, Apply);
      }
    }
  }

  lemma SameDecision(u: World, a: World, b: World)
    requires WellFormed(u) && u.stage < |u.stages| && Decides(u, a) && Decides(u, b)
    ensures a == b
  {
    hide HandsOver, Members, Slots;
    var rows := u.targets[u.stage];
    if Members(u, u.stage).Some? {
      var slots := Slots(u, u.stage, |Members(u, u.stage).value|);
      if slots.Some? {
        var free := slots.value - |set i | 0 <= i < |rows| && rows[i].status.TargetDelivered?|;
        if HandsOver(u, a, free) && HandsOver(u, b, free) {
          SameHands(u, a, b, free);
        }
      }
    }
  }

  lemma SameSeeding(w: World, members: seq<string>, a: World, b: World)
    requires WellFormed(w) && w.stage < |w.stages| && SeedsAndGoesOn(w, members, a) && SeedsAndGoesOn(w, members, b)
    ensures a == b
  {
    hide HandsOver, Slots;
    var u := w.(targets := w.targets[w.stage := seq(|members|, i requires 0 <= i < |members| => Target(members[i], TargetPending, None))]);
    if w.stages[w.stage].beforeGate.None? && Slots(w, w.stage, |members|).Some? {
      SameHands(u, a, b, Slots(w, w.stage, |members|).value);
    }
  }

  lemma SameThroughStage(w: World, a: World, b: World)
    requires WellFormed(w) && w.stage < |w.stages| && ThroughStage(w, a) && ThroughStage(w, b)
    ensures a == b
  {
    hide Decides;
    var x: seq<Target> :| SettledRows(w.targets[w.stage], x, w.queue) && Decides(w.(targets := w.targets[w.stage := x]), a);
    var y: seq<Target> :| SettledRows(w.targets[w.stage], y, w.queue) && Decides(w.(targets := w.targets[w.stage := y]), b);
    assert x == y by {
      forall i | 0 <= i < |x| ensures x[i] == y[i] {
        assert SettledRow(w.targets[w.stage][i], x[i], w.queue) && SettledRow(w.targets[w.stage][i], y[i], w.queue);
      }
    }
    SameDecision(w.(targets := w.targets[w.stage := x]), a, b);
  }

  /** The outcome told here is a complete one: nothing else than what an advance step does meets it. */
  lemma AdvanceDoesExactly(w: World, v: World)
    requires WellFormed(w) && Keyed(w)
    ensures Advanced(w, v) <==> v == CommitAll(w, Model.AdvanceOnce(w))
  {
    AdvanceDoes(w);
    var done := CommitAll(w, Model.AdvanceOnce(w));
    hide CommitAll, Model.AdvanceOnce, ThroughStage, SeedsAndGoesOn, Keyed, Members;
    if Advanced(w, v) && w.state.Running? && w.stage < |w.stages| {
      if w.targets[w.stage] != [] {
        SameThroughStage(w, v, done);
      } else if Members(w, w.stage).Some? && Members(w, w.stage).value != [] {
        SameSeeding(w, Members(w, w.stage).value, v, done);
      }
    }
  }
}
