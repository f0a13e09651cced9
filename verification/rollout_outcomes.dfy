/** What a whole advance step leads to, situation by situation. */
module RolloutOutcomes {
  import opened Wrappers
  import opened Stages
  import opened ClusterSets
  import opened CommandIds
  import opened CommandQueue
  import opened RolloutModel
  import opened RolloutSafety
  import opened RolloutEffects
  import Batches = RolloutBatches

  function Next(w: World): World
    requires WellFormed(w)
  {
    Take(w, AdvanceStep(|AdvanceOnce(w)|))
  }

  lemma NextIsAdvanced(w: World)
    requires WellFormed(w) && Keyed(w)
    ensures Advanced(w, Next(w))
  {
    hide AdvanceOnce, CommitAll, Advanced, Keyed;
    Batches.PrefixAll(w, AdvanceOnce(w), |AdvanceOnce(w)|);
    AdvanceDoes(w);
  }

  /** At a gate nothing happens, except that a request that was never made is made and linked, and that a wait
      that is over is left: into the stage again from a before gate, on to the next from an after gate. */
  lemma GateOutcome(w: World)
    requires WellFormed(w) && Keyed(w) && w.state.WaitingGate? && w.gate.Some?
    ensures var g := w.gate.value;
            Next(w) ==
              if g.kind == Approval && g.approvalId.None? then
                w.(gate := Some(GateContext(g.side, g.kind, g.enteredAt, Some(|w.approvals|))),
                   approvals := w.approvals + [GateApproval(w.stage, g.side, ApprovalPending)])
              else if g.kind.Wait? && w.now - g.enteredAt >= g.kind.seconds then
                w.(state := Running, gate := None, stage := if g.side == After then w.stage + 1 else w.stage)
              else w
  {
    hide AdvanceOnce, CommitAll, Keyed, Take;
    NextIsAdvanced(w);
  }

  /** A rollout that is not under way is not moved, and one beyond its last stage is completed. */
  lemma EndOutcome(w: World)
    requires WellFormed(w) && Keyed(w)
    ensures !w.state.Running? && !w.state.WaitingGate? ==> Next(w) == w
    ensures w.state.Running? && w.stage >= |w.stages| ==> Next(w) == w.(state := Completed, gate := None)
  {
    hide AdvanceOnce, CommitAll, Keyed, Take;
    NextIsAdvanced(w);
  }

  predicate Entering(w: World) {
    WellFormed(w) && w.state.Running? && w.stage < |w.stages| && w.targets[w.stage] == []
  }

  /** A stage without members fails the rollout, and one with a missing set keeps it where it is. */
  lemma EmptyStageOutcome(w: World)
    requires Entering(w) && Keyed(w)
    ensures Members(w, w.stage) == Some([]) ==> Next(w) == w.(state := Failed)
    ensures Members(w, w.stage).None? ==> Next(w) == w
  {
    hide AdvanceOnce, CommitAll, Keyed, Take, SeedsAndGoesOn, StageMembers;
    NextIsAdvanced(w);
  }

  /** Into a gated stage: every member has a pending row, nothing is sent, and the rollout waits at the before
      gate from now on, with a request of its own if the gate is an approval. */
  lemma GatedEntryOutcome(w: World)
    requires Entering(w) && Keyed(w) && w.stages[w.stage].beforeGate.Some?
    requires Members(w, w.stage).Some? && Members(w, w.stage).value != []
    ensures var v := Next(w);
            var members, kind := Members(w, w.stage).value, w.stages[w.stage].beforeGate.value;
            && v.state == WaitingGate && v.stage == w.stage && v.queue == w.queue
            && |v.targets| == |w.targets| && v.targets == w.targets[w.stage := v.targets[w.stage]] && |v.targets[w.stage]| == |members|
            && (forall i | 0 <= i < |members| :: v.targets[w.stage][i] == Target(members[i], TargetPending, None))
            && v.gate == Some(GateContext(Before, kind, w.now, if kind == Approval then Some(|w.approvals|) else None))
            && v.approvals == w.approvals + (if kind == Approval then [GateApproval(w.stage, Before, ApprovalPending)] else [])
  {
    hide AdvanceOnce, CommitAll, Keyed, Take, StageMembers;
    NextIsAdvanced(w);
  }

  lemma PendingBefore(rows: seq<Target>, i: nat)
    requires i <= |rows| && forall j | 0 <= j < |rows| :: rows[j].status.TargetPending?
    ensures Count(rows[..i], TargetPending) == i
  {
    CountIsSize(rows[..i], TargetPending);
    AllBelow(rows[..i], TargetPending);
  }

  lemma {:induction false} AllBelow(rows: seq<Target>, status: TargetStatus)
    requires forall j | 0 <= j < |rows| :: rows[j].status == status
    ensures |OfStatus(rows, status)| == |rows|
  {
    if rows == [] {
      assert OfStatus(rows, status) == {};
    } else {
      var n := |rows| - 1;
      AllBelow(rows[..n], status);
      assert OfStatus(rows, status) == OfStatus(rows[..n], status) + {n};
    }
  }

  lemma HandedFromPending(u: World, v: World, slots: int)
    requires HandsOver(u, v, slots) && forall j | 0 <= j < |u.targets[u.stage]| :: u.targets[u.stage][j].status.TargetPending?
    ensures var rows, after := u.targets[u.stage], v.targets[u.stage];
            |after| == |rows| && forall i | 0 <= i < |rows| ::
              var key := CommandKey(u.stage, rows[i].cluster, Apply);
              if i < slots then
                && after[i] == Target(rows[i].cluster, TargetDelivered, Some(key)) && key in v.queue
                && (key !in u.queue ==> v.queue[key].payload == DesiredState(u.about, u.desired) && v.queue[key].status == CommandPending
                                        && v.queue[key].cluster == rows[i].cluster)
              else after[i] == rows[i]
  {
    hide DesiredState, Count;
    var rows, after := u.targets[u.stage], v.targets[u.stage];
    assert RowsHanded(u.stage, [], rows, slots, after);
    forall i | 0 <= i < |rows| ensures IsHanded(rows, i, slots) <==> i < slots {
      PendingBefore(rows, i);
    }
    forall i | 0 <= i < |rows|
      ensures after[i] == if i < slots then Target(rows[i].cluster, TargetDelivered, Some(CommandKey(u.stage, rows[i].cluster, Apply))) else rows[i]
    {
      RowAt(u.stage, [], rows, slots, after, i);
    }
  }

  lemma RowAt(stage: nat, head: seq<Target>, rows: seq<Target>, slots: int, after: seq<Target>, i: nat)
    requires RowsHanded(stage, head, rows, slots, after) && i < |rows|
    ensures |after| == |head| + |rows|
    ensures after[|head| + i] ==
            if IsHanded(rows, i, slots) then Target(rows[i].cluster, TargetDelivered, Some(CommandKey(stage, rows[i].cluster, Apply))) else rows[i]
  {
    hide IsHanded;
    assert IsHanded(rows, i, slots) || !IsHanded(rows, i, slots);
  }

  /** Into an ungated stage: of its members, as many as the concurrency allows, from the first on, are delivered
      at once under a command for the desired version, and the others are pending. */
  lemma OpenEntryOutcome(w: World, n: int)
    requires Entering(w) && Keyed(w) && w.stages[w.stage].beforeGate.None?
    requires Members(w, w.stage).Some? && Members(w, w.stage).value != []
    requires ParseMaxConcurrency(w.stages[w.stage].maxConcurrency, |Members(w, w.stage).value|) == Ok(n)
    ensures var v := Next(w);
            var members := Members(w, w.stage).value;
            && v.state == Running && v.stage == w.stage && v.gate == w.gate && v.approvals == w.approvals
            && |v.targets| == |w.targets| && v.targets == w.targets[w.stage := v.targets[w.stage]] && |v.targets[w.stage]| == |members|
            && forall i | 0 <= i < |members| ::
                 var key := CommandKey(w.stage, members[i], Apply);
                 if i < n then
                   && v.targets[w.stage][i] == Target(members[i], TargetDelivered, Some(key)) && key in v.queue
                   && (key !in w.queue ==> v.queue[key].payload == DesiredState(w.about, w.desired) && v.queue[key].status == CommandPending
                                           && v.queue[key].cluster == members[i])
                 else v.targets[w.stage][i] == Target(members[i], TargetPending, None)
  {
    hide AdvanceOnce, CommitAll, Keyed, Take, StageMembers, DesiredState, RowsHanded, CommandsHanded;
    NextIsAdvanced(w);
    var members := Members(w, w.stage).value;
    var u := w.(targets := w.targets[w.stage := seq(|members|, i requires 0 <= i < |members| => Target(members[i], TargetPending, None))]);
    assert HandsOver(u, Next(w), n);
    HandedFromPending(u, Next(w), n);
  }

  // ----- In a seeded stage

  predicate Driving(w: World) {
    WellFormed(w) && w.state.Running? && w.stage < |w.stages| && w.targets[w.stage] != []
  }

  /** The target's command was refused, or it failed before. */
  predicate IsRefused(t: Target, queue: Rows<CommandKey>) {
    t.status == TargetFailed
    || (t.status == TargetDelivered && t.command.Some? && t.command.value in queue && queue[t.command.value].status == CommandNacked)
  }

  predicate IsDone(t: Target, queue: Rows<CommandKey>) {
    t.status == TargetHealthy
    || (t.status == TargetDelivered && t.command.Some? && t.command.value in queue && queue[t.command.value].status == CommandAcked)
  }

  lemma DecidedFrom(w: World) returns (rows: seq<Target>)
    requires Driving(w) && Keyed(w)
    ensures SettledRows(w.targets[w.stage], rows, w.queue)
    ensures Decides(w.(targets := w.targets[w.stage := rows]), Next(w))
    ensures forall i | 0 <= i < |rows| ::
              && (rows[i].status.TargetFailed? <==> IsRefused(w.targets[w.stage][i], w.queue))
              && (rows[i].status.TargetHealthy? <==> IsDone(w.targets[w.stage][i], w.queue))
  {
    hide AdvanceOnce, CommitAll, Keyed, Take, Decides;
    NextIsAdvanced(w);
    rows :| SettledRows(w.targets[w.stage], rows, w.queue) && Decides(w.(targets := w.targets[w.stage := rows]), Next(w));
    forall i | 0 <= i < |rows|
      ensures && (rows[i].status.TargetFailed? <==> IsRefused(w.targets[w.stage][i], w.queue))
              && (rows[i].status.TargetHealthy? <==> IsDone(w.targets[w.stage][i], w.queue))
    {
      assert SettledRow(w.targets[w.stage][i], rows[i], w.queue);
    }
  }

  /** One refused target fails the rollout where it is, and no command is added. */
  lemma RefusedOutcome(w: World, i: nat)
    requires Driving(w) && Keyed(w) && i < |w.targets[w.stage]| && IsRefused(w.targets[w.stage][i], w.queue)
    ensures var v := Next(w);
            v.state == Failed && v.stage == w.stage && v.gate == w.gate && v.queue == w.queue && v.approvals == w.approvals
            && |v.targets| == |w.targets| && i < |v.targets[w.stage]| && v.targets[w.stage][i].status == TargetFailed
  {
    hide HandsOver, ParksOn, StageMembers, ParseMaxConcurrency, AdvanceOnce, Take;
    var rows := DecidedFrom(w);
    assert rows[i].status.TargetFailed?;
  }

  /** When every target is done, the rollout waits at the after gate from now on, if the stage has one, with a
      request of its own if that is an approval; otherwise it goes on with the next stage. */
  lemma DoneOutcome(w: World)
    requires Driving(w) && Keyed(w) && forall i | 0 <= i < |w.targets[w.stage]| :: IsDone(w.targets[w.stage][i], w.queue)
    ensures var v := Next(w);
            && v.queue == w.queue && |v.targets| == |w.targets| && v.targets == w.targets[w.stage := v.targets[w.stage]]
            && |v.targets[w.stage]| == |w.targets[w.stage]|
            && (forall i | 0 <= i < |v.targets[w.stage]| :: v.targets[w.stage][i].status == TargetHealthy)
            && match w.stages[w.stage].afterGate
               case None => v.state == Running && v.stage == w.stage + 1 && v.gate == None && v.approvals == w.approvals
               case Some(kind) =>
                 && v.state == WaitingGate && v.stage == w.stage
                 && v.gate == Some(GateContext(After, kind, w.now, if kind == Approval then Some(|w.approvals|) else None))
                 && v.approvals == w.approvals + (if kind == Approval then [GateApproval(w.stage, After, ApprovalPending)] else [])
  {
    hide HandsOver, StageMembers, ParseMaxConcurrency, AdvanceOnce, Take, IsDone, IsRefused, SettledRow, Keyed;
    var rows := DecidedFrom(w);
    assert forall i | 0 <= i < |rows| :: rows[i].status.TargetHealthy?;
    assert forall i | 0 <= i < |rows| :: !rows[i].status.TargetFailed? && !rows[i].status.TargetPending? && !rows[i].status.TargetDelivered?;
  }

  function HandedAt(rows: seq<Target>, slots: int): set<int> {
    set i | 0 <= i < |rows| && IsHanded(rows, i, slots)
  }

  lemma HandedAtAppend(rows: seq<Target>, last: Target, slots: int)
    ensures HandedAt(rows + [last], slots)
         == HandedAt(rows, slots) + (if last.status.TargetPending? && Count(rows, TargetPending) < slots then {|rows|} else {})
  {
    var all := rows + [last];
    assert all[..|rows|] == rows;
    assert forall i | 0 <= i < |rows| :: all[..i] == rows[..i];
  }

  /** As many are handed over as there are slots, or pending rows if these are fewer. */
  lemma {:induction false} HandedCount(rows: seq<Target>, slots: int)
    ensures |HandedAt(rows, slots)| == var pending := Count(rows, TargetPending);
            if slots <= 0 then 0 else if slots < pending then slots else pending
  {
    if rows == [] {
      assert HandedAt(rows, slots) == {};
    } else {
      var n := |rows| - 1;
      var last := rows[n];
      HandedCount(rows[..n], slots);
      assert rows == rows[..n] + [last];
      HandedAtAppend(rows[..n], last, slots);
      CountAppend(rows[..n], last, TargetPending);
      assert n !in HandedAt(rows[..n], slots);
    }
  }

  lemma HandedKeepsOrder(rows: seq<Target>, slots: int, i: nat, j: nat)
    requires i < j < |rows| && rows[i].status.TargetPending? && IsHanded(rows, j, slots)
    ensures IsHanded(rows, i, slots)
  {
    CountGrows(rows, i, j);
  }

  lemma {:induction false} CountGrows(rows: seq<Target>, i: nat, j: nat)
    requires i <= j <= |rows|
    ensures Count(rows[..i], TargetPending) <= Count(rows[..j], TargetPending)
    decreases j - i
  {
    if i < j {
      CountGrows(rows, i, j - 1);
      CountNext(rows, j - 1, TargetPending);
    }
  }

  /** Some of the pending rows, from the first on, have become delivered, and no other row has moved. */
  predicate HandedOn(rows: seq<Target>, after: seq<Target>, slots: int) {
    |after| == |rows| && forall i | 0 <= i < |rows| ::
      if IsHanded(rows, i, slots) then after[i].status == TargetDelivered && after[i].cluster == rows[i].cluster else after[i] == rows[i]
  }

  lemma HandsOn(u: World, v: World, slots: int)
    requires HandsOver(u, v, slots)
    ensures |v.targets| == |u.targets| && v.targets == u.targets[u.stage := v.targets[u.stage]] && HandedOn(u.targets[u.stage], v.targets[u.stage], slots)
    ensures v.state == u.state && v.stage == u.stage && v.gate == u.gate && v.approvals == u.approvals
  {
    hide IsHanded, CommandsHanded;
    var rows, after := u.targets[u.stage], v.targets[u.stage];
    forall i | 0 <= i < |rows|
      ensures after[i] == if IsHanded(rows, i, slots) then Target(rows[i].cluster, TargetDelivered, Some(CommandKey(u.stage, rows[i].cluster, Apply))) else rows[i]
    {
      RowAt(u.stage, [], rows, slots, after, i);
    }
  }

  lemma DeliveredThen(rows: seq<Target>, after: seq<Target>, slots: int)
    requires HandedOn(rows, after, slots)
    ensures var delivered, pending := |OfStatus(rows, TargetDelivered)|, |OfStatus(rows, TargetPending)|;
            |OfStatus(after, TargetDelivered)| == delivered + (if slots <= 0 then 0 else if slots < pending then slots else pending)
  {
    HandedCount(rows, slots);
    CountIsSize(rows, TargetPending);
    assert OfStatus(after, TargetDelivered) == OfStatus(rows, TargetDelivered) + HandedAt(rows, slots);
    assert OfStatus(rows, TargetDelivered) !! HandedAt(rows, slots);
  }

  lemma InOrder(rows: seq<Target>, after: seq<Target>, slots: int, i: nat, j: nat)
    requires HandedOn(rows, after, slots) && i < j < |rows| && rows[i].status == TargetPending && rows[j].status == TargetPending
    requires after[j].status == TargetDelivered
    ensures after[i].status == TargetDelivered
  {
    assert IsHanded(rows, j, slots);
    HandedKeepsOrder(rows, slots, i, j);
  }

  /** Rows that wait for an answer. */
  function Waiting(w: World, rows: seq<Target>): set<int> {
    set i | 0 <= i < |rows| && rows[i].status == TargetDelivered && !IsDone(rows[i], w.queue) && !IsRefused(rows[i], w.queue)
  }

  function Untouched(rows: seq<Target>): set<int> {
    set i | 0 <= i < |rows| && rows[i].status == TargetPending
  }

  /** No target is refused, and some are not done. */
  predicate UnderWay(w: World) {
    && Driving(w)
    && (forall i | 0 <= i < |w.targets[w.stage]| :: !IsRefused(w.targets[w.stage][i], w.queue))
    && (exists i | 0 <= i < |w.targets[w.stage]| :: !IsDone(w.targets[w.stage][i], w.queue))
  }

  lemma SettledSets(before: seq<Target>, rows: seq<Target>, w: World)
    requires SettledRows(before, rows, w.queue)
    ensures Waiting(w, before) == OfStatus(rows, TargetDelivered) && Untouched(before) == OfStatus(rows, TargetPending)
    ensures forall i | 0 <= i < |rows| :: rows[i].status == TargetPending <==> before[i].status == TargetPending
  {
    forall i | 0 <= i < |rows|
      ensures && (rows[i].status == TargetDelivered <==> i in Waiting(w, before))
              && (rows[i].status == TargetPending <==> before[i].status == TargetPending)
    {
      assert SettledRow(before[i], rows[i], w.queue);
    }
  }

  lemma TopUpFrom(w: World, n: int) returns (rows: seq<Target>)
    requires UnderWay(w) && Keyed(w) && Members(w, w.stage).Some?
    requires ParseMaxConcurrency(w.stages[w.stage].maxConcurrency, |Members(w, w.stage).value|) == Ok(n)
    ensures SettledRows(w.targets[w.stage], rows, w.queue)
    ensures forall i | 0 <= i < |rows| :: rows[i].status.TargetHealthy? <==> IsDone(w.targets[w.stage][i], w.queue)
    ensures HandsOver(w.(targets := w.targets[w.stage := rows]), Next(w), n - |OfStatus(rows, TargetDelivered)|)
  {
    hide Decides, HandsOver, StageMembers, ParseMaxConcurrency, AdvanceOnce, Take, IsDone, IsRefused, SettledRow;
    rows := DecidedFrom(w);
    SomeAreOpen(w, rows);
    var u := w.(targets := w.targets[w.stage := rows]);
    var k :| 0 <= k < |rows| && (rows[k].status.TargetPending? || rows[k].status.TargetDelivered?);
    assert u.targets[u.stage][k] == rows[k];
    TopsUp(u, Next(w), n);
    assert OfStatus(rows, TargetDelivered) == set i | 0 <= i < |rows| && rows[i].status.TargetDelivered?;
  }

  /** While no target is refused and some are open, the rollout stays in its stage with the answers taken in, and
      so many more are delivered, from the first pending one on, that as many are in flight as the concurrency
      allows, or all that are left. */
  lemma TopUpOutcome(w: World, n: int)
    requires UnderWay(w) && Keyed(w) && Members(w, w.stage).Some?
    requires ParseMaxConcurrency(w.stages[w.stage].maxConcurrency, |Members(w, w.stage).value|) == Ok(n)
    ensures var v := Next(w);
            && v.state == Running && v.stage == w.stage && v.gate == w.gate && v.approvals == w.approvals
            && |v.targets| == |w.targets| && v.targets == w.targets[w.stage := v.targets[w.stage]] &&
            var before, after := w.targets[w.stage], v.targets[w.stage];
            var waiting, untouched := |Waiting(w, before)|, |Untouched(before)|;
            && |after| == |before|
            && (forall i | 0 <= i < |before| && IsDone(before[i], w.queue) :: after[i].status == TargetHealthy)
            && |OfStatus(after, TargetDelivered)| == (if waiting >= n then waiting else if waiting + untouched <= n then waiting + untouched else n)
            && (forall i, j | 0 <= i < j < |before| && before[i].status == TargetPending && before[j].status == TargetPending
                              && after[j].status == TargetDelivered :: after[i].status == TargetDelivered)
  {
    hide Decides, HandsOver, StageMembers, ParseMaxConcurrency, AdvanceOnce, Take, IsDone, IsRefused, SettledRow, IsHanded, OfStatus, Waiting, Untouched;
    var rows := TopUpFrom(w, n);
    var before := w.targets[w.stage];
    var slots := n - |OfStatus(rows, TargetDelivered)|;
    var u := w.(targets := w.targets[w.stage := rows]);
    SettledSets(before, rows, w);
    HandsOn(u, Next(w), slots);
    var after := Next(w).targets[w.stage];
    DeliveredThen(rows, after, slots);
    HealthyStays(rows, after, slots);
    forall i, j | 0 <= i < j < |before| && before[i].status == TargetPending && before[j].status == TargetPending && after[j].status == TargetDelivered
      ensures after[i].status == TargetDelivered
    {
      InOrder(rows, after, slots, i, j);
    }
  }

  lemma HealthyStays(rows: seq<Target>, after: seq<Target>, slots: int)
    requires HandedOn(rows, after, slots)
    ensures |after| == |rows| && forall i | 0 <= i < |rows| && rows[i].status.TargetHealthy? :: after[i].status.TargetHealthy?
  {
  }

  lemma SomeAreOpen(w: World, rows: seq<Target>)
    requires Driving(w) && |rows| == |w.targets[w.stage]|
    requires forall i | 0 <= i < |rows| ::
              && (rows[i].status.TargetFailed? <==> IsRefused(w.targets[w.stage][i], w.queue))
              && (rows[i].status.TargetHealthy? <==> IsDone(w.targets[w.stage][i], w.queue))
    requires forall i | 0 <= i < |w.targets[w.stage]| :: !IsRefused(w.targets[w.stage][i], w.queue)
    requires exists i | 0 <= i < |w.targets[w.stage]| :: !IsDone(w.targets[w.stage][i], w.queue)
    ensures forall i | 0 <= i < |rows| :: !rows[i].status.TargetFailed?
    ensures exists i | 0 <= i < |rows| :: rows[i].status.TargetPending? || rows[i].status.TargetDelivered?
  {
    var i :| 0 <= i < |w.targets[w.stage]| && !IsDone(w.targets[w.stage][i], w.queue);
    assert !rows[i].status.TargetHealthy? && !rows[i].status.TargetFailed?;
    assert rows[i].status.TargetPending? || rows[i].status.TargetDelivered?;
  }

  lemma TopsUp(u: World, v: World, n: int)
    requires WellFormed(u) && u.stage < |u.stages| && Decides(u, v) && Members(u, u.stage).Some?
    requires ParseMaxConcurrency(u.stages[u.stage].maxConcurrency, |Members(u, u.stage).value|) == Ok(n)
    requires forall i | 0 <= i < |u.targets[u.stage]| :: !u.targets[u.stage][i].status.TargetFailed?
    requires exists i | 0 <= i < |u.targets[u.stage]| :: u.targets[u.stage][i].status.TargetPending? || u.targets[u.stage][i].status.TargetDelivered?
    ensures HandsOver(u, v, n - |set i | 0 <= i < |u.targets[u.stage]| && u.targets[u.stage][i].status.TargetDelivered?|)
  {
    hide HandsOver, ParksOn, StageMembers, ParseMaxConcurrency;
  }
}
