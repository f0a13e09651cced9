/** What every run of a rollout keeps, in two parts: the order of stages, which nothing breaks, and the
    before gates, which a misplaced start or a crash inside seeding can lose. */
module RolloutSafety {
  import opened Wrappers
  import opened Stages
  import opened CommandIds
  import opened CommandQueue
  import opened RolloutModel

  predicate Distinct(rows: seq<Target>) {
    forall i, j | 0 <= i < j < |rows| :: rows[i].cluster != rows[j].cluster
  }

  predicate Has(rows: seq<Target>, cluster: string) {
    Find(rows, cluster).Some?
  }

  predicate AllHealthy(rows: seq<Target>) {
    forall i | 0 <= i < |rows| :: rows[i].status.TargetHealthy?
  }

  /** A stage that was seeded and has nothing left to wait for. */
  predicate Done(rows: seq<Target>) {
    rows != [] && AllHealthy(rows)
  }

  predicate ApprovedFor(w: World, stage: nat, side: Side) {
    exists id | 0 <= id < |w.approvals| :: w.approvals[id] == GateApproval(stage, side, Approved)
  }

  /** The condition a gate stands for: its wait has run out since it was entered, or a request for
      exactly this stage and side was approved. */
  predicate GateMet(w: World, stage: nat, side: Side) {
    match GateOf(w, stage, side)
    case Some(Wait(seconds)) => (stage, side) in w.entered && w.now >= w.entered[(stage, side)] + seconds
    case Some(Approval) => ApprovedFor(w, stage, side)
    case _ => false
  }

  predicate Passed(w: World, stage: nat, side: Side) {
    GateOf(w, stage, side).None? || GateMet(w, stage, side)
  }

  // ----- Order: what all runs keep

  predicate RowOk(w: World, stage: nat, t: Target) {
    if t.status.TargetPending? then t.command.None?
    else
      && t.command == Some(ApplyKey(stage, t.cluster)) && ApplyKey(stage, t.cluster) in w.queue
      && (t.status.TargetHealthy? ==> ApplyKey(stage, t.cluster) in w.acked)
  }

  predicate StageRowsOk(w: World, s: nat)
    requires s < |w.targets|
  {
    Distinct(w.targets[s]) && forall i | 0 <= i < |w.targets[s]| :: RowOk(w, s, w.targets[s][i])
  }

  /** Stages below the current one, and below any that has rows, are done. */
  predicate RowsOk(w: World) {
    && (forall s | 0 <= s < |w.targets| :: StageRowsOk(w, s))
    && (forall s | 0 <= s < w.stage && s < |w.targets| :: Done(w.targets[s]))
    && (forall r, s | 0 <= r < s < |w.targets| && w.targets[s] != [] :: Done(w.targets[r]))
  }

  predicate QueueOk(w: World) {
    && (forall k | k in w.queue && k.suffix.Apply? :: k.stage < |w.targets| && Has(w.targets[k.stage], k.cluster))
    && (forall k | k in w.queue && w.queue[k].status.CommandAcked? :: k in w.acked)
  }

  predicate GatesOk(w: World) {
    && (forall s | 0 <= s < w.stage :: Passed(w, s, After))
    && (forall e | e in w.entered ::
          e.0 < |w.targets| && w.targets[e.0] != [] && GateOf(w, e.0, e.1).Some? && w.entered[e] <= w.now)
    && (forall id | 0 <= id < |w.approvals| ::
          var a := w.approvals[id];
          (a.stage, a.side) in w.entered && GateOf(w, a.stage, a.side) == Some(Approval))
  }

  /** While a gate is open it is a gate of the current stage, entered when its context says. */
  predicate ContextOk(w: World) {
    w.gate.Some? ==>
      var g := w.gate.value;
      && w.state in {WaitingGate, Paused, Failed} && w.stage < |w.targets|
      && GateOf(w, w.stage, g.side) == Some(g.kind)
      && (w.stage, g.side) in w.entered && w.entered[(w.stage, g.side)] == g.enteredAt
      && (g.side.After? ==> AllHealthy(w.targets[w.stage]))
  }

  predicate StateOk(w: World) {
    && w.stage <= |w.stages|
    && (w.state.WaitingGate? ==> w.gate.Some?)
    && (w.state.Pending? ==> w.stage == 0 && forall s | 0 <= s < |w.targets| :: w.targets[s] == [])
    && (w.state.Completed? ==> w.stage == |w.stages|)
  }

  predicate Base(w: World) {
    WellFormed(w) && RowsOk(w) && QueueOk(w) && GatesOk(w) && ContextOk(w) && StateOk(w)
  }

  // ----- Before gates: what misplaced starts and crashes inside seeding can lose

  predicate OpenBefore(w: World, s: nat) {
    w.gate.Some? && w.gate.value.side.Before? && w.stage == s
  }

  function WaitOf(stage: Stage): nat {
    match stage.afterGate
    case Some(Wait(seconds)) => if seconds > 0 then seconds else 0
    case _ => 0
  }

  /** How long the after gates of the stages from `from` to before `to` keep a rollout at the least. */
  function Waits(stages: seq<Stage>, from: nat, to: nat): nat
    decreases to - from
  {
    if from >= to || from >= |stages| then 0 else WaitOf(stages[from]) + Waits(stages, from + 1, to)
  }

  /** The earliest time at which stage `s` can be reached from here, without a new start. */
  function Earliest(w: World, s: nat): int {
    (if w.gate.Some? && w.gate.value.side.After? then w.gate.value.enteredAt else w.now) + Waits(w.stages, w.stage, s)
  }

  /** The stage's before gate is a wait that will have run out by the time the stage is reached. */
  predicate Expires(w: World, s: nat) {
    w.stage <= s &&
    match GateOf(w, s, Before)
    case Some(Wait(seconds)) => (s, Before) in w.entered && w.entered[(s, Before)] + seconds <= Earliest(w, s)
    case _ => false
  }

  /** Nothing can be delivered to the stage before its before gate is met. */
  predicate Cleared(w: World, s: nat) {
    Passed(w, s, Before) || OpenBefore(w, s) || Expires(w, s)
  }

  /** Apply commands exist only beyond a before gate that was met. */
  predicate CommandsPassed(w: World) {
    forall k | k in w.queue && k.suffix.Apply? :: Passed(w, k.stage, Before)
  }

  /** Every stage with rows, other than `x`, is cleared. */
  predicate ClearedBut(w: World, x: nat) {
    forall s | 0 <= s < |w.targets| && s != x && w.targets[s] != [] :: Cleared(w, s)
  }

  predicate Guarded(w: World) {
    CommandsPassed(w) &&
    (w.state.RolledBack? || forall s | 0 <= s < |w.targets| && w.targets[s] != [] :: Cleared(w, s))
  }

  predicate Inv(w: World) {
    Base(w) && Guarded(w)
  }

  lemma CreatedInv(w: World)
    requires Created(w)
    ensures Inv(w)
  {
  }

  /** Done rows had their commands enqueued, so the stage's before gate was passed. */
  lemma DoneMeansPassed(w: World, s: nat)
    requires Base(w) && CommandsPassed(w) && s < |w.targets| && Done(w.targets[s])
    ensures Passed(w, s, Before)
  {
    assert StageRowsOk(w, s) && RowOk(w, s, w.targets[s][0]);
    assert ApplyKey(s, w.targets[s][0].cluster) in w.queue;
  }

  /** A running stage with rows, the gate closed again, is past its before gate. */
  lemma RunningMeansPassed(w: World)
    requires Inv(w) && w.state.Running? && w.stage < |w.targets| && w.targets[w.stage] != []
    ensures w.gate.None? && Passed(w, w.stage, Before)
  {
    assert Cleared(w, w.stage);
  }

  lemma {:induction false} WaitsLonger(stages: seq<Stage>, from: nat, later: nat, to: nat)
    requires from <= later
    ensures Waits(stages, from, to) >= Waits(stages, later, to)
    decreases later - from
  {
    if from < later {
      WaitsLonger(stages, from + 1, later, to);
    }
  }

  // ----- Single writes

  lemma UpsertFacts(rows: seq<Target>, t: Target)
    requires Distinct(rows)
    ensures Distinct(Upsert(rows, t)) && Upsert(rows, t) != []
    ensures forall c :: Has(Upsert(rows, t), c) <==> Has(rows, c) || c == t.cluster
    ensures forall i | 0 <= i < |Upsert(rows, t)| :: Upsert(rows, t)[i] == t || (i < |rows| && Upsert(rows, t)[i] == rows[i])
  {
    var after := Upsert(rows, t);
    forall c ensures Has(after, c) <==> Has(rows, c) || c == t.cluster {
      var at := Find(rows, t.cluster);
      var spot := if at.Some? then at.value else |rows|;
      assert after[spot] == t;
      if Has(rows, c) {
        assert after[Find(rows, c).value].cluster == c;
      }
    }
  }

  /** Nothing that passed a gate or acknowledged a row has been taken back. */
  predicate Extends(w: World, v: World) {
    && v.stages == w.stages && w.now <= v.now
    && w.queue.Keys <= v.queue.Keys && w.acked <= v.acked
    && (forall e | e in w.entered :: e in v.entered && v.entered[e] == w.entered[e])
    && |w.approvals| <= |v.approvals|
    && (forall id | 0 <= id < |w.approvals| :: w.approvals[id].state.Approved? ==> v.approvals[id] == w.approvals[id])
  }

  lemma PassedStays(w: World, v: World, s: nat, side: Side)
    requires Extends(w, v) && Passed(w, s, side)
    ensures Passed(v, s, side)
  {
    if GateOf(w, s, side) == Some(Approval) {
      var id :| 0 <= id < |w.approvals| && w.approvals[id] == GateApproval(s, side, Approved);
      assert v.approvals[id] == GateApproval(s, side, Approved);
    }
  }

  lemma Carry(w: World, v: World)
    requires Extends(w, v)
    ensures forall s, side {:trigger Passed(v, s, side)} :: Passed(w, s, side) ==> Passed(v, s, side)
    ensures forall s, t {:trigger RowOk(v, s, t)} :: RowOk(w, s, t) ==> RowOk(v, s, t)
    ensures |w.targets| == |v.targets| ==>
              forall s {:trigger StageRowsOk(v, s)} |
                0 <= s < |w.targets| && v.targets[s] == w.targets[s] && StageRowsOk(w, s) :: StageRowsOk(v, s)
  {
    forall s, side | Passed(w, s, side) ensures Passed(v, s, side) {
      PassedStays(w, v, s, side);
    }
  }

  lemma RowsCarry(w: World, v: World)
    requires RowsOk(w) && Extends(w, v) && v.targets == w.targets && v.stage <= w.stage
    ensures RowsOk(v)
  {
    Carry(w, v);
  }

  lemma GatesCarry(w: World, v: World)
    requires GatesOk(w) && Extends(w, v) && v.stage <= w.stage && |v.targets| == |w.targets| && v.entered == w.entered
    requires forall s | 0 <= s < |w.targets| :: w.targets[s] != [] ==> v.targets[s] != []
    requires |v.approvals| == |w.approvals|
    requires forall id | 0 <= id < |w.approvals| ::
               v.approvals[id].stage == w.approvals[id].stage && v.approvals[id].side == w.approvals[id].side
    ensures GatesOk(v)
  {
    forall s | 0 <= s < v.stage ensures Passed(v, s, After) {
      PassedStays(w, v, s, After);
    }
  }

  lemma RowsAfterUpsert(w: World, t: Target)
    requires WellFormed(w) && RowsOk(w) && w.stage < |w.targets| && RowOk(w, w.stage, t) && !Done(w.targets[w.stage])
    ensures RowsOk(Commit(w, UpsertTarget(w.stage, t)))
  {
    hide Upsert, Find;
    var v := Commit(w, UpsertTarget(w.stage, t));
    Carry(w, v);
    assert StageRowsOk(w, w.stage);
    UpsertFacts(w.targets[w.stage], t);
    assert StageRowsOk(v, w.stage);
    assert forall s | w.stage < s < |w.targets| :: w.targets[s] == [];
  }

  /** A row of the current stage may be written while the stage is not done. */
  lemma UpsertKeeps(w: World, t: Target)
    requires Base(w) && w.state.Running? && w.stage < |w.targets| && RowOk(w, w.stage, t)
    requires !Done(w.targets[w.stage])
    ensures Base(Commit(w, UpsertTarget(w.stage, t)))
  {
    var v := Commit(w, UpsertTarget(w.stage, t));
    RowsAfterUpsert(w, t);
    assert StageRowsOk(w, w.stage);
    UpsertFacts(w.targets[w.stage], t);
    GatesCarry(w, v);
    hide RowsOk, GatesOk, Upsert, RowOk, StageRowsOk, Done;
  }

  lemma SetStatusKeeps(w: World, cluster: string, status: TargetStatus)
    requires Base(w) && w.state.Running? && w.stage < |w.targets|
    requires !status.TargetPending?
    requires ApplyKey(w.stage, cluster) in w.queue && (status.TargetHealthy? ==> ApplyKey(w.stage, cluster) in w.acked)
    requires Has(w.targets[w.stage], cluster) && w.targets[w.stage][Find(w.targets[w.stage], cluster).value].status.TargetDelivered?
    ensures Base(Commit(w, SetTargetStatus(w.stage, cluster, status)))
  {
    assert StageRowsOk(w, w.stage);
    var row := w.targets[w.stage][Find(w.targets[w.stage], cluster).value];
    assert RowOk(w, w.stage, row);
    assert RowOk(w, w.stage, row.(status := status));
    UpsertKeeps(w, row.(status := status));
  }

  lemma EnqueueKeeps(w: World, key: CommandKey, version: string)
    requires Base(w)
    requires key.suffix.Apply? ==> key.stage < |w.targets| && Has(w.targets[key.stage], key.cluster)
    ensures Base(Commit(w, EnqueueCommand(key, version)))
  {
    hide RowsOk, GatesOk, Passed, DesiredState;
    var v := Commit(w, EnqueueCommand(key, version));
    RowsCarry(w, v);
    GatesCarry(w, v);
  }

  // ----- Before gates from one state to the next

  /** A step that only lets time pass, rows change, gates be asked for or the state move in place takes
      no before gate back. */
  predicate SamePlace(w: World, v: World) {
    && Extends(w, v) && |v.targets| == |w.targets| && v.stage == w.stage
    && (v.gate.Some? <==> w.gate.Some?)
    && (w.gate.Some? ==> v.gate.value.side == w.gate.value.side && v.gate.value.enteredAt == w.gate.value.enteredAt)
  }

  lemma ClearedStays(w: World, v: World, s: nat)
    requires SamePlace(w, v) && Cleared(w, s)
    ensures Cleared(v, s)
  {
    if Passed(w, s, Before) {
      PassedStays(w, v, s, Before);
    }
  }

  lemma GuardedInPlace(w: World, v: World)
    requires Guarded(w) && SamePlace(w, v) && v.targets == w.targets && (w.state.RolledBack? ==> v.state.RolledBack?)
    requires forall k | k in v.queue && k.suffix.Apply? :: k in w.queue
    ensures Guarded(v)
  {
    forall k | k in v.queue && k.suffix.Apply? ensures Passed(v, k.stage, Before) {
      PassedStays(w, v, k.stage, Before);
    }
    if !w.state.RolledBack? {
      forall s | 0 <= s < |v.targets| && v.targets[s] != [] ensures Cleared(v, s) {
        assert Cleared(w, s);
        ClearedStays(w, v, s);
      }
    }
  }
}
