/** The rollout service: stored rows updated in place, operation by operation. Each method is tied to the
    writes of the model, and any sequence of calls is a run of it. */
module RolloutService {
  import opened Wrappers
  import opened Stages
  import opened ClusterSets
  import opened CommandIds
  import opened CommandQueue
  import opened RolloutModel
  import Model = RolloutModel
  import Batches = RolloutBatches
  import opened RolloutSafety
  import opened RolloutRuns
  import Undo = RolloutUndo
  import Limits = RolloutLimits
  import opened RolloutEffects
  import Moves = RolloutMoves

  const MAX_ADVANCE_STEPS := 64

  /** At most `fuel` advance steps, until one of them parks. */
  function AdvanceLoop(w: World, fuel: nat): World
    requires WellFormed(w)
    decreases fuel
  {
    if fuel == 0 then w
    else
      var v := CommitAll(w, Model.AdvanceOnce(w));
      CommitAllKeepsShape(w, Model.AdvanceOnce(w));
      if MovesOn(w) then AdvanceLoop(v, fuel - 1) else v
  }

  /** One call of the service, or a step of somebody else between two calls. */
  datatype Call =
    | StartCall
    | StopCall
    | ResumeCall
    | AdvanceCall
    | HandleCall(id: nat)
    | RollbackCall(version: string)
    | OutsideCall(step: Step)

  /** Steps that are not the service's own. */
  predicate Outside(step: Step) {
    !step.StartStep? && !step.StopStep? && !step.ResumeStep? && !step.AdvanceStep? && !step.RollbackStep? && !step.DecidedStep?
  }

  /** The stored state after a call that is not cut short. */
  function AfterCall(w: World, call: Call): World
    requires WellFormed(w)
  {
    match call
    case StartCall =>
      CommitAllKeepsShape(w, Start(w));
      if CanRolloutTransition(w.state, Running) then AdvanceLoop(CommitAll(w, Start(w)), MAX_ADVANCE_STEPS) else w
    case StopCall => CommitAll(w, Stop(w))
    case ResumeCall =>
      CommitAllKeepsShape(w, Resume(w));
      if CanRolloutTransition(w.state, if w.gate.Some? then WaitingGate else Running)
      then AdvanceLoop(CommitAll(w, Resume(w)), MAX_ADVANCE_STEPS) else w
    case AdvanceCall => AdvanceLoop(w, MAX_ADVANCE_STEPS)
    case HandleCall(id) => CommitAll(w, Model.Handle(w, id))
    case RollbackCall(version) => CommitAll(w, RollBack(w, version))
    case OutsideCall(step) => if Outside(step) then Take(w, step) else w
  }

  /** A step that cannot be carried out: a cluster set is missing, or the concurrency does not parse. */
  predicate CannotAdvance(w: World)
    requires WellFormed(w)
  {
    w.state.Running? && w.stage < |w.stages| &&
    if w.targets[w.stage] == [] then
      Members(w, w.stage).None?
      || (Members(w, w.stage).value != [] && w.stages[w.stage].beforeGate.None?
          && Slots(w, w.stage, |Members(w, w.stage).value|).None?)
    else
      var rows := SettleAll(w.targets[w.stage], w.queue);
      && Count(rows, TargetFailed) == 0 && Count(rows, TargetPending) + Count(rows, TargetDelivered) > 0
      && (Members(w, w.stage).None? || Slots(w, w.stage, |Members(w, w.stage).value|).None?)
  }

  class Service {
    const stages: seq<Stage>
    const desired: string
    const about: About
    const queue: Queue<CommandKey>
    var state: RolloutState
    var stage: nat
    var gate: Option<GateContext>
    var targets: seq<seq<Target>>
    var approvals: seq<GateApproval>
    var fleet: Fleet
    ghost var entered: map<(nat, Side), int>
    ghost var acked: set<CommandKey>

    ghost function Snapshot(): World
      reads this, queue
    {
      World(stages, desired, about, state, stage, gate, targets, queue.rows, approvals, fleet, queue.now, entered, acked)
    }

    /** A rollout is stored as pending, with no rows. */
    constructor (stages: seq<Stage>, desired: string, about: About, queue: Queue<CommandKey>, fleet: Fleet)
      requires stages != [] && forall i | 0 <= i < |stages| :: StageOk(stages[i])
      requires queue.rows == map[]
      ensures Created(Snapshot()) && this.queue == queue && this.stages == stages && this.desired == desired && this.about == about
    {
      this.stages, this.desired, this.about, this.queue, this.fleet := stages, desired, about, queue, fleet;
      state, stage, gate, approvals := Pending, 0, None, [];
      targets := seq(|stages|, _ => []);
      entered, acked := map[], {};
    }

    /** The compare-and-set on the stored state. */
    method SetRolloutState(from: RolloutState, to: RolloutState, next: nat, gateContext: Option<GateContext>) returns (ok: bool)
      modifies this`state, this`stage, this`gate, this`entered
      ensures ok <==> old(state) == from
      ensures Snapshot() == Commit(old(Snapshot()), Cas(from, to, next, gateContext))
    {
      if state != from {
        return false;
      }
      state, stage, gate := to, next, gateContext;
      if to.WaitingGate? && gateContext.Some? {
        entered := entered[(next, gateContext.value.side) := gateContext.value.enteredAt];
      }
      return true;
    }

    method UpsertRow(s: nat, t: Target)
      requires s < |targets|
      modifies this`targets
      ensures Snapshot() == Commit(old(Snapshot()), UpsertTarget(s, t))
    {
      targets := targets[s := Upsert(targets[s], t)];
    }

    method MarkRow(s: nat, cluster: string, status: TargetStatus)
      requires s < |targets|
      modifies this`targets
      ensures Snapshot() == Commit(old(Snapshot()), SetTargetStatus(s, cluster, status))
    {
      targets := targets[s := SetRowStatus(targets[s], cluster, status)];
    }

    method Transition(to: RolloutState, next: nat, gateContext: Option<GateContext>) returns (ok: bool)
      modifies this`state, this`stage, this`gate, this`entered
      ensures ok <==> CanRolloutTransition(old(state), to)
      ensures Snapshot() == CommitAll(old(Snapshot()), Model.Transition(old(Snapshot()), to, next, gateContext))
    {
      ok := CanRolloutTransition(state, to);
      if ok {
        ghost var w := Snapshot();
        var done := SetRolloutState(state, to, next, gateContext);
        assert Model.Transition(w, to, next, gateContext)[1..] == [];
      }
    }

    method StartRollout() returns (ok: bool)
      requires WellFormed(Snapshot()) && Keyed(Snapshot())
      modifies this, queue`rows
      ensures ok <==> !old(state).Running? && !old(state).Completed? && !old(state).RolledBack?
      ensures WellFormed(Snapshot()) && Keyed(Snapshot())
      ensures Snapshot() == AfterCall(old(Snapshot()), StartCall)
      ensures Snapshot() == if !ok then old(Snapshot())
                            else AdvanceLoop(old(Snapshot()).(state := Running, stage := 0, gate := None), MAX_ADVANCE_STEPS)
    {
      ghost var w := Snapshot();
      Moves.StartsExactly(w);
      ok := Transition(Running, 0, None);
      CommitAllKeepsShape(w, Start(w));
      if ok {
        Advance();
      }
    }

    method StopRollout() returns (ok: bool)
      requires WellFormed(Snapshot())
      modifies this`state, this`stage, this`gate, this`entered
      ensures ok <==> old(state).Running? || old(state).WaitingGate?
      ensures Snapshot() == AfterCall(old(Snapshot()), StopCall)
      ensures Snapshot() == if ok then old(Snapshot()).(state := Paused) else old(Snapshot())
    {
      Moves.StopsExactly(Snapshot());
      ok := Transition(Paused, stage, gate);
    }

    method ResumeRollout() returns (ok: bool)
      requires WellFormed(Snapshot()) && Keyed(Snapshot())
      modifies this, queue`rows
      ensures ok <==> CanRolloutTransition(old(state), if old(gate).Some? then WaitingGate else Running)
      ensures WellFormed(Snapshot()) && Keyed(Snapshot())
      ensures Snapshot() == AfterCall(old(Snapshot()), ResumeCall)
      ensures ok <==> if old(gate).Some? then old(state).Running? || old(state).Paused?
                      else !old(state).Running? && !old(state).Completed? && !old(state).RolledBack?
      ensures !ok ==> Snapshot() == old(Snapshot())
      ensures ok && old(gate).None? ==> Snapshot() == AdvanceLoop(old(Snapshot()).(state := Running), MAX_ADVANCE_STEPS)
      ensures ok && old(gate).Some? ==>
                Snapshot() == AdvanceLoop(old(Snapshot()).(state := WaitingGate,
                                            entered := old(entered)[(old(stage), old(gate).value.side) := old(gate).value.enteredAt]),
                                          MAX_ADVANCE_STEPS)
    {
      ghost var w := Snapshot();
      Moves.ResumesExactly(w);
      var to := Running;
      if gate.Some? {
        to := WaitingGate;
      }
      ok := Transition(to, stage, gate);
      CommitAllKeepsShape(w, Resume(w));
      if ok {
        Advance();
      }
    }

    method ClearGate()
      modifies this`state, this`stage, this`gate, this`entered
      ensures Snapshot() == CommitAll(old(Snapshot()), Model.ClearGate(old(Snapshot())))
    {
      var next := stage;
      if gate.Some? && gate.value.side.After? {
        next := next + 1;
      }
      var ok := Transition(Running, next, None);
    }

    method GateApproved(s: nat, side: Side)
      modifies this`state, this`stage, this`gate, this`entered
      ensures Snapshot() == CommitAll(old(Snapshot()), Model.GateApproved(old(Snapshot()), s, side))
    {
      if stage != s || gate.None? || gate.value.side != side {
        return;
      }
      if !state.WaitingGate? && !state.Paused? {
        return;
      }
      ClearGate();
    }

    method GateRejected(s: nat)
      modifies this`state, this`stage, this`gate, this`entered
      ensures Snapshot() == CommitAll(old(Snapshot()), Model.GateRejected(old(Snapshot()), s))
    {
      if stage != s || gate.None? {
        return;
      }
      if !state.WaitingGate? && !state.Paused? {
        return;
      }
      var ok := Transition(Failed, stage, gate);
    }

    /** The approval.decided handler. */
    method Handle(id: nat)
      requires WellFormed(Snapshot())
      modifies this`state, this`stage, this`gate, this`entered
      ensures Snapshot() == AfterCall(old(Snapshot()), HandleCall(id))
    {
      if id >= |approvals| {
        return;
      }
      var a := approvals[id];
      if a.state.Approved? {
        GateApproved(a.stage, a.side);
      } else if a.state.Rejected? {
        GateRejected(a.stage);
      }
    }

    method RequestGateApproval()
      modifies this`gate, this`approvals
      ensures old(state).WaitingGate? && old(gate).Some? && old(gate).value.kind.Approval? && old(gate).value.approvalId.None?
              ==> Snapshot() == CommitAll(old(Snapshot()), AskFor(old(Snapshot()), old(stage), old(gate).value.side))
      ensures !(old(state).WaitingGate? && old(gate).Some? && old(gate).value.kind.Approval? && old(gate).value.approvalId.None?)
              ==> Snapshot() == old(Snapshot())
    {
      if !state.WaitingGate? || gate.None? || !gate.value.kind.Approval? || gate.value.approvalId.Some? {
        return;
      }
      ghost var w := Snapshot();
      var id := |approvals|;
      approvals := approvals + [GateApproval(stage, gate.value.side, ApprovalPending)];
      gate := Some(gate.value.(approvalId := Some(id)));
      CommitTwo(w, RequestApproval(w.stage, w.gate.value.side), LinkApproval(w.stage, w.gate.value.side, id));
    }

    method EnterGate(s: nat, side: Side, kind: GateKind)
      requires state.Running? && s == stage
      modifies this`state, this`stage, this`gate, this`entered, this`approvals
      ensures Snapshot() == CommitAll(old(Snapshot()), Model.EnterGate(old(Snapshot()), s, side, kind))
    {
      ghost var w := Snapshot();
      var ok := Transition(WaitingGate, s, Some(GateContext(side, kind, queue.now, None)));
      ghost var enter := Model.Transition(w, WaitingGate, s, Some(GateContext(side, kind, w.now, None)));
      Batches.CommitAllSplit(w, enter, if kind.Approval? then AskFor(w, s, side) else []);
      if kind.Approval? {
        RequestGateApproval();
      }
    }

    /** Enqueue a row's command, then mark the row. */
    method HandOver(s: nat, cluster: string)
      requires s < |targets|
      modifies this`targets, queue`rows
      ensures |targets| == old(|targets|)
      ensures Snapshot() == AfterHand(old(Snapshot()), s, cluster)
    {
      hide DesiredState;
      var key := ApplyKey(s, cluster);
      queue.Enqueue(key, cluster, COMMAND_TYPE, DesiredState(about, desired));
      UpsertRow(s, Target(cluster, TargetDelivered, Some(key)));
    }

    /** Enqueue commands for up to `slots` pending rows of a stage. */
    method DeliverBatch(s: nat, slots: int)
      requires s < |targets|
      modifies this`targets, queue`rows
      ensures Snapshot() == CommitAll(old(Snapshot()), Model.DeliverBatch(s, old(targets[s]), slots, desired))
    {
      hide CommitAll, AfterHand, Model.DeliverBatch;
      var rows := targets[s];
      if slots <= 0 {
        DeliverNothing(Snapshot(), s, rows, slots);
        return;
      }
      assert rows[0..] == rows;
      var left := slots;
      ghost var done := CommitAll(Snapshot(), Model.DeliverBatch(s, rows, slots, desired));
      for i := 0 to |rows|
        invariant left >= 0 && s < |targets|
        invariant CommitAll(Snapshot(), Model.DeliverBatch(s, rows[i..], left, desired)) == done
      {
        if left == 0 {
          DeliverNothing(Snapshot(), s, rows[i..], left);
          return;
        }
        assert rows[i..][1..] == rows[i + 1..];
        if rows[i].status.TargetPending? {
          DeliverStep(Snapshot(), s, rows[i..], left);
          HandOver(s, rows[i].cluster);
          left := left - 1;
        } else {
          DeliverSkip(s, rows[i..], left, desired);
        }
      }
      DeliverNothing(Snapshot(), s, rows[|rows|..], left);
    }

    /** Seed every member as pending. */
    method SeedStage(s: nat, members: seq<string>)
      requires s < |targets|
      modifies this`targets
      ensures Snapshot() == CommitAll(old(Snapshot()), Seed(s, members)) && |targets| == old(|targets|)
    {
      ghost var done := CommitAll(Snapshot(), Seed(s, members));
      for i := 0 to |members|
        invariant s < |targets| == old(|targets|)
        invariant CommitAll(Snapshot(), Seed(s, members[i..])) == done
      {
        assert members[i..][1..] == members[i + 1..];
        ghost var w := Snapshot();
        UpsertRow(s, Target(members[i], TargetPending, None));
        ghost var all := Seed(s, members[i..]);
        assert all[1..] == Seed(s, members[i + 1..]);
      }
    }

    /** Take the answers to delivered commands into the rows, counting what is left. */
    method ReconcileStage() returns (pending: nat, active: nat, failed: nat)
      requires stage < |targets|
      modifies this`targets
      ensures var w := old(Snapshot());
              && Snapshot() == CommitAll(w, Reconcile(w.stage, w.targets[w.stage], w.queue))
              && |targets| == old(|targets|)
              && var rows := SettleAll(w.targets[w.stage], w.queue);
                 pending == Count(rows, TargetPending) && active == Count(rows, TargetDelivered) && failed == Count(rows, TargetFailed)
    {
      hide CommitAll, Reconcile, Count;
      NoneCounted();
      var rows := targets[stage];
      ghost var after := SettleAll(rows, queue.rows);
      ghost var done := CommitAll(Snapshot(), Reconcile(stage, rows, queue.rows));
      assert rows[0..] == rows && after[..0] == [];
      pending, active, failed := 0, 0, 0;
      for i := 0 to |rows|
        invariant stage < |targets| == old(|targets|)
        invariant CommitAll(Snapshot(), Reconcile(stage, rows[i..], queue.rows)) == done
        invariant pending == Count(after[..i], TargetPending)
        invariant active == Count(after[..i], TargetDelivered)
        invariant failed == Count(after[..i], TargetFailed)
      {
        CountNext(after, i, TargetPending);
        CountNext(after, i, TargetDelivered);
        CountNext(after, i, TargetFailed);
        var t := rows[i];
        assert rows[i..][1..] == rows[i + 1..];
        ReconcileStep(Snapshot(), stage, rows[i..], queue.rows);
        if t.status.TargetPending? {
          pending := pending + 1;
        } else if t.status.TargetDelivered? {
          if t.command.Some? && t.command.value in queue.rows && queue.rows[t.command.value].status.CommandAcked? {
            MarkRow(stage, t.cluster, TargetHealthy);
          } else if t.command.Some? && t.command.value in queue.rows && queue.rows[t.command.value].status.CommandNacked? {
            MarkRow(stage, t.cluster, TargetFailed);
            failed := failed + 1;
          } else {
            active := active + 1;
          }
        } else if t.status.TargetFailed? {
          failed := failed + 1;
        }
      }
      assert after[..|rows|] == after && rows[|rows|..] == [];
      NothingToReconcile(Snapshot(), stage, queue.rows);
    }

    /** One advance step; reports whether the rollout is parked, and whether it could be carried out. */
    method AdvanceOnce() returns (done: bool, ok: bool)
      requires WellFormed(Snapshot()) && Keyed(Snapshot())
      modifies this, queue`rows
      ensures WellFormed(Snapshot()) && Keyed(Snapshot())
      ensures Snapshot() == CommitAll(old(Snapshot()), Model.AdvanceOnce(old(Snapshot())))
      ensures done <==> !MovesOn(old(Snapshot()))
      ensures ok <==> !CannotAdvance(old(Snapshot()))
      ensures Advanced(old(Snapshot()), Snapshot())
      ensures done <==> !(old(state).Running? && stage == old(stage) + 1)
    {
      ghost var w := Snapshot();
      AdvanceDoes(w);
      MovesOnExactly(w);
      hide Advanced, MovesOn;
      CommitAllKeepsShape(w, Model.AdvanceOnce(w));
      CommitAllKeepsKeyed(w, Model.AdvanceOnce(w));
      if state.WaitingGate? {
        if gate.None? {
          ClearGate();
        } else if gate.value.kind.Approval? && gate.value.approvalId.None? {
          RequestGateApproval();
        } else if gate.value.kind.Wait? && queue.now >= gate.value.enteredAt + gate.value.kind.seconds {
          ClearGate();
        }
        return true, true;
      }
      if !state.Running? {
        return true, true;
      }
      if stage >= |stages| {
        var moved := Transition(Completed, stage, None);
        return true, true;
      }
      if targets[stage] == [] {
        ok := EnterStage();
        return true, ok;
      }
      done, ok := DriveStage();
    }

    method EnterStage() returns (ok: bool)
      requires WellFormed(Snapshot()) && Keyed(Snapshot()) && state.Running? && stage < |stages| && targets[stage] == []
      modifies this, queue`rows
      ensures Snapshot() == CommitAll(old(Snapshot()), Model.EnterStage(old(Snapshot())))
      ensures ok <==> !CannotAdvance(old(Snapshot()))
    {
      ghost var w := Snapshot();
      var members := ComputeStageMembers(fleet, stages[stage].clusterSetIds);
      if members.None? {
        return false;
      }
      if members.value == [] {
        var moved := Transition(Failed, stage, gate);
        return true;
      }
      Batches.CommitAllSplit(w, Seed(stage, members.value), AfterSeeding(w, members.value));
      MembersAreDistinct(fleet, stages[stage].clusterSetIds);
      SeedEffect(w, stage, [], members.value);
      assert [] + members.value == members.value;
      SeedStage(stage, members.value);
      if stages[stage].beforeGate.Some? {
        EnterGate(stage, Before, stages[stage].beforeGate.value);
        return true;
      }
      var n := ParseMaxConcurrency(stages[stage].maxConcurrency, |members.value|);
      if n.Err? {
        return false;
      }
      DeliverBatch(stage, n.value);
      return true;
    }

    method DriveStage() returns (done: bool, ok: bool)
      requires WellFormed(Snapshot()) && Keyed(Snapshot()) && state.Running? && stage < |stages| && targets[stage] != []
      modifies this, queue`rows
      ensures Snapshot() == CommitAll(old(Snapshot()), Model.DriveStage(old(Snapshot())))
      ensures done <==> !MovesOn(old(Snapshot()))
      ensures ok <==> !CannotAdvance(old(Snapshot()))
    {
      ghost var w := Snapshot();
      hide CommitAll, Reconcile, Keyed, Count, Model.AfterReconcile, Model.DriveStage;
      DriveSplits(w);
      var pending, active, failed := ReconcileStage();
      done, ok := AfterReconcile(pending, active, failed);
    }

    /** With a stage's answers counted: fail, top up, park on the after gate or move on. */
    method AfterReconcile(pending: nat, active: nat, failed: nat) returns (done: bool, ok: bool)
      requires WellFormed(Snapshot()) && state.Running? && stage < |stages|
      requires pending == Count(targets[stage], TargetPending) && active == Count(targets[stage], TargetDelivered)
      requires failed == Count(targets[stage], TargetFailed)
      modifies this, queue`rows
      ensures Snapshot() == CommitAll(old(Snapshot()), Model.AfterReconcile(old(Snapshot()), old(targets[stage])))
      ensures done <==> !(failed == 0 && pending + active == 0 && stages[old(stage)].afterGate.None?)
      ensures ok <==> !(failed == 0 && pending + active > 0 &&
                        var members := Members(old(Snapshot()), old(stage));
                        members.None? || Slots(old(Snapshot()), old(stage), |members.value|).None?)
    {
      ghost var w := Snapshot();
      NoWritesLeft(w);
      hide CommitAll, Count, Model.DeliverBatch, StageMembers, ParseMaxConcurrency, Commit;
      if failed > 0 {
        var moved := Transition(Failed, stage, gate);
        return true, true;
      }
      if pending + active > 0 {
        var members := ComputeStageMembers(fleet, stages[stage].clusterSetIds);
        if members.None? {
          return true, false;
        }
        var n := ParseMaxConcurrency(stages[stage].maxConcurrency, |members.value|);
        if n.Err? {
          return true, false;
        }
        DeliverBatch(stage, n.value - active);
        return true, true;
      }
      if stages[stage].afterGate.Some? {
        EnterGate(stage, After, stages[stage].afterGate.value);
        return true, true;
      }
      Undo.CommitOne(w, Cas(state, state, stage + 1, None));
      var moved := SetRolloutState(state, state, stage + 1, None);
      return false, true;
    }

    /** Drive the rollout until it parks; bounded by the number of steps one call may take. */
    method Advance()
      requires WellFormed(Snapshot()) && Keyed(Snapshot())
      modifies this, queue`rows
      ensures WellFormed(Snapshot()) && Keyed(Snapshot())
      ensures Snapshot() == AfterCall(old(Snapshot()), AdvanceCall)
    {
      hide Advanced, MovesOn, CannotAdvance, CommitAll, Keyed, Model.AdvanceOnce;
      ghost var w := Snapshot();
      for i := 0 to MAX_ADVANCE_STEPS
        invariant WellFormed(Snapshot()) && Keyed(Snapshot())
        invariant AdvanceLoop(Snapshot(), MAX_ADVANCE_STEPS - i) == AdvanceLoop(w, MAX_ADVANCE_STEPS)
      {
        var done, ok := AdvanceOnce();
        if done {
          return;
        }
      }
    }

    /** Enqueue the previous version for the members of every stage, last stage first; stops at a missing set. */
    method RollbackStages(toVersion: string) returns (ok: bool)
      modifies queue`rows
      ensures Snapshot() == CommitAll(old(Snapshot()), RollbackFrom(old(Snapshot()), |stages|, toVersion).0)
      ensures Snapshot() == old(Snapshot()).(queue := queue.rows)
      ensures ok == RollbackFrom(old(Snapshot()), |stages|, toVersion).1
    {
      ghost var w := Snapshot();
      hide CommitAll, RollbackStage, StageMembers;
      var s: nat := |stages|;
      while s > 0
        invariant s <= |stages| && RollbackFrom(w, s, toVersion).1 == RollbackFrom(w, |stages|, toVersion).1
        invariant Snapshot() == w.(queue := queue.rows)
        invariant CommitAll(Snapshot(), RollbackFrom(w, s, toVersion).0) == CommitAll(w, RollbackFrom(w, |stages|, toVersion).0)
      {
        s := s - 1;
        var members := ComputeStageMembers(fleet, stages[s].clusterSetIds);
        if members.None? {
          NoWritesLeft(Snapshot());
          return false;
        }
        ghost var rest := RollbackFrom(w, s, toVersion).0;
        Batches.CommitAllSplit(Snapshot(), RollbackStage(s, members.value, toVersion), rest);
        RollbackMembers(s, members.value, toVersion);
      }
      NoWritesLeft(Snapshot());
      return true;
    }

    /** Send the previous version to every member and end the rollout. */
    method Rollback(toVersion: string) returns (ok: bool)
      requires WellFormed(Snapshot())
      modifies this, queue`rows
      ensures Snapshot() == AfterCall(old(Snapshot()), RollbackCall(toVersion))
      ensures ok <==>
                && toVersion != "" && toVersion != desired && !old(state).Pending? && !old(state).RolledBack?
                && forall s | 0 <= s < |stages| :: Members(old(Snapshot()), s).Some?
      ensures Snapshot() == if ok then old(Snapshot()).(state := RolledBack, gate := None, queue := queue.rows)
                            else old(Snapshot()).(queue := queue.rows)
      ensures forall k | k in old(queue.rows) :: k in queue.rows && queue.rows[k] == old(queue.rows)[k]
      ensures forall k | k in queue.rows && k !in old(queue.rows) ::
                k.suffix == CommandIds.Rollback && queue.rows[k].payload == DesiredState(about, toVersion)
      ensures ok ==> forall s, c | 0 <= s < |stages| && c in Members(old(Snapshot()), s).value ::
                       CommandKey(s, c, CommandIds.Rollback) in queue.rows
    {
      ghost var w := Snapshot();
      Moves.RollsBackExactly(w, toVersion);
      NoWritesLeft(w);
      hide CommitAll, RollbackFrom, Members;
      if toVersion == "" || state.Pending? || state.RolledBack? || toVersion == desired {
        return false;
      }
      Undo.RollbackOkExactly(w, |stages|, toVersion);
      ghost var (writes, found) := RollbackFrom(w, |stages|, toVersion);
      ghost var last := if found then Model.Transition(w, RolledBack, w.stage, None) else [];
      Batches.CommitAllSplit(w, writes, last);
      ok := RollbackStages(toVersion);
      if !ok {
        NoWritesLeft(Snapshot());
        return false;
      }
      var moved := Transition(RolledBack, stage, None);
    }

    method RollbackMembers(s: nat, members: seq<string>, toVersion: string)
      modifies queue`rows
      ensures Snapshot() == CommitAll(old(Snapshot()), RollbackStage(s, members, toVersion))
      ensures Snapshot() == old(Snapshot()).(queue := queue.rows)
    {
      hide DesiredState;
      ghost var done := CommitAll(Snapshot(), RollbackStage(s, members, toVersion));
      for i := 0 to |members|
        invariant Snapshot() == old(Snapshot()).(queue := queue.rows)
        invariant CommitAll(Snapshot(), RollbackStage(s, members[i..], toVersion)) == done
      {
        assert members[i..][1..] == members[i + 1..];
        ghost var all := RollbackStage(s, members[i..], toVersion);
        assert all[1..] == RollbackStage(s, members[i + 1..], toVersion);
        queue.Enqueue(CommandKey(s, members[i], CommandIds.Rollback), members[i], COMMAND_TYPE, DesiredState(about, toVersion));
      }
    }
  }

  // ----- Calls are runs

  /** The steps one call of Advance takes. */
  function AdvanceSteps(w: World, fuel: nat): seq<Step>
    requires WellFormed(w)
    decreases fuel
  {
    if fuel == 0 then []
    else
      var writes := Model.AdvanceOnce(w);
      CommitAllKeepsShape(w, writes);
      [AdvanceStep(|writes|)] + (if MovesOn(w) then AdvanceSteps(CommitAll(w, writes), fuel - 1) else [])
  }

  /** The steps a call takes. */
  function CallSteps(w: World, call: Call): seq<Step>
    requires WellFormed(w)
  {
    match call
    case StartCall =>
      CommitAllKeepsShape(w, Start(w));
      if CanRolloutTransition(w.state, Running) then [StartStep] + AdvanceSteps(CommitAll(w, Start(w)), MAX_ADVANCE_STEPS) else []
    case StopCall => [StopStep]
    case ResumeCall =>
      CommitAllKeepsShape(w, Resume(w));
      if CanRolloutTransition(w.state, if w.gate.Some? then WaitingGate else Running)
      then [ResumeStep] + AdvanceSteps(CommitAll(w, Resume(w)), MAX_ADVANCE_STEPS) else []
    case AdvanceCall => AdvanceSteps(w, MAX_ADVANCE_STEPS)
    case HandleCall(id) => [DecidedStep(id)]
    case RollbackCall(version) => [RollbackStep(version, |RollBack(w, version)|)]
    case OutsideCall(step) => if Outside(step) then [step] else []
  }

  function CallsSteps(w: World, calls: seq<Call>): seq<Step>
    requires WellFormed(w)
    decreases |calls|
  {
    if calls == [] then []
    else
      CallKeepsShape(w, calls[0]);
      CallSteps(w, calls[0]) + CallsSteps(AfterCall(w, calls[0]), calls[1..])
  }

  function AfterCalls(w: World, calls: seq<Call>): World
    requires WellFormed(w)
    decreases |calls|
  {
    if calls == [] then w
    else
      CallKeepsShape(w, calls[0]);
      AfterCalls(AfterCall(w, calls[0]), calls[1..])
  }

  lemma {:induction false} LoopKeepsShape(w: World, fuel: nat)
    requires WellFormed(w)
    ensures WellFormed(AdvanceLoop(w, fuel))
    decreases fuel
  {
    if fuel > 0 {
      CommitAllKeepsShape(w, Model.AdvanceOnce(w));
      if MovesOn(w) {
        LoopKeepsShape(CommitAll(w, Model.AdvanceOnce(w)), fuel - 1);
      }
    }
  }

  lemma CallKeepsShape(w: World, call: Call)
    requires WellFormed(w)
    ensures WellFormed(AfterCall(w, call))
  {
    hide CommitAll, AdvanceLoop, Take;
    match call
    case StartCall =>
      CommitAllKeepsShape(w, Start(w));
      LoopKeepsShape(CommitAll(w, Start(w)), MAX_ADVANCE_STEPS);
    case StopCall => CommitAllKeepsShape(w, Stop(w));
    case ResumeCall =>
      CommitAllKeepsShape(w, Resume(w));
      LoopKeepsShape(CommitAll(w, Resume(w)), MAX_ADVANCE_STEPS);
    case AdvanceCall => LoopKeepsShape(w, MAX_ADVANCE_STEPS);
    case HandleCall(id) => CommitAllKeepsShape(w, Model.Handle(w, id));
    case RollbackCall(version) => CommitAllKeepsShape(w, RollBack(w, version));
    case OutsideCall(step) => TakeKeepsShape(w, step);
  }

  lemma WholeStepIsNotTorn(w: World)
    requires WellFormed(w)
    ensures !TornSeeding(w, |Model.AdvanceOnce(w)|)
  {
    if w.state.Running? && w.stage < |w.stages| && Members(w, w.stage).Some? {
      SeedLength(w.stage, Members(w, w.stage).value);
    }
  }

  lemma {:induction false} AdmissibleSplit(w: World, a: seq<Step>, b: seq<Step>)
    requires WellFormed(w)
    ensures WellFormed(Run(w, a)) && (AdmissibleRun(w, a + b) <==> AdmissibleRun(w, a) && AdmissibleRun(Run(w, a), b))
    decreases |a|
  {
    if a == [] {
      assert a + b == b;
    } else {
      TakeKeepsShape(w, a[0]);
      assert (a + b)[1..] == a[1..] + b;
      AdmissibleSplit(Take(w, a[0]), a[1..], b);
    }
  }

  lemma AdmissibleOne(w: World, step: Step)
    requires WellFormed(w)
    ensures AdmissibleRun(w, [step]) <==> Admissible(w, step)
  {
    hide Take, Admissible;
    TakeKeepsShape(w, step);
    assert [step][1..] == [];
    assert AdmissibleRun(Take(w, step), []);
  }

  lemma {:induction false} LoopIsARun(w: World, fuel: nat)
    requires WellFormed(w)
    ensures AdmissibleRun(w, AdvanceSteps(w, fuel)) && AdvanceLoop(w, fuel) == Run(w, AdvanceSteps(w, fuel))
    decreases fuel
  {
    hide Model.AdvanceOnce, TornSeeding, MovesOn;
    if fuel > 0 {
      var writes := Model.AdvanceOnce(w);
      var step := AdvanceStep(|writes|);
      WholeStepIsNotTorn(w);
      Batches.PrefixAll(w, writes, |writes|);
      TakeKeepsShape(w, step);
      var rest := AdvanceSteps(w, fuel)[1..];
      if MovesOn(w) {
        LoopIsARun(Take(w, step), fuel - 1);
      } else {
        assert rest == [];
      }
    }
  }

  ghost predicate WholeStep(w: World, steps: seq<Step>, i: nat)
    requires WellFormed(w) && i < |steps|
  {
    Limits.RunKeepsShape(w, steps[..i]);
    steps[i] == AdvanceStep(|Model.AdvanceOnce(Run(w, steps[..i]))|)
  }

  ghost predicate MovesOnAt(w: World, steps: seq<Step>, i: nat)
    requires WellFormed(w) && i < |steps|
  {
    Limits.RunKeepsShape(w, steps[..i]);
    MovesOn(Run(w, steps[..i]))
  }

  /** Whole steps, each but the last moving on to the next stage, and the last one not doing so unless it is
      the last one allowed. */
  ghost predicate AsOneCall(w: World, steps: seq<Step>, fuel: nat)
    requires WellFormed(w)
  {
    && |steps| <= fuel && (fuel > 0 ==> steps != [])
    && (forall i | 0 <= i < |steps| :: WholeStep(w, steps, i) && (i < |steps| - 1 ==> MovesOnAt(w, steps, i)))
    && (0 < |steps| < fuel ==> !MovesOnAt(w, steps, |steps| - 1))
  }

  lemma OneStepOn(w: World, step: Step, v: World, rest: seq<Step>, i: nat)
    requires WellFormed(w) && v == Take(w, step) && WellFormed(v) && 1 <= i <= |rest|
    ensures WholeStep(w, [step] + rest, i) == WholeStep(v, rest, i - 1)
    ensures MovesOnAt(w, [step] + rest, i) == MovesOnAt(v, rest, i - 1)
  {
    hide Model.AdvanceOnce, MovesOn, Take;
    var steps := [step] + rest;
    assert steps[..i] == [step] + rest[..i - 1] && steps[..i][1..] == rest[..i - 1];
    assert steps[i] == rest[i - 1];
    Limits.RunKeepsShape(v, rest[..i - 1]);
    Limits.RunKeepsShape(w, steps[..i]);
  }

  lemma FirstStep(w: World, step: Step, rest: seq<Step>)
    requires WellFormed(w)
    ensures WholeStep(w, [step] + rest, 0) <==> step == AdvanceStep(|Model.AdvanceOnce(w)|)
    ensures MovesOnAt(w, [step] + rest, 0) <==> MovesOn(w)
  {
    hide Model.AdvanceOnce, MovesOn, Take;
    assert ([step] + rest)[..0] == [];
  }

  lemma OneStepMore(w: World, step: Step, v: World, rest: seq<Step>, fuel: nat)
    requires WellFormed(w) && v == Take(w, step) && WellFormed(v) && step == AdvanceStep(|Model.AdvanceOnce(w)|)
    requires if MovesOn(w) then AsOneCall(v, rest, fuel) else rest == []
    ensures AsOneCall(w, [step] + rest, fuel + 1)
  {
    hide Model.AdvanceOnce, MovesOn, Take, WholeStep, MovesOnAt;
    var steps := [step] + rest;
    FirstStep(w, step, rest);
    forall i | 1 <= i < |steps|
      ensures WholeStep(w, steps, i) == WholeStep(v, rest, i - 1) && MovesOnAt(w, steps, i) == MovesOnAt(v, rest, i - 1)
    {
      OneStepOn(w, step, v, rest, i);
    }
  }

  lemma NoStepsAllowed(w: World)
    requires WellFormed(w)
    ensures AsOneCall(w, [], 0)
  {
  }

  lemma WholeAdvance(w: World)
    requires WellFormed(w)
    ensures Take(w, AdvanceStep(|Model.AdvanceOnce(w)|)) == CommitAll(w, Model.AdvanceOnce(w))
  {
    Batches.PrefixAll(w, Model.AdvanceOnce(w), |Model.AdvanceOnce(w)|);
    hide Model.AdvanceOnce;
  }

  /** That is what one call of Advance takes. */
  lemma {:induction false} AdvanceStopsExactly(w: World, fuel: nat)
    requires WellFormed(w)
    ensures AdvanceLoop(w, fuel) == Run(w, AdvanceSteps(w, fuel)) && AsOneCall(w, AdvanceSteps(w, fuel), fuel)
    decreases fuel
  {
    hide Model.AdvanceOnce, MovesOn, CommitAll, AsOneCall, AdvanceLoop, Run, AdmissibleRun, Take;
    LoopIsARun(w, fuel);
    NoStepsAllowed(w);
    if fuel > 0 {
      var writes := Model.AdvanceOnce(w);
      var v := CommitAll(w, writes);
      CommitAllKeepsShape(w, writes);
      WholeAdvance(w);
      var rest := if MovesOn(w) then AdvanceSteps(v, fuel - 1) else [];
      if MovesOn(w) {
        AdvanceStopsExactly(v, fuel - 1);
      }
      OneStepMore(w, AdvanceStep(|writes|), v, rest, fuel - 1);
    }
  }

  lemma StepThenLoop(w: World, step: Step, v: World)
    requires WellFormed(w) && v == Take(w, step)
    ensures WellFormed(v)
    ensures var steps := [step] + AdvanceSteps(v, MAX_ADVANCE_STEPS);
            && AdvanceLoop(v, MAX_ADVANCE_STEPS) == Run(w, steps)
            && (AdmissibleRun(w, steps) <==> Admissible(w, step))
  {
    hide Take, AdvanceLoop, AdvanceSteps, Admissible, Run, AdmissibleRun;
    TakeKeepsShape(w, step);
    LoopIsARun(v, MAX_ADVANCE_STEPS);
    Undo.RunOne(w, step);
    Undo.RunSplit(w, [step], AdvanceSteps(v, MAX_ADVANCE_STEPS));
    AdmissibleSplit(w, [step], AdvanceSteps(v, MAX_ADVANCE_STEPS));
    AdmissibleOne(w, step);
  }

  /** A start that a call makes is one that fits. */
  predicate FittingCall(w: World, call: Call) {
    call.StartCall? && CanRolloutTransition(w.state, Running) ==> StartFits(w)
  }

  lemma CallIsARun(w: World, call: Call)
    requires WellFormed(w)
    ensures AfterCall(w, call) == Run(w, CallSteps(w, call))
    ensures AdmissibleRun(w, CallSteps(w, call)) <==> FittingCall(w, call)
  {
    hide AdvanceLoop, AdvanceSteps, Run, AdmissibleRun, StartFits, CommitAll;
    NoCallNoSteps(w);
    match call
    case StartCall => StepThenLoop(w, StartStep, CommitAll(w, Start(w)));
    case ResumeCall => StepThenLoop(w, ResumeStep, CommitAll(w, Resume(w)));
    case AdvanceCall => LoopIsARun(w, MAX_ADVANCE_STEPS);
    case StopCall => SingleStep(w, StopStep);
    case HandleCall(id) => SingleStep(w, DecidedStep(id));
    case RollbackCall(version) =>
      Batches.PrefixAll(w, RollBack(w, version), |RollBack(w, version)|);
      SingleStep(w, RollbackStep(version, |RollBack(w, version)|));
    case OutsideCall(step) =>
      if Outside(step) {
        SingleStep(w, step);
      }
  }

  lemma NoCallNoSteps(w: World)
    requires WellFormed(w)
    ensures Run(w, []) == w && AdmissibleRun(w, [])
  {
  }

  lemma SingleStep(w: World, step: Step)
    requires WellFormed(w)
    ensures Run(w, [step]) == Take(w, step) && (AdmissibleRun(w, [step]) <==> Admissible(w, step))
  {
    Undo.RunOne(w, step);
    AdmissibleOne(w, step);
  }

  predicate FittingCalls(w: World, calls: seq<Call>)
    requires WellFormed(w)
    decreases |calls|
  {
    calls == [] ||
    (FittingCall(w, calls[0]) && (CallKeepsShape(w, calls[0]); FittingCalls(AfterCall(w, calls[0]), calls[1..])))
  }

  /** Any sequence of calls that are not cut short, with steps of others in between, is a run of the model;
      and it keeps the before gates too if no start in it drops an unmet one. */
  lemma {:induction false} CallsAreARun(w: World, calls: seq<Call>)
    requires WellFormed(w)
    ensures AfterCalls(w, calls) == Run(w, CallsSteps(w, calls))
    ensures AdmissibleRun(w, CallsSteps(w, calls)) <==> FittingCalls(w, calls)
    decreases |calls|
  {
    hide AfterCall, CallSteps, FittingCall, Run, AdmissibleRun;
    NoCallNoSteps(w);
    if calls != [] {
      CallKeepsShape(w, calls[0]);
      CallIsARun(w, calls[0]);
      var v := AfterCall(w, calls[0]);
      CallsAreARun(v, calls[1..]);
      Undo.RunSplit(w, CallSteps(w, calls[0]), CallsSteps(v, calls[1..]));
      AdmissibleSplit(w, CallSteps(w, calls[0]), CallsSteps(v, calls[1..]));
    }
  }

  /** So of a rollout that was created and called any number of times: it is in order; completed means
      acknowledged; and with fitting starts no before gate was skipped. */
  lemma ServiceKeepsItsOrder(w: World, calls: seq<Call>)
    requires Created(w)
    ensures var v := AfterCalls(w, calls);
            && WellFormed(v) && v.stage <= |v.stages|
            && (forall s | 0 <= s < v.stage :: StageAcknowledged(v, s) && Passed(v, s, After))
            && (v.state.Completed? ==> forall s | 0 <= s < |v.stages| :: StageAcknowledged(v, s))
            && (FittingCalls(w, calls) ==> forall k | k in v.queue && k.suffix.Apply? :: Passed(v, k.stage, Before))
  {
    CallsAreARun(w, calls);
    hide AfterCalls, CallsSteps, Run, AdmissibleRun, FittingCalls;
    var steps := CallsSteps(w, calls);
    StagesAreTakenInOrder(w, steps);
    if Run(w, steps).state.Completed? {
      CompletedMeansAcknowledged(w, steps);
    }
    if FittingCalls(w, calls) {
      GatesAreNeverSkipped(w, steps);
    }
  }
}
