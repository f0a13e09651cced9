/** What starting, stopping, resuming and rolling back do, and what a stop is worth. */
module RolloutMoves {
  import opened Wrappers
  import opened Stages
  import opened ClusterSets
  import opened CommandIds
  import opened CommandQueue
  import opened RolloutModel
  import opened RolloutSafety
  import opened RolloutRuns
  import Batches = RolloutBatches
  import Undo = RolloutUndo

  lemma OneTransition(w: World, to: RolloutState, stage: nat, gate: Option<GateContext>)
    ensures CommitAll(w, Transition(w, to, stage, gate)) ==
            if !CanRolloutTransition(w.state, to) then w
            else w.(state := to, stage := stage, gate := gate,
                    entered := if to.WaitingGate? && gate.Some? then w.entered[(stage, gate.value.side) := gate.value.enteredAt] else w.entered)
  {
    if CanRolloutTransition(w.state, to) {
      OneCas(w, to, stage, gate);
    }
  }

  /** A start begins at the first stage with no gate open; it is refused while the rollout runs and once it is
      completed or rolled back. */
  lemma StartsExactly(w: World)
    requires WellFormed(w)
    ensures Take(w, StartStep) ==
            if w.state.Running? || w.state.Completed? || w.state.RolledBack? then w
            else w.(state := Running, stage := 0, gate := None)
  {
    OneTransition(w, Running, 0, None);
  }

  /** A stop pauses a rollout that runs or waits at a gate, where it is, and any other one not at all. */
  lemma StopsExactly(w: World)
    requires WellFormed(w)
    ensures Take(w, StopStep) == if w.state.Running? || w.state.WaitingGate? then w.(state := Paused) else w
  {
    OneTransition(w, Paused, w.stage, w.gate);
  }

  /** A resume goes back into the open gate, or on with the stage when none is open. The table of moves lets it
      do so from more states than the paused one. */
  lemma ResumesExactly(w: World)
    requires WellFormed(w)
    ensures w.gate.Some? ==>
              Take(w, ResumeStep) ==
              if w.state.Running? || w.state.Paused?
              then w.(state := WaitingGate, entered := w.entered[(w.stage, w.gate.value.side) := w.gate.value.enteredAt]) else w
    ensures w.gate.None? ==>
              Take(w, ResumeStep) ==
              if w.state.Running? || w.state.Completed? || w.state.RolledBack? then w else w.(state := Running)
  {
    OneTransition(w, if w.gate.Some? then WaitingGate else Running, w.stage, w.gate);
  }

  /** Linking a request takes effect exactly if the rollout still waits at that gate of that stage, with no
      request linked; otherwise the request is an orphan and nothing else has happened. */
  lemma LinksExactly(w: World, stage: nat, side: Side, id: nat)
    ensures var v := Commit(w, LinkApproval(stage, side, id));
            if w.state == WaitingGate && w.stage == stage && w.gate.Some? && w.gate.value.side == side && w.gate.value.approvalId == None
            then v == w.(gate := Some(GateContext(side, w.gate.value.kind, w.gate.value.enteredAt, Some(id))))
            else v == w
  {
  }

  lemma StopThenResume(w: World)
    requires Base(w) && (w.state.Running? || w.state.WaitingGate?)
    ensures WellFormed(Take(w, StopStep)) && Take(Take(w, StopStep), ResumeStep) == w
  {
    StopsExactly(w);
    var u := w.(state := Paused);
    ResumesExactly(u);
    if w.gate.Some? {
      assert w.entered[(w.stage, w.gate.value.side) := w.gate.value.enteredAt] == w.entered;
    }
  }

  /** In every run, stopping a rollout that is under way and resuming it at once leaves it exactly as it was. */
  lemma PauseChangesNothing(w0: World, steps: seq<Step>)
    requires Created(w0)
    requires var w := Run(w0, steps); w.state.Running? || w.state.WaitingGate?
    ensures var w := Run(w0, steps); WellFormed(w) && Run(w, [StopStep, ResumeStep]) == w
  {
    CreatedInv(w0);
    RunKeeps(w0, steps);
    BaseHasShape(Run(w0, steps));
    StopThenResume(Run(w0, steps));
    Undo.TwoSteps(Run(w0, steps), StopStep, ResumeStep);
  }

  /** Nobody starts, resumes or rolls back, and no decision on a gate is delivered. */
  predicate LeftAlone(steps: seq<Step>) {
    forall i | 0 <= i < |steps| ::
      !steps[i].StartStep? && !steps[i].ResumeStep? && !steps[i].RollbackStep? && !steps[i].DecidedStep?
  }

  lemma PausedStep(w: World, step: Step)
    requires WellFormed(w) && w.state.Paused? && LeftAlone([step])
    ensures var v := Take(w, step);
            v.state.Paused? && v.stage == w.stage && v.gate == w.gate && v.targets == w.targets && v.queue.Keys == w.queue.Keys
  {
    assert [step][0] == step;
    StopsExactly(w);
    if step.AdvanceStep? {
      assert AdvanceOnce(w) == [];
      assert CommitPrefix(w, [], step.committed) == w;
    }
  }

  /** A paused rollout that is left alone stays paused where it is, whatever agents, approvers, fleet and clock
      do and however often it is advanced or stopped again: no row moves and no command is added. */
  lemma {:induction false} PausedStaysPut(w: World, steps: seq<Step>)
    requires WellFormed(w) && w.state.Paused? && LeftAlone(steps)
    ensures var v := Run(w, steps);
            v.state.Paused? && v.stage == w.stage && v.gate == w.gate && v.targets == w.targets && v.queue.Keys == w.queue.Keys
    decreases |steps|
  {
    hide Take;
    if steps != [] {
      assert LeftAlone([steps[0]]) && LeftAlone(steps[1..]);
      TakeKeepsShape(w, steps[0]);
      PausedStep(w, steps[0]);
      PausedStaysPut(Take(w, steps[0]), steps[1..]);
    }
  }

  /** So a stop of a rollout that is under way is one: nothing more goes out until somebody starts, resumes,
      rolls back or decides. */
  lemma StopHolds(w: World, steps: seq<Step>)
    requires WellFormed(w) && (w.state.Running? || w.state.WaitingGate?) && LeftAlone(steps)
    ensures WellFormed(Take(w, StopStep))
    ensures var v := Run(Take(w, StopStep), steps);
            v.state.Paused? && v.stage == w.stage && v.gate == w.gate && v.targets == w.targets && v.queue.Keys == w.queue.Keys
  {
    StopsExactly(w);
    PausedStaysPut(w.(state := Paused), steps);
  }

  // ----- Rolling back

  /** All sets of these stages exist, the given one included. */
  predicate SetsFrom(w: World, s: nat) {
    forall r | s <= r < |w.stages| :: Members(w, r).Some?
  }

  lemma {:induction false} RollbackCoversDownTo(w: World, v: World, stage: nat, version: string, s: nat, c: string)
    requires stage <= |w.stages| && s < stage && (forall r | s <= r < stage :: Members(w, r).Some?) && c in Members(w, s).value
    ensures CommandKey(s, c, Rollback) in CommitAll(v, RollbackFrom(w, stage, version).0).queue
    decreases stage
  {
    hide RollbackStage, CommitAll, StageMembers;
    var members := Members(w, stage - 1).value;
    var first, rest := RollbackStage(stage - 1, members, version), RollbackFrom(w, stage - 1, version).0;
    Batches.CommitAllSplit(v, first, rest);
    Undo.RollbackStageAdds(v, stage - 1, members, version);
    Undo.RollbackFromAdds(w, CommitAll(v, first), stage - 1, version);
    if s < stage - 1 {
      RollbackCoversDownTo(w, CommitAll(v, first), stage - 1, version, s, c);
    }
  }

  /** A rollback is refused without a version, for the version that is rolled out, before the first start and
      after another rollback. Otherwise it only adds rollback commands to the version, for every member of
      every stage from the last one down to the first set that is missing; and if none is, the rollout ends
      as rolled back where it is, its rows as they were. */
  lemma RollsBackExactly(w: World, version: string)
    ensures var v := CommitAll(w, RollBack(w, version));
            var allowed := version != "" && version != w.desired && !w.state.Pending? && !w.state.RolledBack?;
            && (!allowed ==> v == w)
            && (allowed ==>
                  && v == (if SetsFrom(w, 0) then w.(state := RolledBack, gate := None, queue := v.queue) else w.(queue := v.queue))
                  && (forall k | k in w.queue :: k in v.queue && v.queue[k] == w.queue[k])
                  && (forall k | k in v.queue && k !in w.queue :: k.suffix.Rollback? && v.queue[k].payload == DesiredState(w.about, version))
                  && (forall s, c | 0 <= s < |w.stages| && SetsFrom(w, s) && c in Members(w, s).value :: CommandKey(s, c, Rollback) in v.queue))
  {
    hide CommitAll, RollbackFrom, StageMembers, DesiredState;
    if CanRollBack(w, version) {
      var (writes, ok) := RollbackFrom(w, |w.stages|, version);
      var u := CommitAll(w, writes);
      Undo.RollbackOkExactly(w, |w.stages|, version);
      Undo.RollbackFromAdds(w, w, |w.stages|, version);
      Batches.CommitAllSplit(w, writes, if ok then Transition(w, RolledBack, w.stage, None) else []);
      Undo.NothingAdded(u, version);
      OneTransition(u, RolledBack, u.stage, None);
      forall s, c | 0 <= s < |w.stages| && SetsFrom(w, s) && c in Members(w, s).value ensures CommandKey(s, c, Rollback) in u.queue {
        RollbackCoversDownTo(w, w, |w.stages|, version, s, c);
      }
    } else {
      Undo.NothingAdded(w, version);
    }
  }
}
