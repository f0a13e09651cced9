/** Getting through gates: with agents that acknowledge and approvers that approve, every rollout whose commands
    could be read can be brought to its end. */
module RolloutCompletion {
  import opened Wrappers
  import opened Stages
  import opened ClusterSets
  import opened CommandIds
  import opened CommandQueue
  import opened RolloutModel
  import opened RolloutSafety
  import opened RolloutBatches
  import opened RolloutRuns
  import opened RolloutLimits
  import opened RolloutUndo
  import opened RolloutProgress
  import opened RolloutEffects
  import opened RolloutOutcomes

  /** Nobody refuses, rejects, withdraws, stops or changes anything. */
  predicate Cooperative(step: Step) {
    step.SendStep? || step.ClockStep? || step.AdvanceStep? || (step.AnswerStep? && step.ack)
    || (step.DecideStep? && step.approve) || step.DecidedStep?
  }

  predicate AllCooperative(steps: seq<Step>) {
    forall i | 0 <= i < |steps| :: Cooperative(steps[i])
  }

  predicate HonestAndCooperative(w: World, steps: seq<Step>)
    requires WellFormed(w)
  {
    Honest(w, steps) && AllCooperative(steps)
  }

  lemma Joined(w: World, a: seq<Step>, b: seq<Step>)
    requires WellFormed(w) && HonestAndCooperative(w, a)
    ensures WellFormed(Run(w, a))
    ensures HonestAndCooperative(Run(w, a), b) ==> HonestAndCooperative(w, a + b)
    ensures Run(w, a + b) == Run(Run(w, a), b)
  {
    HonestSplit(w, a, b);
    RunSplit(w, a, b);
    hide Honest, Run;
  }

  lemma Single(w: World, step: Step)
    requires WellFormed(w) && Cooperative(step) && HonestStep(w, step)
    ensures HonestAndCooperative(w, [step]) && Run(w, [step]) == Take(w, step)
  {
    HonestOne(w, step);
    RunOne(w, step);
  }

  lemma BaseIsKeyed(w: World)
    requires Base(w)
    ensures WellFormed(w) && Keyed(w)
  {
    forall s | 0 <= s < |w.targets| ensures Distinct(w.targets[s]) {
      assert StageRowsOk(w, s);
    }
  }

  /** Parked on a gate that was just entered: an approval gate has its own, pending request. */
  predicate AtFreshGate(w: World) {
    && Base(w) && w.state.WaitingGate? && w.gate.Some? && w.stage < |w.stages| && StageOk(w.stages[w.stage])
    && (w.gate.value.kind.Approval? ==>
          && w.gate.value.approvalId.Some? && w.gate.value.approvalId.value < |w.approvals|
          && w.approvals[w.gate.value.approvalId.value] == GateApproval(w.stage, w.gate.value.side, ApprovalPending))
  }

  /** The gate is open behind us, and nothing else has moved but the clock and the request. */
  predicate Opened(w: World, v: World) {
    w.gate.Some?
    && v == w.(state := Running, gate := None, stage := if w.gate.value.side.After? then w.stage + 1 else w.stage,
               now := v.now, approvals := v.approvals)
  }

  lemma OpenByApproval(w: World) returns (steps: seq<Step>)
    requires AtFreshGate(w) && w.gate.value.kind.Approval?
    ensures WellFormed(w) && HonestAndCooperative(w, steps) && Opened(w, Run(w, steps))
  {
    var id := w.gate.value.approvalId.value;
    var decide, decided := DecideStep(id, true), DecidedStep(id);
    BaseHasShape(w);
    var u := Take(w, decide);
    TakeKeepsShape(w, decide);
    DecisionActsExactly(u, id);
    hide Base;
    Single(w, decide);
    Single(u, decided);
    Joined(w, [decide], [decided]);
    steps := [decide] + [decided];
  }

  lemma OpenByWaiting(w: World) returns (steps: seq<Step>)
    requires AtFreshGate(w) && w.gate.value.kind.Wait?
    ensures WellFormed(w) && HonestAndCooperative(w, steps) && Opened(w, Run(w, steps))
  {
    BaseIsKeyed(w);
    var seconds := if w.gate.value.kind.seconds > 0 then w.gate.value.kind.seconds else 0;
    assert w.gate.value.enteredAt <= w.now;
    var tick := ClockStep(seconds);
    var u := Take(w, tick);
    var last := AdvanceStep(|AdvanceOnce(u)|);
    hide Base;
    GateOutcome(u);
    Single(w, tick);
    Single(u, last);
    Joined(w, [tick], [last]);
    steps := [tick] + [last];
  }

  lemma GateIsKnown(w: World)
    requires AtFreshGate(w)
    ensures w.gate.value.kind.Approval? || w.gate.value.kind.Wait?
  {
  }

  lemma OpenGate(w: World) returns (steps: seq<Step>)
    requires AtFreshGate(w)
    ensures WellFormed(w) && HonestAndCooperative(w, steps) && Opened(w, Run(w, steps))
  {
    GateIsKnown(w);
    if w.gate.value.kind.Approval? {
      steps := OpenByApproval(w);
    } else {
      steps := OpenByWaiting(w);
    }
  }

  /** Closer to the end, on course again. */
  predicate Closer(w: World, v: World) {
    WellFormed(w) && WellFormed(v) && (v.state.Completed? || (OnCourse(v) && Staffed(v) && Measure(v) < Measure(w)))
  }

  lemma RunKeepsBase(w: World, steps: seq<Step>)
    requires Base(w)
    ensures WellFormed(w) && Base(Run(w, steps))
  {
    RunKeeps(w, steps);
  }

  lemma SameStaff(w: World, v: World)
    requires Staffed(w) && v.stages == w.stages && v.fleet == w.fleet
    ensures Staffed(v)
  {
    forall s | 0 <= s < |v.stages| ensures Members(v, s) == Members(w, s) {
    }
  }

  lemma StepStaysDeliverable(w: World)
    requires WellFormed(w) && Deliverable(w)
    ensures Deliverable(Next(w)) && Next(w).stages == w.stages && Next(w).fleet == w.fleet && Next(w).about == w.about && WellFormed(Next(w))
  {
    PrefixAll(w, AdvanceOnce(w), |AdvanceOnce(w)|);
    WritesStayDeliverable(w, AdvanceOnce(w));
    CommitAllKeepsShape(w, AdvanceOnce(w));
  }

  // ----- Into a gated stage

  lemma EnteredIsCloser(w: World, v: World)
    requires OnCourse(w) && Staffed(w) && WellFormed(w) && w.stage < |w.stages| && w.targets[w.stage] == []
    requires Base(v) && v.state.Running? && Deliverable(v) && v.stage == w.stage && v.stages == w.stages && v.fleet == w.fleet
    requires |v.targets| == |w.targets| && v.targets == w.targets[w.stage := SeedRows(Members(w, w.stage).value)]
    ensures Closer(w, v)
  {
    hide Base, Deliverable, Count, RowCost, StageMembers;
    SeedRowsCost(Members(w, w.stage).value);
    SeedRowsAt(Members(w, w.stage).value);
    SameStaff(w, v);
    NoFailures(w, v);
    EntryCost(w, v);
  }

  lemma EntryCost(w: World, v: World)
    requires WellFormed(w) && WellFormed(v) && Staffed(w) && w.stage < |w.stages| && w.targets[w.stage] == []
    requires v.stage == w.stage && v.stages == w.stages && v.fleet == w.fleet
    requires v.targets == w.targets[w.stage := SeedRows(Members(w, w.stage).value)]
    ensures Measure(v) < Measure(w)
  {
    hide RowCost, StageMembers, SeedRows, ParseMaxConcurrency;
    SeedRowsCost(Members(w, w.stage).value);
    SeedRowsAt(Members(w, w.stage).value);
    SameRestCost(w, v, w.stage + 1);
    assert StageCost(v, w.stage) < StageCost(w, w.stage);
  }

  lemma SeededAsTold(rows: seq<Target>, members: seq<string>)
    requires |rows| == |members| && forall i | 0 <= i < |members| :: rows[i] == Target(members[i], TargetPending, None)
    ensures rows == SeedRows(members)
  {
    SeedRowsAt(members);
  }

  lemma CourseIsKeyed(w: World)
    requires OnCourse(w)
    ensures WellFormed(w) && Keyed(w) && Base(w) && Deliverable(w) && w.state.Running? && w.stage <= |w.stages|
  {
    BaseIsKeyed(w);
  }

  lemma EntryParks(w: World)
    requires OnCourse(w) && Staffed(w) && WellFormed(w) && w.stage < |w.stages| && w.targets[w.stage] == []
    requires w.stages[w.stage].beforeGate.Some?
    ensures var u := Next(w);
            && AtFreshGate(u) && u.gate.value.side.Before? && Deliverable(u) && u.stage == w.stage && u.stages == w.stages && u.fleet == w.fleet
            && |u.targets| == |w.targets| && u.targets == w.targets[w.stage := SeedRows(Members(w, w.stage).value)]
  {
    hide OnCourse, Deliverable, Keyed, StageMembers, AdvanceOnce, Take, Base;
    CourseIsKeyed(w);
    GatedEntryOutcome(w);
    StepStaysDeliverable(w);
    StepKeepsExactly(w, AdvanceStep(|AdvanceOnce(w)|));
    SeededAsTold(Next(w).targets[w.stage], Members(w, w.stage).value);
  }

  lemma GatedEntry(w: World) returns (steps: seq<Step>)
    requires OnCourse(w) && Staffed(w) && WellFormed(w) && w.stage < |w.stages| && w.targets[w.stage] == []
    requires w.stages[w.stage].beforeGate.Some?
    ensures HonestAndCooperative(w, steps) && Closer(w, Run(w, steps))
  {
    EntryParks(w);
    CourseIsKeyed(w);
    hide OnCourse, Deliverable, Keyed, Base, Staffed, Measure, Take, Run, HonestAndCooperative;
    var step := AdvanceStep(|AdvanceOnce(w)|);
    var u := Next(w);
    Single(w, step);
    var more := OpenGate(u);
    Joined(w, [step], more);
    steps := [step] + more;
    RunKeepsBase(w, steps);
    OpenedStaysDeliverable(u, Run(u, more));
    EnteredIsCloser(w, Run(w, steps));
  }

  lemma OpenedStaysDeliverable(w: World, v: World)
    requires Deliverable(w) && Opened(w, v)
    ensures Deliverable(v)
  {
  }

  // ----- Out of a stage with an after gate

  lemma LeftIsCloser(w: World, v: World)
    requires OnCourse(w) && Staffed(w) && WellFormed(w) && w.stage < |w.stages| && w.targets[w.stage] != []
    requires Base(v) && v.state.Running? && Deliverable(v) && v.stage == w.stage + 1 && v.stages == w.stages && v.fleet == w.fleet
    requires |v.targets| == |w.targets| && v.targets == w.targets[w.stage := v.targets[w.stage]] && Count(v.targets[w.stage], TargetFailed) == 0
    ensures Closer(w, v)
  {
    hide Base, Deliverable, Count, RowCost, Members;
    SameStaff(w, v);
    NoFailures(w, v);
    OneStageLess(w, v);
  }

  lemma NoFailures(w: World, v: World)
    requires OnCourse(w) && w.stage < |w.targets| && |v.targets| == |w.targets|
    requires v.targets == w.targets[w.stage := v.targets[w.stage]] && Count(v.targets[w.stage], TargetFailed) == 0
    ensures forall s | 0 <= s < |v.targets| :: Count(v.targets[s], TargetFailed) == 0
  {
    hide Base, Deliverable, Count;
  }

  lemma OneStageLess(w: World, v: World)
    requires WellFormed(w) && WellFormed(v) && w.stage < |w.stages| && v.stage == w.stage + 1 && v.stages == w.stages && v.fleet == w.fleet
    requires v.targets == w.targets[w.stage := v.targets[w.stage]]
    ensures Measure(v) < Measure(w)
  {
    SameRestCost(w, v, w.stage + 1);
    hide RowCost, Members;
  }

  lemma AllDone(w: World)
    requires OnCourse(w) && WellFormed(w) && w.stage < |w.stages| && w.targets[w.stage] != []
    requires AllAnswered(w.targets[w.stage], w.queue) && Count(w.targets[w.stage], TargetPending) == 0
    ensures forall i | 0 <= i < |w.targets[w.stage]| :: IsDone(w.targets[w.stage][i], w.queue)
  {
    var rows := w.targets[w.stage];
    CountIsSome(rows, TargetPending);
    CountIsSome(rows, TargetFailed);
    forall i | 0 <= i < |rows| ensures IsDone(rows[i], w.queue) {
      assert rows[i].status != TargetPending && rows[i].status != TargetFailed;
    }
  }

  lemma NoneFailed(rows: seq<Target>)
    requires forall i | 0 <= i < |rows| :: rows[i].status == TargetHealthy
    ensures Count(rows, TargetFailed) == 0
  {
    CountIsSome(rows, TargetFailed);
  }

  lemma ExitParks(w: World)
    requires OnCourse(w) && Staffed(w) && WellFormed(w) && w.stage < |w.stages| && w.targets[w.stage] != []
    requires AllAnswered(w.targets[w.stage], w.queue) && Count(w.targets[w.stage], TargetPending) == 0
    requires w.stages[w.stage].afterGate.Some?
    ensures var u := Next(w);
            && AtFreshGate(u) && u.gate.value.side.After? && Deliverable(u) && u.stage == w.stage && u.stages == w.stages && u.fleet == w.fleet
            && |u.targets| == |w.targets| && u.targets == w.targets[w.stage := u.targets[w.stage]]
            && Count(u.targets[w.stage], TargetFailed) == 0
  {
    CourseIsKeyed(w);
    AllDone(w);
    hide OnCourse, Deliverable, Keyed, StageMembers, AdvanceOnce, Take, Base, IsDone, Count;
    DoneOutcome(w);
    StepStaysDeliverable(w);
    StepKeepsExactly(w, AdvanceStep(|AdvanceOnce(w)|));
    NoneFailed(Next(w).targets[w.stage]);
  }

  lemma GatedExit(w: World) returns (steps: seq<Step>)
    requires OnCourse(w) && Staffed(w) && WellFormed(w) && w.stage < |w.stages| && w.targets[w.stage] != []
    requires AllAnswered(w.targets[w.stage], w.queue) && Count(w.targets[w.stage], TargetPending) == 0
    requires w.stages[w.stage].afterGate.Some?
    ensures HonestAndCooperative(w, steps) && Closer(w, Run(w, steps))
  {
    ExitParks(w);
    CourseIsKeyed(w);
    hide OnCourse, Deliverable, Keyed, Base, Staffed, Measure, Take, Run, HonestAndCooperative, Count, AllAnswered;
    var step := AdvanceStep(|AdvanceOnce(w)|);
    var u := Next(w);
    Single(w, step);
    var more := OpenGate(u);
    Joined(w, [step], more);
    steps := [step] + more;
    RunKeepsBase(w, steps);
    OpenedStaysDeliverable(u, Run(u, more));
    LeftIsCloser(w, Run(w, steps));
  }

  // ----- One round

  lemma PlainStep(w: World)
    requires OnCourse(w) && Staffed(w) && WellFormed(w)
    requires w.stage < |w.targets| ==> AllAnswered(w.targets[w.stage], w.queue)
    requires w.stage < |w.stages| ==>
               if w.targets[w.stage] == [] then w.stages[w.stage].beforeGate.None?
               else Count(w.targets[w.stage], TargetPending) > 0 || w.stages[w.stage].afterGate.None?
    ensures Closer(w, Next(w))
  {
    var v := CommitAll(w, AdvanceOnce(w));
    PrefixAll(w, AdvanceOnce(w), |AdvanceOnce(w)|);
    CommitAllKeepsShape(w, AdvanceOnce(w));
    SameStaff(w, v);
    assert w.state.Running?;
    hide OnCourse, Staffed, Measure, EnterStage, DriveStage;
    if w.stage >= |w.stages| {
      OneCas(w, Completed, w.stage, None);
    } else if w.targets[w.stage] == [] {
      EnterStageProgress(w);
    } else {
      DriveStageProgress(w);
    }
  }

  lemma AnsweredRound(w: World) returns (steps: seq<Step>)
    requires OnCourse(w) && Staffed(w) && WellFormed(w)
    requires w.stage < |w.targets| ==> AllAnswered(w.targets[w.stage], w.queue)
    ensures HonestAndCooperative(w, steps) && Closer(w, Run(w, steps))
  {
    if w.stage < |w.stages| && w.targets[w.stage] == [] && w.stages[w.stage].beforeGate.Some? {
      steps := GatedEntry(w);
    } else if w.stage < |w.stages| && w.targets[w.stage] != [] && Count(w.targets[w.stage], TargetPending) == 0
              && w.stages[w.stage].afterGate.Some? {
      steps := GatedExit(w);
    } else {
      PlainStep(w);
      Single(w, AdvanceStep(|AdvanceOnce(w)|));
      steps := [AdvanceStep(|AdvanceOnce(w)|)];
    }
  }

  lemma {:induction false} AnswersCooperate(stage: nat, rows: seq<Target>)
    ensures AllCooperative(Answers(stage, rows))
  {
    if rows != [] {
      AnswersCooperate(stage, rows[1..]);
    }
  }

  lemma Round(w: World) returns (steps: seq<Step>)
    requires OnCourse(w) && Staffed(w)
    ensures WellFormed(w) && HonestAndCooperative(w, steps) && Closer(w, Run(w, steps))
  {
    AnsweredOnCourse(w);
    if w.stage < |w.targets| {
      AnswersCooperate(w.stage, w.targets[w.stage]);
    }
    var u := Run(w, AnswersOf(w));
    SameStaff(w, u);
    CourseIsKeyed(u);
    SameMeasure(w, u);
    var more := AnsweredRound(u);
    hide OnCourse, Staffed, Measure, AnswersOf, Run, Honest;
    Joined(w, AnswersOf(w), more);
    steps := AnswersOf(w) + more;
  }

  lemma {:induction false} Rounds(w: World) returns (steps: seq<Step>)
    requires OnCourse(w) && Staffed(w) && WellFormed(w)
    ensures HonestAndCooperative(w, steps) && Run(w, steps).state.Completed?
    decreases Measure(w)
  {
    hide OnCourse, Staffed, Measure, Run, HonestAndCooperative;
    steps := Round(w);
    var v := Run(w, steps);
    if !v.state.Completed? {
      var more := Rounds(v);
      Joined(w, steps, more);
      steps := steps + more;
    }
  }

  /** If rollout commands were written with their type, every rollout with fixed, non-empty membership, gated
      in any way or not, could be brought to its end by honest agents that acknowledge, approvers that
      approve, and time: no gate, of either kind and on either side of any stage, is a dead end. */
  lemma EveryRolloutCanComplete(w: World) returns (steps: seq<Step>)
    requires Created(w) && w.about.encoding.TypedJson? && Staffed(w)
    ensures WellFormed(Take(w, StartStep)) && HonestAndCooperative(Take(w, StartStep), steps)
    ensures Run(Take(w, StartStep), steps).state.Completed?
  {
    StartIsOnCourse(w);
    SameStaff(w, Take(w, StartStep));
    steps := Rounds(Take(w, StartStep));
  }
}
