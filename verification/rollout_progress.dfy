/** How far a rollout gets. As its commands are written, none is ever sent, and with honest agents it never
    leaves its first stage. Were they written with their type, an ungated rollout with responsive agents
    would complete within a known number of sweeps. */
module RolloutProgress {
  import opened Wrappers
  import opened Stages
  import opened ClusterSets
  import opened CommandIds
  import opened CommandQueue
  import opened RolloutModel
  import opened RolloutSafety
  import opened RolloutBatches
  import opened RolloutRuns
  import opened RolloutLimits
  import opened RolloutUndo

  predicate HonestStep(w: World, step: Step) {
    step.AnswerStep? && step.key in w.queue ==> w.queue[step.key].attempts > 0
  }

  /** Agents answer only what they were sent. */
  predicate Honest(w: World, steps: seq<Step>)
    requires WellFormed(w)
    decreases |steps|
  {
    steps == [] ||
    (HonestStep(w, steps[0]) && (TakeKeepsShape(w, steps[0]); Honest(Take(w, steps[0]), steps[1..])))
  }

  // ----- Commands as the service writes them

  /** Rollout commands without their type, none of which was ever sent. */
  predicate Unsent(w: World) {
    w.about.encoding.PlainJson? &&
    forall k | k in w.queue :: !Readable(w.queue[k].payload) && w.queue[k].attempts == 0 && !w.queue[k].status.CommandDelivered?
  }

  predicate Unanswered(w: World) {
    w.acked == {} && forall k | k in w.queue :: w.queue[k].status.CommandPending?
  }

  lemma {:induction false} WritesSendNothing(w: World, writes: seq<Write>)
    requires Unsent(w)
    ensures Unsent(CommitAll(w, writes)) && (Unanswered(w) ==> Unanswered(CommitAll(w, writes)))
    decreases |writes|
  {
    if writes != [] {
      WriteSendsNothing(w, writes[0]);
      WritesSendNothing(Commit(w, writes[0]), writes[1..]);
    }
  }

  lemma WriteSendsNothing(w: World, write: Write)
    requires Unsent(w)
    ensures Unsent(Commit(w, write)) && (Unanswered(w) ==> Unanswered(Commit(w, write)))
  {
    if write.EnqueueCommand? {
      DesiredStateIsReadableExactly(w.about, write.version, write.version);
    }
    hide DesiredState;
  }

  lemma StepSendsNothing(w: World, step: Step)
    requires WellFormed(w) && Unsent(w)
    ensures Unsent(Take(w, step))
    ensures Unanswered(w) && HonestStep(w, step) ==> Unanswered(Take(w, step))
  {
    match step
    case StartStep => WritesSendNothing(w, Start(w));
    case StopStep => WritesSendNothing(w, Stop(w));
    case ResumeStep => WritesSendNothing(w, Resume(w));
    case AdvanceStep(n) =>
      var writes := AdvanceOnce(w);
      WritesSendNothing(w, if n < |writes| then writes[..n] else writes);
    case RollbackStep(version, n) =>
      var writes := RollBack(w, version);
      WritesSendNothing(w, if n < |writes| then writes[..n] else writes);
    case DecidedStep(id) => WritesSendNothing(w, Handle(w, id));
    case _ =>
  }

  lemma {:induction false} RunSendsNothing(w: World, steps: seq<Step>)
    requires WellFormed(w) && Unsent(w)
    ensures Unsent(Run(w, steps)) && (Unanswered(w) && Honest(w, steps) ==> Unanswered(Run(w, steps)))
    decreases |steps|
  {
    hide Unsent, Unanswered, Take, HonestStep;
    if steps != [] {
      TakeKeepsShape(w, steps[0]);
      StepSendsNothing(w, steps[0]);
      RunSendsNothing(Take(w, steps[0]), steps[1..]);
    }
  }

  /** As the service writes its commands no run ever sends one, since the stream cannot read them back. So
      unless an agent acknowledges what it never got, nothing is acknowledged, no target becomes healthy,
      the first stage is never left and the rollout never completes. */
  lemma RolloutCommandsAreNeverSent(w: World, steps: seq<Step>)
    requires Created(w) && w.about.encoding.PlainJson?
    ensures var v := Run(w, steps);
            && (forall k | k in v.queue :: v.queue[k].attempts == 0)
            && (Honest(w, steps) ==>
                  && v.acked == {} && (forall k | k in v.queue :: v.queue[k].status.CommandPending?)
                  && v.stage == 0 && !v.state.Completed?
                  && (forall s, i | 0 <= s < |v.targets| && 0 <= i < |v.targets[s]| :: !v.targets[s][i].status.TargetHealthy?))
  {
    CreatedInv(w);
    RunKeeps(w, steps);
    RunSendsNothing(w, steps);
    RunKeepsShape(w, steps);
    if Honest(w, steps) {
      NothingAcknowledged(Run(w, steps));
    }
  }

  lemma NothingAcknowledged(v: World)
    requires Base(v) && v.acked == {} && v.stages != []
    ensures v.stage == 0 && !v.state.Completed?
    ensures forall s, i | 0 <= s < |v.targets| && 0 <= i < |v.targets[s]| :: !v.targets[s][i].status.TargetHealthy?
  {
    if v.stage > 0 {
      assert Done(v.targets[0]);
      var row := v.targets[0][0];
      assert row.status.TargetHealthy?;
      NoneHealthy(v);
    } else {
      NoneHealthy(v);
    }
  }

  lemma NoneHealthy(v: World)
    requires Base(v) && v.acked == {}
    ensures forall s, i | 0 <= s < |v.targets| && 0 <= i < |v.targets[s]| :: !v.targets[s][i].status.TargetHealthy?
  {
    forall s, i | 0 <= s < |v.targets| && 0 <= i < |v.targets[s]| ensures !v.targets[s][i].status.TargetHealthy? {
      assert StageRowsOk(v, s) && RowOk(v, s, v.targets[s][i]);
    }
  }

  // ----- Commands written with their type: completion

  /** Accepted stages, each of them with members. */
  predicate Staffed(w: World) {
    forall s | 0 <= s < |w.stages| :: StageOk(w.stages[s]) && Members(w, s).Some? && Members(w, s).value != []
  }

  /** Such stages without gates. */
  predicate Drivable(w: World) {
    Staffed(w) && forall s | 0 <= s < |w.stages| :: w.stages[s].beforeGate.None? && w.stages[s].afterGate.None?
  }

  /** Every command can be read, none was refused, and none was answered without having been sent. */
  predicate Deliverable(w: World) {
    w.about.encoding.TypedJson? &&
    forall k | k in w.queue ::
      Readable(w.queue[k].payload) && !w.queue[k].status.CommandNacked? && (Open(w.queue[k]) || w.queue[k].attempts > 0)
  }

  /** A running rollout that no agent has refused anything of. */
  predicate OnCourse(w: World) {
    && Base(w) && w.state.Running? && Deliverable(w)
    && (forall s | 0 <= s < |w.targets| :: Count(w.targets[s], TargetFailed) == 0)
  }

  /** Every command in flight is sent, and its agent acknowledges it. */
  function Answers(stage: nat, rows: seq<Target>): seq<Step> {
    if rows == [] then []
    else
      (if rows[0].status.TargetDelivered? then
         [SendStep(ApplyKey(stage, rows[0].cluster)), AnswerStep(ApplyKey(stage, rows[0].cluster), true, "")]
       else [])
      + Answers(stage, rows[1..])
  }

  function AnswersOf(w: World): seq<Step> {
    if w.stage < |w.targets| then Answers(w.stage, w.targets[w.stage]) else []
  }

  /** What is in flight is sent and acknowledged, then one advance step runs undisturbed. */
  function SweepSteps(w: World): seq<Step>
    requires WellFormed(w)
  {
    RunKeepsShape(w, AnswersOf(w));
    AnswersOf(w) + [AdvanceStep(|AdvanceOnce(Run(w, AnswersOf(w)))|)]
  }

  /** The steps of so many sweeps. */
  function Sweeps(w: World, n: nat): seq<Step>
    requires WellFormed(w)
    decreases n
  {
    if n == 0 then []
    else
      RunKeepsShape(w, SweepSteps(w));
      SweepSteps(w) + Sweeps(Run(w, SweepSteps(w)), n - 1)
  }

  function MemberCount(w: World, s: nat): nat
    requires s < |w.stages|
  {
    if Members(w, s).Some? then |Members(w, s).value| else 0
  }

  function RowCost(rows: seq<Target>): nat {
    2 * Count(rows, TargetPending) + Count(rows, TargetDelivered)
  }

  function StageCost(w: World, s: nat): nat
    requires WellFormed(w) && s < |w.stages|
  {
    if w.targets[s] == [] then 2 * MemberCount(w, s) + 2 else 1 + RowCost(w.targets[s])
  }

  function RestCost(w: World, s: nat): nat
    requires WellFormed(w)
    decreases |w.stages| - s
  {
    if s >= |w.stages| then 0 else StageCost(w, s) + RestCost(w, s + 1)
  }

  /** How many sweeps a rollout can still need. */
  function Measure(w: World): (sweeps: nat)
    requires WellFormed(w)
    ensures sweeps >= 1
  {
    1 + RestCost(w, w.stage)
  }

  lemma {:induction false} SameRestCost(w: World, v: World, s: nat)
    requires WellFormed(w) && WellFormed(v) && w.stages == v.stages && w.fleet == v.fleet
    requires forall r | s <= r < |w.targets| :: v.targets[r] == w.targets[r]
    ensures RestCost(v, s) == RestCost(w, s)
    decreases |w.stages| - s
  {
    if s < |w.stages| {
      assert Members(v, s) == Members(w, s);
      SameRestCost(w, v, s + 1);
    }
  }

  lemma {:induction false} HandedCost(stage: nat, rows: seq<Target>, slots: int)
    ensures RowCost(Handed(stage, rows, slots)) <= RowCost(rows)
    ensures slots > 0 && Count(rows, TargetPending) > 0 ==> RowCost(Handed(stage, rows, slots)) < RowCost(rows)
    ensures Count(Handed(stage, rows, slots), TargetFailed) == Count(rows, TargetFailed)
    ensures |Handed(stage, rows, slots)| == |rows|
  {
    if rows != [] && slots > 0 {
      var rest := if rows[0].status.TargetPending? then slots - 1 else slots;
      HandedCost(stage, rows[1..], rest);
      assert Handed(stage, rows, slots)[1..] == Handed(stage, rows[1..], rest);
    }
  }

  /** Every delivered row has an acknowledged command. */
  predicate AllAnswered(rows: seq<Target>, queue: Rows<CommandKey>) {
    forall i | 0 <= i < |rows| && rows[i].status.TargetDelivered? ::
      rows[i].command.Some? && rows[i].command.value in queue && queue[rows[i].command.value].status.CommandAcked?
  }

  lemma {:induction false} SettledCounts(rows: seq<Target>, queue: Rows<CommandKey>)
    requires AllAnswered(rows, queue)
    ensures var after := SettleAll(rows, queue);
            && Count(after, TargetDelivered) == 0
            && Count(after, TargetPending) == Count(rows, TargetPending)
            && Count(after, TargetFailed) == Count(rows, TargetFailed)
  {
    if rows != [] {
      SettledCounts(rows[1..], queue);
      assert SettleAll(rows, queue)[1..] == SettleAll(rows[1..], queue);
    }
  }

  lemma {:induction false} HonestSplit(w: World, a: seq<Step>, b: seq<Step>)
    requires WellFormed(w) && Honest(w, a)
    ensures WellFormed(Run(w, a)) && (Honest(Run(w, a), b) ==> Honest(w, a + b))
    decreases |a|
  {
    if a == [] {
      assert a + b == b;
    } else {
      TakeKeepsShape(w, a[0]);
      assert (a + b)[1..] == a[1..] + b;
      HonestSplit(Take(w, a[0]), a[1..], b);
    }
  }

  lemma HonestOne(w: World, step: Step)
    requires WellFormed(w) && HonestStep(w, step)
    ensures Honest(w, [step])
  {
    hide Take;
    TakeKeepsShape(w, step);
    assert [step][1..] == [];
    assert Honest(Take(w, step), []);
  }

  /** On course in the same place, no acknowledgement lost. */
  predicate StillOnCourse(w: World, v: World) {
    && OnCourse(v) && v == w.(queue := v.queue, acked := v.acked) && v.queue.Keys == w.queue.Keys
    && (forall k | k in w.queue && w.queue[k].status.CommandAcked? :: v.queue[k].status.CommandAcked?)
  }

  lemma SentOne(w: World, key: CommandKey)
    requires OnCourse(w) && key in w.queue
    ensures WellFormed(w) && StillOnCourse(w, Take(w, SendStep(key))) && Take(w, SendStep(key)).queue[key].attempts > 0
  {
    BaseHasShape(w);
    SendKeeps(w, key);
    hide Base, Count;
  }

  lemma AckedOne(w: World, key: CommandKey)
    requires OnCourse(w) && key in w.queue && w.queue[key].attempts > 0
    ensures WellFormed(w)
    ensures var v := Take(w, AnswerStep(key, true, ""));
            StillOnCourse(w, v) && v.queue[key].status.CommandAcked?
  {
    BaseHasShape(w);
    AnswerKeeps(w, key, true, "");
    hide Base, Count;
  }

  /** Sending a command and taking its agent's acknowledgement. */
  lemma AnsweredOne(w: World, key: CommandKey)
    requires OnCourse(w) && key in w.queue
    ensures WellFormed(w) && Honest(w, [SendStep(key), AnswerStep(key, true, "")])
    ensures var v := Run(w, [SendStep(key), AnswerStep(key, true, "")]);
            StillOnCourse(w, v) && v.queue[key].status.CommandAcked?
  {
    hide OnCourse, Take, Run, Honest;
    SentOne(w, key);
    var u := Take(w, SendStep(key));
    AckedOne(u, key);
    TwoSteps(w, SendStep(key), AnswerStep(key, true, ""));
    HonestOne(w, SendStep(key));
    RunOne(w, SendStep(key));
    HonestOne(u, AnswerStep(key, true, ""));
    HonestSplit(w, [SendStep(key)], [AnswerStep(key, true, "")]);
    assert [SendStep(key)] + [AnswerStep(key, true, "")] == [SendStep(key), AnswerStep(key, true, "")];
  }

  lemma DeliveredHasCommand(w: World, i: nat)
    requires Base(w) && w.stage < |w.targets| && i < |w.targets[w.stage]| && w.targets[w.stage][i].status.TargetDelivered?
    ensures var key := ApplyKey(w.stage, w.targets[w.stage][i].cluster);
            w.targets[w.stage][i].command == Some(key) && key in w.queue
  {
    assert StageRowsOk(w, w.stage) && RowOk(w, w.stage, w.targets[w.stage][i]);
  }

  lemma {:induction false} AnswersTaken(w: World, head: seq<Target>, rows: seq<Target>)
    requires OnCourse(w) && w.stage < |w.targets| && w.targets[w.stage] == head + rows && AllAnswered(head, w.queue)
    ensures WellFormed(w) && Honest(w, Answers(w.stage, rows))
    ensures var v := Run(w, Answers(w.stage, rows));
            && OnCourse(v) && v == w.(queue := v.queue, acked := v.acked)
            && AllAnswered(head + rows, v.queue)
    decreases |rows|
  {
    BaseHasShape(w);
    hide Base, Run, Honest, Take, Count, Deliverable;
    if rows == [] {
      assert head + rows == head;
      NoSteps(w);
    } else {
      assert head + rows == (head + [rows[0]]) + rows[1..];
      assert (head + rows)[|head|] == rows[0];
      var rest := Answers(w.stage, rows[1..]);
      if rows[0].status.TargetDelivered? {
        DeliveredHasCommand(w, |head|);
        var key := ApplyKey(w.stage, rows[0].cluster);
        var first := [SendStep(key), AnswerStep(key, true, "")];
        assert Answers(w.stage, rows) == first + rest;
        AnsweredOne(w, key);
        RunSplit(w, first, rest);
        AnswersTaken(Run(w, first), head + [rows[0]], rows[1..]);
        HonestSplit(w, first, rest);
      } else {
        assert Answers(w.stage, rows) == rest;
        AnswersTaken(w, head + [rows[0]], rows[1..]);
      }
    }
  }

  lemma NoSteps(w: World)
    requires WellFormed(w)
    ensures Run(w, []) == w && Honest(w, [])
  {
  }

  lemma AnsweredOnCourse(w: World)
    requires OnCourse(w)
    ensures WellFormed(w) && Honest(w, AnswersOf(w))
    ensures var u := Run(w, AnswersOf(w));
            && OnCourse(u) && u == w.(queue := u.queue, acked := u.acked)
            && (u.stage < |u.targets| ==> AllAnswered(u.targets[u.stage], u.queue))
  {
    NoSteps(w);
    if w.stage < |w.targets| {
      assert [] + w.targets[w.stage] == w.targets[w.stage];
      AnswersTaken(w, [], w.targets[w.stage]);
    }
  }

  lemma EnoughSlots(w: World)
    requires Staffed(w) && w.stage < |w.stages|
    ensures var total := MemberCount(w, w.stage);
            total > 0 && Slots(w, w.stage, total).Some? && Slots(w, w.stage, total).value >= 1
  {
    AcceptedForEveryTotal(w.stages[w.stage].maxConcurrency, MemberCount(w, w.stage));
  }

  /** A whole batch, delivered into the rows the stage has. */
  lemma DeliverAll(w: World, rows: seq<Target>, slots: int, version: string)
    requires Ready(w) && w.targets[w.stage] == rows
    ensures var v := CommitAll(w, DeliverBatch(w.stage, rows, slots, version));
            Base(v) && OnlyRows(w, v) && v.targets[w.stage] == Handed(w.stage, rows, slots)
  {
    var batch := DeliverBatch(w.stage, rows, slots, version);
    OnlyRowsReflexive(w);
    if slots > 0 {
      assert [] + rows == rows;
      DeliverPrefix(w, [], rows, slots, version, 2 * slots + |batch|);
      PrefixAll(w, batch, 2 * slots + |batch|);
      assert [] + Handed(w.stage, rows, slots) == Handed(w.stage, rows, slots);
    }
  }

  /** Writes enqueue commands that can be read, and answer none. */
  lemma {:induction false} WritesStayDeliverable(w: World, writes: seq<Write>)
    requires Deliverable(w)
    ensures Deliverable(CommitAll(w, writes))
    decreases |writes|
  {
    if writes != [] {
      WriteStaysDeliverable(w, writes[0]);
      WritesStayDeliverable(Commit(w, writes[0]), writes[1..]);
    }
  }

  lemma WriteStaysDeliverable(w: World, write: Write)
    requires Deliverable(w)
    ensures Deliverable(Commit(w, write))
  {
    if write.EnqueueCommand? {
      DesiredStateIsReadableExactly(w.about, write.version, write.version);
    }
    hide DesiredState;
  }

  /** Rows changed, nothing refused, and the cost of the stage went down: closer to the end. */
  lemma CloserByRows(w: World, v: World)
    requires OnCourse(w) && Deliverable(v) && w.stage < |w.targets| && OnlyRows(w, v) && Base(v)
    requires v.targets[v.stage] != [] && Count(v.targets[v.stage], TargetFailed) == 0
    requires if w.targets[w.stage] == [] then RowCost(v.targets[v.stage]) <= 2 * MemberCount(w, w.stage)
             else RowCost(v.targets[v.stage]) < RowCost(w.targets[w.stage])
    ensures WellFormed(w) && WellFormed(v) && OnCourse(v) && Measure(v) < Measure(w)
  {
    SameRestCost(w, v, w.stage + 1);
    hide RowsOk, QueueOk, GatesOk, Deliverable, Count;
  }

  lemma {:induction false} SeedRowsCost(members: seq<string>)
    ensures RowCost(SeedRows(members)) == 2 * |members| && Count(SeedRows(members), TargetFailed) == 0
    ensures Count(SeedRows(members), TargetPending) == |members|
  {
    if members != [] {
      SeedRowsCost(members[1..]);
    }
  }

  lemma CourseIsReady(w: World)
    requires OnCourse(w) && w.stage < |w.targets|
    ensures WellFormed(w) && Ready(w) && w.gate.None? && w.stage < |w.stages|
    ensures Deliverable(w) && Count(w.targets[w.stage], TargetFailed) == 0
  {
  }

  lemma EnterStageProgress(w: World)
    requires OnCourse(w) && Staffed(w) && WellFormed(w) && w.stage < |w.stages| && w.targets[w.stage] == []
    requires w.stages[w.stage].beforeGate.None?
    ensures var v := CommitAll(w, EnterStage(w));
            WellFormed(v) && OnCourse(v) && Measure(v) < Measure(w)
  {
    CourseIsReady(w);
    EnoughSlots(w);
    EnterPlan(w);
    hide Base, OnCourse, Deliverable, CommitAll, Measure, Handed, Seed, EnterStage, Count;
    var members := Members(w, w.stage).value;
    MembersAreDistinct(w.fleet, w.stages[w.stage].clusterSetIds);
    var seed, slots := Seed(w.stage, members), Slots(w, w.stage, |members|).value;
    CommitAllSplit(w, seed, DeliverBatch(w.stage, SeedRows(members), slots, w.desired));
    SeedAll(w, members);
    var u := CommitAll(w, seed);
    DeliverAll(u, SeedRows(members), slots, w.desired);
    var v := CommitAll(w, EnterStage(w));
    SeedRowsCost(members);
    HandedCost(w.stage, SeedRows(members), slots);
    SeedRowsAt(members);
    OnlyRowsCompose(w, u, v);
    WritesStayDeliverable(w, EnterStage(w));
    CloserByRows(w, v);
  }

  lemma EnterPlan(w: World)
    requires Staffed(w) && w.stage < |w.stages| && w.stages[w.stage].beforeGate.None?
    requires Slots(w, w.stage, MemberCount(w, w.stage)).Some?
    ensures var members := Members(w, w.stage).value;
            members != [] && EnterStage(w) == Seed(w.stage, members)
                          + DeliverBatch(w.stage, SeedRows(members), Slots(w, w.stage, |members|).value, w.desired)
  {
  }

  lemma SeedAll(w: World, members: seq<string>)
    requires Ready(w) && w.stage < |w.stages| && w.targets[w.stage] == [] && NoDuplicates(members)
    ensures var u := CommitAll(w, Seed(w.stage, members));
            Ready(u) && OnlyRows(w, u) && u.targets[w.stage] == SeedRows(members)
  {
    hide Base, CommitAll;
    SeedLength(w.stage, members);
    SeedCut(w, members, |members|);
    PrefixAll(w, Seed(w.stage, members), |members|);
    assert members[..|members|] == members;
  }

  lemma ReconcileAll(w: World)
    requires Ready(w) && w.stage < |w.stages| && w.targets[w.stage] != []
    ensures var rows := SettleAll(w.targets[w.stage], w.queue);
            var u := CommitAll(w, Reconcile(w.stage, w.targets[w.stage], w.queue));
            && Ready(u) && OnlyRows(w, u) && u.queue == w.queue && u.targets[u.stage] == rows && rows != []
            && CommitAll(w, DriveStage(w)) == CommitAll(u, AfterReconcile(w, rows))
  {
    hide Base;
    var before := w.targets[w.stage];
    var rows := SettleAll(before, w.queue);
    var first := Reconcile(w.stage, before, w.queue);
    CommitAllSplit(w, first, AfterReconcile(w, rows));
    assert [] + before == before && [] + rows == rows;
    ReconcilePrefix(w, [], before, |first|);
    PrefixAll(w, first, |first|);
  }

  lemma DriveStageProgress(w: World)
    requires OnCourse(w) && Staffed(w) && WellFormed(w) && w.stage < |w.stages| && w.targets[w.stage] != []
    requires AllAnswered(w.targets[w.stage], w.queue)
    requires Count(w.targets[w.stage], TargetPending) > 0 || w.stages[w.stage].afterGate.None?
    ensures var v := CommitAll(w, DriveStage(w));
            WellFormed(v) && OnCourse(v) && Measure(v) < Measure(w)
  {
    CourseIsReady(w);
    hide Base, OnCourse, Deliverable, Staffed, Measure, AfterReconcile, DriveStage, Count, CommitAll, Reconcile;
    var rows := SettleAll(w.targets[w.stage], w.queue);
    ReconcileAll(w);
    var u := CommitAll(w, Reconcile(w.stage, w.targets[w.stage], w.queue));
    SettledCounts(w.targets[w.stage], w.queue);
    WritesStayDeliverable(w, DriveStage(w));
    if Count(rows, TargetPending) > 0 {
      TopUpProgress(w, u, rows);
    } else {
      NextStageProgress(w, u, rows);
    }
  }

  lemma TopUpProgress(w: World, u: World, rows: seq<Target>)
    requires OnCourse(w) && Staffed(w) && WellFormed(w) && w.stage < |w.stages| && w.targets[w.stage] != []
    requires Ready(u) && OnlyRows(w, u) && u.targets[u.stage] == rows
    requires Count(rows, TargetFailed) == 0 && Count(rows, TargetPending) > 0 && Count(rows, TargetDelivered) == 0
    requires Count(rows, TargetPending) == Count(w.targets[w.stage], TargetPending)
    requires Deliverable(CommitAll(u, AfterReconcile(w, rows)))
    ensures var v := CommitAll(u, AfterReconcile(w, rows));
            WellFormed(v) && OnCourse(v) && Measure(v) < Measure(w)
  {
    EnoughSlots(w);
    TopUpPlan(w, rows);
    hide Base, OnCourse, Staffed, Deliverable, Measure, AfterReconcile, CommitAll, Handed, Count;
    var slots := Slots(w, w.stage, MemberCount(w, w.stage)).value;
    DeliverAll(u, rows, slots, w.desired);
    var v := CommitAll(u, AfterReconcile(w, rows));
    HandedCost(w.stage, rows, slots);
    OnlyRowsCompose(w, u, v);
    CloserByRows(w, v);
  }

  lemma TopUpPlan(w: World, rows: seq<Target>)
    requires Staffed(w) && w.stage < |w.stages| && Slots(w, w.stage, MemberCount(w, w.stage)).Some?
    requires Count(rows, TargetFailed) == 0 && Count(rows, TargetPending) > 0 && Count(rows, TargetDelivered) == 0
    ensures AfterReconcile(w, rows)
            == DeliverBatch(w.stage, rows, Slots(w, w.stage, MemberCount(w, w.stage)).value, w.desired)
  {
    hide Count, DeliverBatch;
  }

  lemma NextStageProgress(w: World, u: World, rows: seq<Target>)
    requires OnCourse(w) && WellFormed(w) && w.stage < |w.stages| && w.targets[w.stage] != []
    requires w.stages[w.stage].afterGate.None?
    requires Ready(u) && OnlyRows(w, u) && u.targets[u.stage] == rows && rows != []
    requires Count(rows, TargetFailed) == 0 && Count(rows, TargetPending) == 0 && Count(rows, TargetDelivered) == 0
    requires Deliverable(CommitAll(u, AfterReconcile(w, rows)))
    ensures var v := CommitAll(u, AfterReconcile(w, rows));
            WellFormed(v) && OnCourse(v) && Measure(v) < Measure(w)
  {
    CourseIsReady(w);
    OnlyMovesOn(w, u, rows);
    CountsZeroMeansHealthy(rows);
    hide Base, Deliverable, AfterReconcile, CommitAll, Count;
    LeaveOnCourse(w, u, rows);
  }

  lemma LeaveOnCourse(w: World, u: World, rows: seq<Target>)
    requires OnCourse(w) && WellFormed(w) && w.stage < |w.stages| && w.targets[w.stage] != [] && GateOf(w, w.stage, After).None?
    requires Ready(u) && OnlyRows(w, u) && w.gate.None? && u.targets[u.stage] == rows && Done(rows) && Count(rows, TargetFailed) == 0
    requires Deliverable(Commit(u, Cas(Running, Running, w.stage + 1, None)))
    ensures var v := Commit(u, Cas(Running, Running, w.stage + 1, None));
            WellFormed(v) && OnCourse(v) && Measure(v) < Measure(w)
  {
    LeaveKeeps(u);
    var v := Commit(u, Cas(Running, Running, u.stage + 1, None));
    BaseHasShape(v);
    hide Base, Deliverable, Count, Done;
    SameRestCost(w, v, w.stage + 1);
  }

  lemma OnlyMovesOn(w: World, u: World, rows: seq<Target>)
    requires w.state.Running? && w.stage < |w.stages| && w.stages[w.stage].afterGate.None?
    requires Count(rows, TargetFailed) == 0 && Count(rows, TargetPending) == 0 && Count(rows, TargetDelivered) == 0
    ensures CommitAll(u, AfterReconcile(w, rows)) == Commit(u, Cas(Running, Running, w.stage + 1, None))
    ensures GateOf(w, w.stage, After).None?
  {
    CommitOne(u, Cas(Running, Running, w.stage + 1, None));
    hide Count;
  }

  lemma SameMeasure(w: World, u: World)
    requires WellFormed(w) && WellFormed(u) && u == w.(queue := u.queue, acked := u.acked)
    ensures Measure(u) == Measure(w)
  {
    SameRestCost(w, u, w.stage);
  }

  lemma SameDrivable(w: World, v: World)
    requires Drivable(w) && v.stages == w.stages && v.fleet == w.fleet
    ensures Drivable(v)
  {
    forall s | 0 <= s < |v.stages| ensures Members(v, s) == Members(w, s) {
    }
  }

  /** A sweep is a run of honest agents after which the rollout is completed, or closer to it. */
  lemma SweepProgress(w: World)
    requires OnCourse(w) && Drivable(w)
    ensures WellFormed(w) && Honest(w, SweepSteps(w))
    ensures var v := Run(w, SweepSteps(w));
            WellFormed(v) && (v.state.Completed? || (OnCourse(v) && Drivable(v) && Measure(v) < Measure(w)))
  {
    AnsweredOnCourse(w);
    RunKeepsShape(w, AnswersOf(w));
    var u := Run(w, AnswersOf(w));
    var last := AdvanceStep(|AdvanceOnce(u)|);
    HonestOne(u, last);
    HonestSplit(w, AnswersOf(w), [last]);
    RunSplit(w, AnswersOf(w), [last]);
    RunOne(u, last);
    SameMeasure(w, u);
    SameDrivable(w, u);
    AdvanceProgress(u);
    hide OnCourse, Drivable, Measure, AnswersOf, AdvanceOnce, Run, Honest;
  }

  lemma AdvanceProgress(u: World)
    requires OnCourse(u) && Drivable(u) && WellFormed(u)
    requires u.stage < |u.targets| ==> AllAnswered(u.targets[u.stage], u.queue)
    ensures var v := Take(u, AdvanceStep(|AdvanceOnce(u)|));
            WellFormed(v) && (v.state.Completed? || (OnCourse(v) && Drivable(v) && Measure(v) < Measure(u)))
  {
    var v := CommitAll(u, AdvanceOnce(u));
    PrefixAll(u, AdvanceOnce(u), |AdvanceOnce(u)|);
    CommitAllKeepsShape(u, AdvanceOnce(u));
    SameDrivable(u, v);
    assert u.state.Running?;
    hide OnCourse, Staffed, Measure, EnterStage, DriveStage;
    if u.stage >= |u.stages| {
      OneCas(u, Completed, u.stage, None);
    } else if u.targets[u.stage] == [] {
      EnterStageProgress(u);
    } else {
      DriveStageProgress(u);
    }
  }

  // ----- Any schedule of responsive agents

  /** Sends, acknowledgements and time in any order, with advances at any time, cut short or not. */
  predicate Willing(step: Step) {
    step.SendStep? || step.ClockStep? || step.AdvanceStep? || (step.AnswerStep? && step.ack)
  }

  /** Agents that acknowledge, in whatever order, and only what they were sent. */
  predicate Responsive(w: World, steps: seq<Step>)
    requires WellFormed(w)
  {
    Honest(w, steps) && forall i | 0 <= i < |steps| :: Willing(steps[i])
  }

  /** A whole advance, taken when everything in flight has been answered. */
  predicate FullAdvance(w: World, step: Step)
    requires WellFormed(w)
  {
    step.AdvanceStep? && step.committed >= |AdvanceOnce(w)| && (w.stage < |w.targets| ==> AllAnswered(w.targets[w.stage], w.queue))
  }

  function FullAdvances(w: World, steps: seq<Step>): nat
    requires WellFormed(w)
    decreases |steps|
  {
    if steps == [] then 0
    else
      TakeKeepsShape(w, steps[0]);
      (if FullAdvance(w, steps[0]) then 1 else 0) + FullAdvances(Take(w, steps[0]), steps[1..])
  }

  /** On course, and no farther from the end. */
  predicate NoFarther(w: World, v: World) {
    WellFormed(w) && WellFormed(v) && OnCourse(v) && Drivable(v) && Measure(v) <= Measure(w)
  }

  /** The rows of the current stage account for no more sweeps than they did. */
  predicate NoDearer(w: World, v: World) {
    w.stage < |w.targets| && w.stage < |v.targets| && w.stage < |w.stages| &&
    (v.targets[w.stage] == w.targets[w.stage]
     || (v.targets[w.stage] != [] &&
         if w.targets[w.stage] == [] then RowCost(v.targets[w.stage]) <= 2 * MemberCount(w, w.stage)
         else RowCost(v.targets[w.stage]) <= RowCost(w.targets[w.stage])))
  }

  lemma NoFartherByRows(w: World, v: World)
    requires OnCourse(w) && Drivable(w) && Deliverable(v) && w.stage < |w.targets| && OnlyRows(w, v) && Base(v)
    requires Count(v.targets[v.stage], TargetFailed) == 0
    requires NoDearer(w, v)
    ensures NoFarther(w, v)
  {
    hide Base, OnCourse, Deliverable, Drivable, StageMembers, Count, RowCost, OnlyRows, StageCost, RestCost, Measure, NoDearer, Ready, Members;
    CourseIsReady(w);
    BaseHasShape(v);
    OnlyRowsShare(w, v);
    SameDrivable(w, v);
    StillOnCourseByRows(w, v);
    MeasureByRows(w, v);
  }

  lemma MeasureByRows(w: World, v: World)
    requires WellFormed(w) && WellFormed(v) && w.stage < |w.stages| && v.stages == w.stages && v.fleet == w.fleet && v.stage == w.stage
    requires forall s | 0 <= s < |w.targets| && s != w.stage :: v.targets[s] == w.targets[s]
    requires NoDearer(w, v)
    ensures Measure(v) <= Measure(w)
  {
    hide StageMembers, Members, RowCost, StageCost, RestCost, Measure, NoDearer;
    StageIsNoDearer(w, v);
    SameRestCost(w, v, w.stage + 1);
    MeasureIs(w);
    MeasureIs(v);
  }

  lemma MeasureIs(w: World)
    requires WellFormed(w) && w.stage < |w.stages|
    ensures Measure(w) == 1 + StageCost(w, w.stage) + RestCost(w, w.stage + 1)
  {
    hide StageCost;
  }

  lemma StageIsNoDearer(w: World, v: World)
    requires WellFormed(w) && WellFormed(v) && w.stage < |w.stages| && v.stages == w.stages && v.fleet == w.fleet && v.stage == w.stage
    requires NoDearer(w, v)
    ensures StageCost(v, w.stage) <= StageCost(w, w.stage)
  {
    hide RowCost;
    assert MemberCount(v, w.stage) == MemberCount(w, w.stage);
  }

  lemma OnlyRowsShare(w: World, v: World)
    requires OnlyRows(w, v)
    ensures v.stages == w.stages && v.fleet == w.fleet && v.stage == w.stage && |v.targets| == |w.targets|
    ensures forall s | 0 <= s < |w.targets| && s != w.stage :: v.targets[s] == w.targets[s]
  {
  }

  lemma StillOnCourseByRows(w: World, v: World)
    requires OnCourse(w) && Deliverable(v) && w.stage < |w.targets| && OnlyRows(w, v) && Base(v)
    requires Count(v.targets[v.stage], TargetFailed) == 0
    ensures OnCourse(v)
  {
    hide Base, Deliverable, Count;
  }

  lemma NoFartherThanItself(w: World)
    requires OnCourse(w) && Drivable(w)
    ensures NoFarther(w, w)
  {
    BaseHasShape(w);
  }

  lemma NoFartherComposes(w: World, u: World, v: World)
    requires NoFarther(w, u) && NoFarther(u, v)
    ensures NoFarther(w, v)
  {
  }

  /** Part of a batch, delivered in a stage that is on course. */
  lemma PartOfABatch(u: World, slots: int, version: string, m: nat)
    requires OnCourse(u) && Drivable(u) && u.stage < |u.targets| && u.targets[u.stage] != []
    ensures NoFarther(u, CommitPrefix(u, DeliverBatch(u.stage, u.targets[u.stage], slots, version), m))
  {
    CourseIsReady(u);
    hide Base, Drivable, OnCourse, Deliverable, CommitPrefix, DeliverBatch, Handed, Count, NoFarther;
    var rows := u.targets[u.stage];
    assert [] + rows == rows;
    DeliverPrefix(u, [], rows, slots, version, m);
    var v := CommitPrefix(u, DeliverBatch(u.stage, rows, slots, version), m);
    assert [] + Handed(u.stage, rows, Min(slots, m / 2)) == Handed(u.stage, rows, Min(slots, m / 2));
    HandedCost(u.stage, rows, Min(slots, m / 2));
    PrefixStaysDeliverable(u, DeliverBatch(u.stage, rows, slots, version), m);
    NoFartherByRows(u, v);
  }

  lemma PrefixStaysDeliverable(w: World, writes: seq<Write>, n: nat)
    requires Deliverable(w)
    ensures Deliverable(CommitPrefix(w, writes, n))
  {
    WritesStayDeliverable(w, if n < |writes| then writes[..n] else writes);
  }

  /** Seeding and first batch, cut short anywhere. */
  lemma PartOfEntering(w: World, n: nat)
    requires OnCourse(w) && Drivable(w) && WellFormed(w) && w.stage < |w.stages| && w.targets[w.stage] == []
    ensures NoFarther(w, CommitPrefix(w, EnterStage(w), n))
  {
    CourseIsReady(w);
    EnoughSlots(w);
    EnterPlan(w);
    hide Base, OnCourse, Deliverable, CommitAll, CommitPrefix, Measure, Seed, EnterStage, Count, NoFarther, Drivable, StageMembers;
    var members := Members(w, w.stage).value;
    MembersAreDistinct(w.fleet, w.stages[w.stage].clusterSetIds);
    var seed, slots := Seed(w.stage, members), Slots(w, w.stage, |members|).value;
    SeedLength(w.stage, members);
    PrefixSplit(w, seed, DeliverBatch(w.stage, SeedRows(members), slots, w.desired), n);
    PartOfSeeding(w, members, Min(n, |members|));
    if n >= |members| {
      SeedAll(w, members);
      PrefixAll(w, seed, |members|);
      NoFartherIsOnCourse(w, CommitAll(w, seed));
      SeedRowsAt(members);
      PartOfABatch(CommitAll(w, seed), slots, w.desired, n - |members|);
      NoFartherComposes(w, CommitAll(w, seed), CommitPrefix(w, EnterStage(w), n));
    }
  }

  lemma NoFartherIsOnCourse(w: World, v: World)
    requires NoFarther(w, v)
    ensures OnCourse(v) && Drivable(v) && WellFormed(v)
  {
  }

  lemma PartOfSeeding(w: World, members: seq<string>, cut: nat)
    requires OnCourse(w) && Drivable(w) && WellFormed(w) && w.stage < |w.stages| && w.targets[w.stage] == []
    requires Members(w, w.stage) == Some(members) && NoDuplicates(members) && cut <= |members|
    ensures NoFarther(w, CommitPrefix(w, Seed(w.stage, members), cut))
  {
    CourseIsReady(w);
    hide Base, Guarded, OnCourse, Drivable, Deliverable, CommitPrefix, Seed, Count, StageMembers, NoFarther;
    SeedCut(w, members, cut);
    SeedRowsCost(members[..cut]);
    SeedRowsAt(members[..cut]);
    PrefixStaysDeliverable(w, Seed(w.stage, members), cut);
    NoFartherByRows(w, CommitPrefix(w, Seed(w.stage, members), cut));
  }

  /** Taking answers in raises no cost, and no answer is a refusal. */
  lemma {:induction false} SettlingCosts(before: seq<Target>, after: seq<Target>, queue: Rows<CommandKey>)
    requires PartlySettled(before, after, queue) && forall k | k in queue :: !queue[k].status.CommandNacked?
    ensures RowCost(after) <= RowCost(before) && Count(after, TargetFailed) == Count(before, TargetFailed)
  {
    if before != [] {
      forall i | 0 <= i < |before| - 1
        ensures after[1..][i] == before[1..][i] || after[1..][i] == Settle(before[1..][i], queue)
      {
        assert after[1..][i] == after[i + 1] && before[1..][i] == before[i + 1];
      }
      SettlingCosts(before[1..], after[1..], queue);
    }
  }

  lemma DeliverableRefusesNothing(w: World)
    requires Deliverable(w)
    ensures forall k | k in w.queue :: !w.queue[k].status.CommandNacked?
  {
  }

  lemma PartOfReconciling(w: World, n: nat)
    requires OnCourse(w) && Drivable(w) && WellFormed(w) && w.stage < |w.stages| && w.targets[w.stage] != []
    ensures var first := Reconcile(w.stage, w.targets[w.stage], w.queue);
            var v := CommitPrefix(w, first, n);
            NoFarther(w, v) && Ready(v) && OnlyRows(w, v) && v.targets[v.stage] != []
            && (n >= |first| ==> v.targets[v.stage] == SettleAll(w.targets[w.stage], w.queue))
  {
    CourseIsReady(w);
    DeliverableRefusesNothing(w);
    hide Base, OnCourse, Drivable, Deliverable, CommitPrefix, Reconcile, Count, Settle, NoFarther;
    var before := w.targets[w.stage];
    var first := Reconcile(w.stage, before, w.queue);
    assert [] + before == before && [] + SettleAll(before, w.queue) == SettleAll(before, w.queue);
    ReconcilePrefix(w, [], before, n);
    var v := CommitPrefix(w, first, n);
    SettlingCosts(before, v.targets[w.stage], w.queue);
    PrefixStaysDeliverable(w, first, n);
    NoFartherByRows(w, v);
  }

  lemma PartOfDriving(w: World, n: nat)
    requires OnCourse(w) && Drivable(w) && WellFormed(w) && w.stage < |w.stages| && w.targets[w.stage] != []
    ensures NoFarther(w, CommitPrefix(w, DriveStage(w), n))
  {
    hide Base, OnCourse, Drivable, Deliverable, CommitPrefix, CommitAll, Reconcile, AfterReconcile, Settle, NoFarther, OnlyRows;
    var rows := SettleAll(w.targets[w.stage], w.queue);
    var first := Reconcile(w.stage, w.targets[w.stage], w.queue);
    PrefixSplit(w, first, AfterReconcile(w, rows), n);
    if n < |first| {
      PartOfReconciling(w, n);
    } else {
      PrefixAll(w, first, |first|);
      ReconciledThenDecides(w, n - |first|);
    }
  }

  lemma ReconciledThenDecides(w: World, m: nat)
    requires OnCourse(w) && Drivable(w) && WellFormed(w) && w.stage < |w.stages| && w.targets[w.stage] != []
    ensures var u := CommitAll(w, Reconcile(w.stage, w.targets[w.stage], w.queue));
            NoFarther(w, CommitPrefix(u, AfterReconcile(w, SettleAll(w.targets[w.stage], w.queue)), m))
  {
    hide Base, OnCourse, Drivable, Deliverable, CommitPrefix, CommitAll, Reconcile, AfterReconcile, Settle, NoFarther, OnlyRows;
    var rows := SettleAll(w.targets[w.stage], w.queue);
    var first := Reconcile(w.stage, w.targets[w.stage], w.queue);
    PartOfReconciling(w, |first|);
    PrefixAll(w, first, |first|);
    var u := CommitAll(w, first);
    NoFartherIsOnCourse(w, u);
    PartOfDeciding(w, u, rows, m);
    NoFartherComposes(w, u, CommitPrefix(u, AfterReconcile(w, rows), m));
  }

  lemma PartOfDeciding(w: World, u: World, rows: seq<Target>, m: nat)
    requires OnCourse(w) && Drivable(w) && WellFormed(w) && w.stage < |w.stages| && w.targets[w.stage] != []
    requires OnCourse(u) && Drivable(u) && OnlyRows(w, u) && u.targets[u.stage] == rows && rows != []
    ensures NoFarther(u, CommitPrefix(u, AfterReconcile(w, rows), m))
  {
    CourseIsReady(w);
    OnlyRowsInPlace(w, u);
    CourseIsReady(u);
    NoFartherThanItself(u);
    PrefixStaysDeliverable(u, AfterReconcile(w, rows), m);
    hide Base, OnCourse, Drivable, Deliverable, CommitPrefix, NoFarther, Count, TopUp, TopUpSlots;
    if Count(rows, TargetPending) + Count(rows, TargetDelivered) > 0 {
      TopUpIsABatch(w, rows);
      PartOfABatch(u, TopUpSlots(w, rows), w.desired, m);
    } else {
      PartOfLeaving(w, u, rows, m);
    }
  }

  lemma PartOfLeaving(w: World, u: World, rows: seq<Target>, m: nat)
    requires OnCourse(w) && Drivable(w) && WellFormed(w) && w.stage < |w.stages|
    requires OnCourse(u) && Drivable(u) && OnlyRows(w, u) && u.targets[u.stage] == rows && rows != [] && w.gate.None?
    requires Count(rows, TargetFailed) == 0 && Count(rows, TargetPending) + Count(rows, TargetDelivered) == 0
    requires Deliverable(CommitPrefix(u, AfterReconcile(w, rows), m))
    ensures NoFarther(u, CommitPrefix(u, AfterReconcile(w, rows), m))
  {
    hide Base, Drivable, Deliverable, AfterReconcile, NoFarther, Count;
    var next := Cas(Running, Running, w.stage + 1, None);
    CourseIsReady(u);
    LeavingPlan(w, rows);
    SameAfterGate(w, u);
    OnlyRowsReflexive(u);
    CountsZeroMeansHealthy(rows);
    NoFartherThanItself(u);
    assert [next] + [] == [next];
    PrefixHead(u, next, [], m);
    if m > 0 {
      NoWrites(Commit(u, next), m - 1);
      LeftOnCourse(u, rows);
    }
  }

  lemma LeftOnCourse(u: World, rows: seq<Target>)
    requires OnCourse(u) && Drivable(u) && WellFormed(u) && u.stage < |u.stages| && GateOf(u, u.stage, After).None?
    requires Ready(u) && OnlyRows(u, u) && u.gate.None? && u.targets[u.stage] == rows && Done(rows) && Count(rows, TargetFailed) == 0
    requires Deliverable(Commit(u, Cas(Running, Running, u.stage + 1, None)))
    ensures NoFarther(u, Commit(u, Cas(Running, Running, u.stage + 1, None)))
  {
    hide Base, Drivable, Deliverable, Count, OnCourse;
    LeaveOnCourse(u, u, rows);
    SameDrivable(u, Commit(u, Cas(Running, Running, u.stage + 1, None)));
  }

  lemma LeavingPlan(w: World, rows: seq<Target>)
    requires Drivable(w) && w.state.Running? && w.stage < |w.stages|
    requires Count(rows, TargetFailed) == 0 && Count(rows, TargetPending) + Count(rows, TargetDelivered) == 0
    ensures AfterReconcile(w, rows) == [Cas(Running, Running, w.stage + 1, None)] && GateOf(w, w.stage, After).None?
  {
    hide Count;
  }

  lemma SameAfterGate(w: World, u: World)
    requires OnlyRows(w, u)
    ensures GateOf(u, u.stage, After) == GateOf(w, w.stage, After)
  {
  }

  /** An advance at any time, cut short or not, completes the rollout or leaves it no farther from the end. */
  lemma AnyAdvance(w: World, n: nat)
    requires OnCourse(w) && Drivable(w) && WellFormed(w)
    ensures Take(w, AdvanceStep(n)).state.Completed? || NoFarther(w, Take(w, AdvanceStep(n)))
  {
    NoFartherThanItself(w);
    assert w.state.Running?;
    hide OnCourse, Drivable, NoFarther, EnterStage, DriveStage;
    if w.stage >= |w.stages| {
      var complete := Cas(Running, Completed, w.stage, None);
      assert [complete] + [] == AdvanceOnce(w);
      PrefixHead(w, complete, [], n);
    } else if w.targets[w.stage] == [] {
      PartOfEntering(w, n);
    } else {
      PartOfDriving(w, n);
    }
  }

  /** Sends, acknowledgements and time. */
  lemma OutsideStep(w: World, step: Step)
    requires OnCourse(w) && Drivable(w) && Willing(step) && HonestStep(w, step) && !step.AdvanceStep?
    ensures WellFormed(w) && NoFarther(w, Take(w, step))
  {
    BaseHasShape(w);
    var v := Take(w, step);
    match step {
      case SendStep(key) => SendKeeps(w, key);
      case AnswerStep(key, ack, message) => AnswerKeeps(w, key, ack, message);
      case ClockStep(_) => WorldMovesKeeps(w, step);
    }
    TakeKeepsShape(w, step);
    SameDrivable(w, v);
    StaysDeliverable(w, step);
    SameRestCost(w, v, w.stage);
    hide Base, Drivable, Deliverable, Count;
  }

  lemma StaysDeliverable(w: World, step: Step)
    requires Deliverable(w) && WellFormed(w) && Willing(step) && HonestStep(w, step) && !step.AdvanceStep?
    ensures Deliverable(Take(w, step))
  {
  }

  lemma FullAdvanceIsCloser(w: World, step: Step)
    requires OnCourse(w) && Drivable(w) && WellFormed(w) && FullAdvance(w, step)
    ensures var v := Take(w, step);
            WellFormed(v) && (v.state.Completed? || (OnCourse(v) && Drivable(v) && Measure(v) < Measure(w)))
  {
    PrefixAll(w, AdvanceOnce(w), step.committed);
    PrefixAll(w, AdvanceOnce(w), |AdvanceOnce(w)|);
    AdvanceProgress(w);
  }

  lemma {:induction false} CompletedStays(w: World, steps: seq<Step>)
    requires WellFormed(w) && w.state.Completed? && forall i | 0 <= i < |steps| :: Willing(steps[i])
    ensures Run(w, steps).state.Completed?
    decreases |steps|
  {
    if steps != [] {
      TakeKeepsShape(w, steps[0]);
      if steps[0].AdvanceStep? {
        NoWrites(w, steps[0].committed);
      }
      CompletedStays(Take(w, steps[0]), steps[1..]);
    }
  }

  lemma {:induction false} ResponsiveRunsGetCloser(w: World, steps: seq<Step>)
    requires OnCourse(w) && Drivable(w) && WellFormed(w) && Responsive(w, steps)
    ensures var v := Run(w, steps);
            v.state.Completed? || (NoFarther(w, v) && Measure(v) + FullAdvances(w, steps) <= Measure(w))
    decreases |steps|
  {
    NoFartherThanItself(w);
    if steps != [] {
      var v, rest := Take(w, steps[0]), steps[1..];
      TakeKeepsShape(w, steps[0]);
      assert forall i | 0 <= i < |rest| :: rest[i] == steps[i + 1];
      hide OnCourse, Drivable, Measure, Take, Willing, HonestStep, FullAdvance, NoFarther;
      OneResponsiveStep(w, steps[0]);
      if v.state.Completed? {
        CompletedStays(v, rest);
      } else {
        NoFartherIsOnCourse(w, v);
        ResponsiveRunsGetCloser(v, rest);
        if !Run(v, rest).state.Completed? {
          NoFartherComposes(w, v, Run(v, rest));
        }
      }
    }
  }

  lemma OneResponsiveStep(w: World, step: Step)
    requires OnCourse(w) && Drivable(w) && WellFormed(w) && Willing(step) && HonestStep(w, step)
    ensures var v := Take(w, step);
            v.state.Completed? || (NoFarther(w, v) && (FullAdvance(w, step) ==> Measure(v) < Measure(w)))
  {
    hide OnCourse, Drivable, Measure, Take;
    if step.AdvanceStep? {
      AnyAdvance(w, step.committed);
      if FullAdvance(w, step) {
        FullAdvanceIsCloser(w, step);
      }
    } else {
      OutsideStep(w, step);
    }
  }

  lemma StartIsOnCourse(w: World)
    requires Created(w) && w.about.encoding.TypedJson?
    ensures WellFormed(Take(w, StartStep)) && OnCourse(Take(w, StartStep)) && Take(w, StartStep) == w.(state := Running)
  {
    CreatedInv(w);
    StepKeepsExactly(w, StartStep);
    OneCas(w, Running, 0, None);
  }

  /** If rollout commands were written with their type, every ungated rollout with fixed, non-empty membership
      would be completed, once started, by any schedule of responsive agents: sends, acknowledgements of what
      was sent and time in any order, advances at any time and cut short anywhere, as soon as there have been
      as many whole advances with everything in flight answered as the rows to come account for. */
  lemma ResponsiveRolloutCompletes(w: World, steps: seq<Step>)
    requires Created(w) && w.about.encoding.TypedJson? && Drivable(w)
    requires WellFormed(Take(w, StartStep)) && Responsive(Take(w, StartStep), steps)
    requires FullAdvances(Take(w, StartStep), steps) >= 1 + RestCost(w, 0)
    ensures Run(Take(w, StartStep), steps).state.Completed?
  {
    StartIsOnCourse(w);
    var v := Take(w, StartStep);
    SameDrivable(w, v);
    SameRestCost(w, v, 0);
    hide OnCourse, Drivable, Run, Take, Responsive, FullAdvances, NoFarther;
    ResponsiveRunsGetCloser(v, steps);
  }

  lemma {:induction false} AnswersAreWilling(stage: nat, rows: seq<Target>)
    ensures forall i | 0 <= i < |Answers(stage, rows)| :: Willing(Answers(stage, rows)[i])
  {
    if rows != [] {
      AnswersAreWilling(stage, rows[1..]);
    }
  }

  lemma SweepIsWilling(w: World)
    requires WellFormed(w)
    ensures forall i | 0 <= i < |SweepSteps(w)| :: Willing(SweepSteps(w)[i])
  {
    if w.stage < |w.targets| {
      AnswersAreWilling(w.stage, w.targets[w.stage]);
    }
  }

  /** Such schedules exist: sending and acknowledging row by row and then advancing is one, and it completes
      the rollout within as many sweeps as the measure says. */
  lemma {:induction false} SweepsComplete(w: World, n: nat)
    requires OnCourse(w) && Drivable(w) && WellFormed(w) && n >= Measure(w)
    ensures exists m: nat | m <= n :: Responsive(w, Sweeps(w, m)) && Run(w, Sweeps(w, m)).state.Completed?
    decreases n
  {
    hide OnCourse, Drivable, SweepSteps, Measure, Honest, Run, Willing;
    SweepProgress(w);
    SweepIsWilling(w);
    var v := Run(w, SweepSteps(w));
    var m: nat := 0;
    if v.state.Completed? {
      NoSteps(v);
    } else {
      SweepsComplete(v, n - 1);
      m :| m <= n - 1 && Responsive(v, Sweeps(v, m)) && Run(v, Sweeps(v, m)).state.Completed?;
    }
    assert Sweeps(w, m + 1) == SweepSteps(w) + Sweeps(v, m);
    HonestSplit(w, SweepSteps(w), Sweeps(v, m));
    RunSplit(w, SweepSteps(w), Sweeps(v, m));
  }

  lemma ResponsiveScheduleExists(w: World)
    requires Created(w) && w.about.encoding.TypedJson? && Drivable(w)
    ensures WellFormed(Take(w, StartStep))
    ensures var v := Take(w, StartStep);
            exists m: nat | m <= 1 + RestCost(w, 0) :: Responsive(v, Sweeps(v, m)) && Run(v, Sweeps(v, m)).state.Completed?
  {
    StartIsOnCourse(w);
    var v := Take(w, StartStep);
    SameDrivable(w, v);
    SameRestCost(w, v, 0);
    hide OnCourse, Drivable, Responsive, Run, Take;
    SweepsComplete(v, Measure(v));
  }
}
