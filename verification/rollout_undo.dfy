/** Rolling back, the two ways in which a before gate is lost, and what gate decisions are matched against. */
module RolloutUndo {
  import opened Wrappers
  import opened Stages
  import opened ClusterSets
  import opened CommandIds
  import opened CommandQueue
  import opened RolloutModel
  import opened RolloutSafety
  import opened RolloutBatches
  import opened RolloutRuns
  import opened RolloutLimits

  // ----- Rollback

  predicate IsMember(w: World, stage: nat, cluster: string) {
    stage < |w.stages| && Members(w, stage).Some? && cluster in Members(w, stage).value
  }

  /** Every row is a row of a member of its stage. */
  predicate RowsAreMembers(w: World) {
    forall s, i | 0 <= s < |w.targets| && 0 <= i < |w.targets[s]| :: IsMember(w, s, w.targets[s][i].cluster)
  }

  predicate WritesMembers(w: World, writes: seq<Write>) {
    forall i | 0 <= i < |writes| && writes[i].UpsertTarget? :: IsMember(w, writes[i].stage, writes[i].target.cluster)
  }

  lemma MemberWrite(w: World, write: Write)
    requires RowsAreMembers(w) && (write.UpsertTarget? ==> IsMember(w, write.stage, write.target.cluster))
    ensures RowsAreMembers(Commit(w, write))
    ensures forall s, c :: IsMember(Commit(w, write), s, c) <==> IsMember(w, s, c)
  {
    hide IsMember;
    SameMembers(w, Commit(w, write));
  }

  lemma {:induction false} MemberWrites(w: World, writes: seq<Write>, n: nat)
    requires RowsAreMembers(w) && WritesMembers(w, writes)
    ensures RowsAreMembers(CommitPrefix(w, writes, n))
    decreases |writes|
  {
    hide Commit, CommitPrefix, RowsAreMembers, IsMember;
    if writes == [] {
      PrefixAll(w, writes, n);
    } else {
      assert writes == [writes[0]] + writes[1..];
      PrefixHead(w, writes[0], writes[1..], n);
      if n > 0 {
        MemberWrite(w, writes[0]);
        MemberWrites(Commit(w, writes[0]), writes[1..], n - 1);
      }
    }
  }

  lemma SameMembers(w: World, v: World)
    requires v.stages == w.stages && v.fleet == w.fleet
    ensures forall s, c :: IsMember(v, s, c) <==> IsMember(w, s, c)
  {
  }

  lemma {:induction false} SeedWritesMembers(w: World, stage: nat, members: seq<string>)
    requires forall i | 0 <= i < |members| :: IsMember(w, stage, members[i])
    ensures WritesMembers(w, Seed(stage, members))
  {
    if members != [] {
      SeedWritesMembers(w, stage, members[1..]);
    }
  }

  lemma {:induction false} BatchWritesMembers(w: World, stage: nat, rows: seq<Target>, slots: int, version: string)
    requires forall i | 0 <= i < |rows| :: IsMember(w, stage, rows[i].cluster)
    ensures WritesMembers(w, DeliverBatch(stage, rows, slots, version))
    decreases |rows|
  {
    if slots > 0 && rows != [] {
      BatchWritesMembers(w, stage, rows[1..], if rows[0].status.TargetPending? then slots - 1 else slots, version);
    }
  }

  lemma {:induction false} ReconcileUpsertsNothing(w: World, stage: nat, rows: seq<Target>, queue: Rows<CommandKey>)
    ensures WritesMembers(w, Reconcile(stage, rows, queue))
  {
    if rows != [] {
      ReconcileUpsertsNothing(w, stage, rows[1..], queue);
    }
  }

  lemma EnterStageWritesMembers(w: World)
    requires WellFormed(w) && w.stage < |w.stages|
    ensures WritesMembers(w, EnterStage(w))
  {
    if Members(w, w.stage).Some? {
      var members := Members(w, w.stage).value;
      SeedWritesMembers(w, w.stage, members);
      SeedRowsAt(members);
      if Slots(w, w.stage, |members|).Some? {
        BatchWritesMembers(w, w.stage, SeedRows(members), Slots(w, w.stage, |members|).value, w.desired);
      }
    }
  }

  lemma DriveStageWritesMembers(w: World)
    requires WellFormed(w) && RowsAreMembers(w) && w.stage < |w.stages|
    ensures WritesMembers(w, DriveStage(w))
  {
    hide IsMember;
    var before := w.targets[w.stage];
    var rows := SettleAll(before, w.queue);
    ReconcileUpsertsNothing(w, w.stage, before, w.queue);
    forall i | 0 <= i < |rows| ensures IsMember(w, w.stage, rows[i].cluster) {
      assert IsMember(w, w.stage, before[i].cluster);
    }
    TopUpWritesMembers(w, rows);
    hide Members, SettleAll, Reconcile;
  }

  lemma TopUpWritesMembers(w: World, rows: seq<Target>)
    requires WellFormed(w) && w.stage < |w.stages|
    requires forall i | 0 <= i < |rows| :: IsMember(w, w.stage, rows[i].cluster)
    ensures WritesMembers(w, AfterReconcile(w, rows))
  {
    hide IsMember, DeliverBatch, TopUp, TopUpSlots, Count, Members;
    TopUpIsABatch(w, rows);
    BatchWritesMembers(w, w.stage, rows, TopUpSlots(w, rows), w.desired);
  }

  lemma AdvanceWritesMembers(w: World)
    requires WellFormed(w) && RowsAreMembers(w)
    ensures WritesMembers(w, AdvanceOnce(w))
  {
    if w.state.Running? && w.stage < |w.stages| {
      if w.targets[w.stage] == [] {
        EnterStageWritesMembers(w);
      } else {
        DriveStageWritesMembers(w);
      }
    }
  }

  lemma {:induction false} RollbackUpsertsNothing(w: World, stage: nat, version: string)
    requires stage <= |w.stages|
    ensures WritesMembers(w, RollbackFrom(w, stage, version).0)
    decreases stage
  {
    hide Members, IsMember, RollbackStage;
    if stage > 0 && Members(w, stage - 1).Some? {
      RollbackUpsertsNothing(w, stage - 1, version);
      RollbackStageOnlyEnqueues(stage - 1, Members(w, stage - 1).value, version);
    }
  }

  lemma StepKeepsMembers(w: World, step: Step)
    requires WellFormed(w) && RowsAreMembers(w) && !step.FleetStep?
    ensures RowsAreMembers(Take(w, step))
  {
    match step
    case AdvanceStep(n) =>
      AdvanceWritesMembers(w);
      MemberWrites(w, AdvanceOnce(w), n);
    case RollbackStep(version, n) =>
      RollbackUpsertsNothing(w, |w.stages|, version);
      MemberWrites(w, RollBack(w, version), n);
    case StartStep => MemberWrites(w, Start(w), 1);
    case StopStep => MemberWrites(w, Stop(w), 1);
    case ResumeStep => MemberWrites(w, Resume(w), 1);
    case DecidedStep(id) => MemberWrites(w, Handle(w, id), 1);
    case FleetStep(_) =>
    case _ => SameMembers(w, Take(w, step));
  }

  lemma {:induction false} RunKeepsMembers(w: World, steps: seq<Step>)
    requires WellFormed(w) && RowsAreMembers(w) && FixedFleet(steps)
    ensures RowsAreMembers(Run(w, steps))
    decreases |steps|
  {
    if steps != [] {
      TakeKeepsShape(w, steps[0]);
      StepKeepsMembers(w, steps[0]);
      RunKeepsMembers(Take(w, steps[0]), steps[1..]);
    }
  }

  /** Only rollback commands to `version` were added. */
  predicate AddsRollbacks(v: World, u: World, version: string) {
    && u == v.(queue := u.queue)
    && (forall k | k in v.queue :: k in u.queue && u.queue[k] == v.queue[k])
    && (forall k | k in u.queue && k !in v.queue :: k.suffix.Rollback? && u.queue[k].payload == DesiredState(v.about, version))
  }

  /** Every member of the stages below `stage` has a rollback command. */
  ghost predicate Covered(w: World, u: World, stage: nat) {
    forall s, c | 0 <= s < stage && IsMember(w, s, c) :: CommandKey(s, c, Rollback) in u.queue
  }

  lemma AddsRollbacksCompose(v: World, t: World, u: World, version: string)
    requires AddsRollbacks(v, t, version) && AddsRollbacks(t, u, version)
    ensures AddsRollbacks(v, u, version)
  {
  }

  /** Enqueueing ends in an error exactly when a set is missing. */
  lemma {:induction false} RollbackOkExactly(w: World, stage: nat, version: string)
    requires stage <= |w.stages|
    ensures RollbackFrom(w, stage, version).1 <==> forall s | 0 <= s < stage :: Members(w, s).Some?
    decreases stage
  {
    hide Members, RollbackStage;
    if stage > 0 {
      RollbackOkExactly(w, stage - 1, version);
    }
  }

  lemma NothingAdded(w: World, version: string)
    ensures CommitAll(w, []) == w && AddsRollbacks(w, w, version)
  {
  }

  lemma {:induction false} RollbackFromAdds(w: World, v: World, stage: nat, version: string)
    requires stage <= |w.stages|
    ensures var u := CommitAll(v, RollbackFrom(w, stage, version).0);
            AddsRollbacks(v, u, version) && (RollbackFrom(w, stage, version).1 ==> Covered(w, u, stage))
    decreases stage
  {
    hide IsMember, Covered, RollbackStage, CommitAll, Members;
    NothingAdded(v, version);
    if stage == 0 {
      NothingToCover(w, v);
    } else if Members(w, stage - 1).Some? {
      var members := Members(w, stage - 1).value;
      var first, rest := RollbackStage(stage - 1, members, version), RollbackFrom(w, stage - 1, version).0;
      CommitAllSplit(v, first, rest);
      RollbackStageAdds(v, stage - 1, members, version);
      var t := CommitAll(v, first);
      RollbackFromAdds(w, t, stage - 1, version);
      AddsRollbacksCompose(v, t, CommitAll(t, rest), version);
      if RollbackFrom(w, stage, version).1 {
        CoverOneMore(w, t, CommitAll(t, rest), stage - 1);
      }
    }
  }

  lemma NothingToCover(w: World, v: World)
    ensures Covered(w, v, 0)
  {
  }

  lemma CoverOneMore(w: World, t: World, u: World, stage: nat)
    requires stage < |w.stages| && Members(w, stage).Some? && Covered(w, u, stage)
    requires forall c | c in Members(w, stage).value :: CommandKey(stage, c, Rollback) in t.queue
    requires forall k | k in t.queue :: k in u.queue
    ensures Covered(w, u, stage + 1)
  {
  }

  lemma {:induction false} RollbackStageAdds(v: World, stage: nat, members: seq<string>, version: string)
    ensures var u := CommitAll(v, RollbackStage(stage, members, version));
            && AddsRollbacks(v, u, version)
            && (forall c | c in members :: CommandKey(stage, c, Rollback) in u.queue)
    decreases |members|
  {
    if members != [] {
      var first := EnqueueCommand(CommandKey(stage, members[0], Rollback), version);
      RollbackStageAdds(Commit(v, first), stage, members[1..], version);
    }
  }

  predicate AllSetsExist(w: World) {
    forall s | 0 <= s < |w.stages| :: Members(w, s).Some?
  }

  /** A rollback of a started rollout, after any run with unchanged membership, gives every cluster that was handed the new version a rollback
      command of its own, and the rollout ends as rolled back. A command that was already there, from a
      rollback that was cut short, stays as it was: it carries the version asked for now only if that
      is the version asked for then. */
  lemma RollbackReachesEveryCluster(w0: World, steps: seq<Step>, version: string)
    requires Created(w0) && FixedFleet(steps)
    requires WellFormed(Run(w0, steps)) && CanRollBack(Run(w0, steps), version)
    requires AllSetsExist(Run(w0, steps))
    ensures var w := Run(w0, steps);
            var v := CommitAll(w, RollBack(w, version));
            && v.state.RolledBack?
            && (forall k | k in w.queue && k.suffix.Apply? ::
                  CommandKey(k.stage, k.cluster, Rollback) in v.queue)
            && (forall k | k in v.queue && k.suffix.Rollback? ::
                  v.queue[k].payload == DesiredState(w.about, version) <==>
                  k !in w.queue || w.queue[k].payload == DesiredState(w.about, version))
  {
    CreatedInv(w0);
    RunKeeps(w0, steps);
    RunKeepsMembers(w0, steps);
    RollbackOf(Run(w0, steps), version);
  }

  lemma RollbackOf(w: World, version: string)
    requires Base(w) && RowsAreMembers(w) && CanRollBack(w, version)
    requires AllSetsExist(w)
    ensures var v := CommitAll(w, RollBack(w, version));
            && v.state.RolledBack?
            && (forall k | k in w.queue && k.suffix.Apply? ::
                  CommandKey(k.stage, k.cluster, Rollback) in v.queue)
            && (forall k | k in v.queue && k.suffix.Rollback? ::
                  v.queue[k].payload == DesiredState(w.about, version) <==>
                  k !in w.queue || w.queue[k].payload == DesiredState(w.about, version))
  {
    var (writes, ok) := RollbackFrom(w, |w.stages|, version);
    var last := Cas(w.state, RolledBack, w.stage, None);
    assert Transition(w, RolledBack, w.stage, None) == [last] && [last][1..] == [];
    RollbackOkExactly(w, |w.stages|, version);
    RollbackFromAdds(w, w, |w.stages|, version);
    CommitAllSplit(w, writes, [last]);
    var u := CommitAll(w, writes);
    forall k | k in w.queue && k.suffix.Apply? ensures CommandKey(k.stage, k.cluster, Rollback) in u.queue {
      var i := Find(w.targets[k.stage], k.cluster).value;
      assert IsMember(w, k.stage, w.targets[k.stage][i].cluster);
    }
  }

  // ----- How a before gate is lost

  /** An apply command has gone out for a stage whose before gate was never met. */
  predicate GateSkipped(w: World, stage: nat, cluster: string) {
    ApplyKey(stage, cluster) in w.queue && GateOf(w, stage, Before).Some? && !Passed(w, stage, Before)
  }

  lemma HandedOver(w: World, stage: nat, cluster: string, version: string)
    ensures var v := CommitAll(w, Hand(stage, cluster, version));
            v == w.(targets := v.targets, queue := v.queue) && w.queue.Keys <= v.queue.Keys && ApplyKey(stage, cluster) in v.queue
  {
    var hand := Hand(stage, cluster, version);
    assert hand == [hand[0]] + [hand[1]];
    CommitAllSplit(w, [hand[0]], [hand[1]]);
    CommitOne(w, hand[0]);
    CommitOne(Commit(w, hand[0]), hand[1]);
  }

  lemma CommitOne(w: World, write: Write)
    ensures CommitAll(w, [write]) == Commit(w, write)
  {
    assert CommitAll(w, [write]) == CommitAll(Commit(w, write), [write][1..]);
  }

  lemma {:induction false} BatchLeavesTrails(w: World, stage: nat, rows: seq<Target>, slots: int, version: string)
    ensures var v := CommitAll(w, DeliverBatch(stage, rows, slots, version));
            v == w.(targets := v.targets, queue := v.queue) && w.queue.Keys <= v.queue.Keys
    decreases |rows|
  {
    if slots > 0 && rows != [] {
      if rows[0].status.TargetPending? {
        CommitAllSplit(w, Hand(stage, rows[0].cluster, version), DeliverBatch(stage, rows[1..], slots - 1, version));
        HandedOver(w, stage, rows[0].cluster, version);
        BatchLeavesTrails(CommitAll(w, Hand(stage, rows[0].cluster, version)), stage, rows[1..], slots - 1, version);
      } else {
        BatchLeavesTrails(w, stage, rows[1..], slots, version);
      }
    }
  }

  lemma FirstOfBatch(w: World, stage: nat, rows: seq<Target>, slots: int, version: string)
    requires slots > 0 && rows != [] && rows[0].status.TargetPending?
    ensures ApplyKey(stage, rows[0].cluster) in CommitAll(w, DeliverBatch(stage, rows, slots, version)).queue
  {
    CommitAllSplit(w, Hand(stage, rows[0].cluster, version), DeliverBatch(stage, rows[1..], slots - 1, version));
    HandedOver(w, stage, rows[0].cluster, version);
    BatchLeavesTrails(CommitAll(w, Hand(stage, rows[0].cluster, version)), stage, rows[1..], slots - 1, version);
  }

  lemma {:induction false} PendingRowsSettleToThemselves(stage: nat, rows: seq<Target>, queue: Rows<CommandKey>)
    requires forall i | 0 <= i < |rows| :: rows[i].status.TargetPending?
    ensures SettleAll(rows, queue) == rows && Reconcile(stage, rows, queue) == []
    ensures Count(rows, TargetFailed) == 0 && Count(rows, TargetDelivered) == 0 && Count(rows, TargetPending) == |rows|
  {
    if rows != [] {
      PendingRowsSettleToThemselves(stage, rows[1..], queue);
    }
  }

  lemma UnguardedPlan(w: World) returns (slots: int)
    requires WellFormed(w) && w.state.Running? && w.stage < |w.stages| && StageOk(w.stages[w.stage])
    requires w.targets[w.stage] != [] && forall i | 0 <= i < |w.targets[w.stage]| :: w.targets[w.stage][i].status.TargetPending?
    requires Members(w, w.stage).Some? && Members(w, w.stage).value != []
    ensures slots > 0 && AdvanceOnce(w) == DeliverBatch(w.stage, w.targets[w.stage], slots, w.desired)
  {
    hide Count, DeliverBatch, ParseMaxConcurrency, StageMembers, SettleAll, Reconcile;
    var rows := w.targets[w.stage];
    PendingRowsSettleToThemselves(w.stage, rows, w.queue);
    AcceptedForEveryTotal(w.stages[w.stage].maxConcurrency, |Members(w, w.stage).value|);
    slots := Slots(w, w.stage, |Members(w, w.stage).value|).value;
  }

  /** A stage that is running with pending rows is delivered to, whether or not its gate was met. */
  lemma UnguardedAdvance(w: World, n: nat)
    requires WellFormed(w) && w.state.Running? && w.stage < |w.stages| && StageOk(w.stages[w.stage])
    requires w.targets[w.stage] != [] && forall i | 0 <= i < |w.targets[w.stage]| :: w.targets[w.stage][i].status.TargetPending?
    requires Members(w, w.stage).Some? && Members(w, w.stage).value != []
    requires GateOf(w, w.stage, Before).Some? && !Passed(w, w.stage, Before)
    requires n >= |AdvanceOnce(w)|
    ensures GateSkipped(Take(w, AdvanceStep(n)), w.stage, w.targets[w.stage][0].cluster)
  {
    hide AdvanceOnce, DeliverBatch, Members, StageOk, Passed, CommitAll;
    var rows := w.targets[w.stage];
    var slots := UnguardedPlan(w);
    FirstOfBatch(w, w.stage, rows, slots, w.desired);
    BatchLeavesTrails(w, w.stage, rows, slots, w.desired);
    var v := CommitAll(w, AdvanceOnce(w));
    if Passed(v, w.stage, Before) {
      SamePassed(w, v, w.stage);
    }
  }

  lemma SamePassed(w: World, v: World, stage: nat)
    requires v == w.(targets := v.targets, queue := v.queue) && Passed(v, stage, Before)
    ensures Passed(w, stage, Before)
  {
  }

  lemma TwoSteps(w: World, first: Step, second: Step)
    requires WellFormed(w)
    ensures WellFormed(Take(w, first)) && Run(w, [first, second]) == Take(Take(w, first), second)
  {
    TakeKeepsShape(w, first);
    var v := Take(w, first);
    TakeKeepsShape(v, second);
    assert [first, second][1..] == [second] && [second][1..] == [];
    assert Run(v, [second]) == Run(Take(v, second), []);
  }

  lemma {:induction false} RunSplit(w: World, a: seq<Step>, b: seq<Step>)
    requires WellFormed(w)
    ensures WellFormed(Run(w, a)) && Run(w, a + b) == Run(Run(w, a), b)
    decreases |a|
  {
    if a == [] {
      assert a + b == b;
    } else {
      TakeKeepsShape(w, a[0]);
      assert (a + b)[1..] == a[1..] + b;
      RunSplit(Take(w, a[0]), a[1..], b);
    }
  }

  /** The before gate of a stage, still unmet when the rollout has come back to the stage. */
  predicate StaysShut(w: World, k: nat) {
    w.stage <= k &&
    match GateOf(w, k, Before)
    case Some(Wait(seconds)) =>
      (k, Before) in w.entered && w.now + Waits(w.stages, w.stage, k) < w.entered[(k, Before)] + seconds
    case Some(Approval) => !ApprovedFor(w, k, Before)
    case Some(_) => true
    case None => false
  }

  lemma {:induction false} DoneRowsSettle(stage: nat, rows: seq<Target>, queue: Rows<CommandKey>)
    requires AllHealthy(rows)
    ensures SettleAll(rows, queue) == rows && Reconcile(stage, rows, queue) == []
    ensures Count(rows, TargetFailed) == 0 && Count(rows, TargetDelivered) == 0 && Count(rows, TargetPending) == 0
  {
    if rows != [] {
      DoneRowsSettle(stage, rows[1..], queue);
    }
  }

  /** A running rollout whose stage is done, the gate closed. */
  predicate AtDoneStage(w: World) {
    WellFormed(w) && w.state.Running? && w.gate.None? && w.stage < |w.stages| && Done(w.targets[w.stage])
  }

  /** The same rollout one stage on, `seconds` later, no before gate decided. */
  ghost predicate OneStageOn(w: World, v: World, seconds: nat) {
    && v == w.(stage := w.stage + 1, now := w.now + seconds, approvals := v.approvals, entered := v.entered)
    && (forall e | e in w.entered && e.1.Before? :: e in v.entered && v.entered[e] == w.entered[e])
    && (forall k :: ApprovedFor(v, k, Before) ==> ApprovedFor(w, k, Before))
  }

  lemma DoneStagePlan(w: World)
    requires AtDoneStage(w)
    ensures AdvanceOnce(w) == match w.stages[w.stage].afterGate
                              case Some(kind) => EnterGate(w, w.stage, After, kind)
                              case None => [Cas(Running, Running, w.stage + 1, None)]
  {
    DoneRowsSettle(w.stage, w.targets[w.stage], w.queue);
    hide Count, SettleAll, Reconcile;
  }

  lemma PassUngated(w: World) returns (steps: seq<Step>)
    requires AtDoneStage(w) && w.stages[w.stage].afterGate.None?
    ensures OneStageOn(w, Run(w, steps), 0)
  {
    DoneStagePlan(w);
    steps := [AdvanceStep(1)];
    CommitOne(w, AdvanceOnce(w)[0]);
    TakeKeepsShape(w, steps[0]);
    assert steps[1..] == [];
  }

  /** Parked on the after gate of its stage. */
  function OnAfterGate(w: World, kind: GateKind): World {
    w.(state := WaitingGate, gate := Some(GateContext(After, kind, w.now, None)), entered := w.entered[(w.stage, After) := w.now])
  }

  lemma EntersAfterGate(w: World, kind: GateKind)
    requires AtDoneStage(w) && w.stages[w.stage].afterGate == Some(kind)
    ensures Take(w, AdvanceStep(1)) == OnAfterGate(w, kind)
  {
    DoneStagePlan(w);
    var enter := Cas(Running, WaitingGate, w.stage, Some(GateContext(After, kind, w.now, None)));
    var ask := if kind.Approval? then AskFor(w, w.stage, After) else [];
    assert AdvanceOnce(w) == [enter] + ask;
    PrefixHead(w, enter, ask, 1);
    NothingCut(Commit(w, enter), ask);
  }

  lemma PassWait(w: World, seconds: int) returns (steps: seq<Step>)
    requires AtDoneStage(w) && w.stages[w.stage].afterGate == Some(Wait(seconds))
    ensures OneStageOn(w, Run(w, steps), WaitOf(w.stages[w.stage]))
  {
    var wait := WaitOf(w.stages[w.stage]);
    EntersAfterGate(w, Wait(seconds));
    var u := OnAfterGate(w, Wait(seconds));
    WaitRunsOut(u, wait);
    hide Take, Run;
    steps := [AdvanceStep(1), ClockStep(wait), AdvanceStep(1)];
    assert steps == [AdvanceStep(1)] + [ClockStep(wait), AdvanceStep(1)];
    RunSplit(w, [AdvanceStep(1)], [ClockStep(wait), AdvanceStep(1)]);
    RunOne(w, AdvanceStep(1));
    TwoSteps(u, ClockStep(wait), AdvanceStep(1));
  }

  lemma WaitRunsOut(u: World, wait: nat)
    requires WellFormed(u) && u.state.WaitingGate? && u.gate.Some? && u.gate.value.side.After?
    requires WaitOver(u.(now := u.now + wait), u.gate.value)
    ensures WellFormed(Take(u, ClockStep(wait)))
    ensures Take(Take(u, ClockStep(wait)), AdvanceStep(1))
            == u.(state := Running, stage := u.stage + 1, gate := None, now := u.now + wait)
  {
    var t := u.(now := u.now + wait);
    assert AdvanceOnce(t) == ClearGate(t);
    OneCas(t, Running, t.stage + 1, None);
  }

  lemma RunOne(w: World, step: Step)
    requires WellFormed(w)
    ensures Run(w, [step]) == Take(w, step)
  {
    TakeKeepsShape(w, step);
    assert [step][1..] == [];
  }

  lemma PassApproval(w: World) returns (steps: seq<Step>)
    requires AtDoneStage(w) && w.stages[w.stage].afterGate == Some(Approval)
    ensures OneStageOn(w, Run(w, steps), 0)
  {
    var id := |w.approvals|;
    EntersAfterGate(w, Approval);
    var u := OnAfterGate(w, Approval);
    RequestAndApprove(u, 1);
    steps := [AdvanceStep(1)] + [AdvanceStep(1), DecideStep(id, true), DecidedStep(id)];
    RunSplit(w, [AdvanceStep(1)], [AdvanceStep(1), DecideStep(id, true), DecidedStep(id)]);
    RunOne(w, AdvanceStep(1));
    var v := Run(w, steps);
    forall k | ApprovedFor(v, k, Before) ensures ApprovedFor(w, k, Before) {
      var i :| 0 <= i < |v.approvals| && v.approvals[i] == GateApproval(k, Before, Approved);
      assert w.approvals[i] == v.approvals[i];
    }
  }

  /** Asking for an open approval gate again and approving that very request clears the gate, whether or not
      the request was linked to it. */
  lemma RequestAndApprove(u: World, n: nat)
    requires WellFormed(u) && u.state.WaitingGate? && u.gate.Some? && u.gate.value.kind.Approval? && u.gate.value.approvalId.None?
    requires 1 <= n <= 2
    ensures var id, side := |u.approvals|, u.gate.value.side;
            Run(u, [AdvanceStep(n), DecideStep(id, true), DecidedStep(id)])
            == u.(state := Running, stage := if side.After? then u.stage + 1 else u.stage, gate := None,
                  approvals := u.approvals + [GateApproval(u.stage, side, Approved)])
  {
    var id, side := |u.approvals|, u.gate.value.side;
    AskedFor(u, n);
    var a := Take(u, AdvanceStep(n));
    ApprovalClears(a, id);
    assert u.approvals + [GateApproval(u.stage, side, Approved)] == a.approvals[id := GateApproval(u.stage, side, Approved)];
    hide Take, Run;
    assert [AdvanceStep(n), DecideStep(id, true), DecidedStep(id)] == [AdvanceStep(n)] + [DecideStep(id, true), DecidedStep(id)];
    RunSplit(u, [AdvanceStep(n)], [DecideStep(id, true), DecidedStep(id)]);
    RunOne(u, AdvanceStep(n));
  }

  /** Approving a pending request of the open gate's stage and side clears the gate. */
  lemma ApprovalClears(a: World, id: nat)
    requires WellFormed(a) && a.state.WaitingGate? && a.gate.Some? && id < |a.approvals|
    requires a.approvals[id] == GateApproval(a.stage, a.gate.value.side, ApprovalPending)
    ensures var side := a.gate.value.side;
            Run(a, [DecideStep(id, true), DecidedStep(id)])
            == a.(state := Running, stage := if side.After? then a.stage + 1 else a.stage, gate := None,
                  approvals := a.approvals[id := GateApproval(a.stage, side, Approved)])
  {
    var side := a.gate.value.side;
    var b := a.(approvals := a.approvals[id := GateApproval(a.stage, side, Approved)]);
    OneCas(b, Running, if side.After? then a.stage + 1 else a.stage, None);
    assert Handle(b, id) == ClearGate(b);
    TwoSteps(a, DecideStep(id, true), DecidedStep(id));
  }

  /** One write makes the request, the second links it. */
  lemma AskedFor(u: World, n: nat)
    requires WellFormed(u) && u.state.WaitingGate? && u.gate.Some? && u.gate.value.kind.Approval? && u.gate.value.approvalId.None?
    requires 1 <= n <= 2
    ensures var id, side := |u.approvals|, u.gate.value.side;
            Take(u, AdvanceStep(n)) ==
            u.(approvals := u.approvals + [GateApproval(u.stage, side, ApprovalPending)],
               gate := if n == 1 then u.gate else Some(u.gate.value.(approvalId := Some(id))))
  {
    var id, side := |u.approvals|, u.gate.value.side;
    var ask, link := RequestApproval(u.stage, side), LinkApproval(u.stage, side, id);
    assert AdvanceOnce(u) == [ask] + [link];
    PrefixHead(u, ask, [link], n);
    var v := Commit(u, ask);
    assert [link] == [link] + [];
    PrefixHead(v, link, [], n - 1);
    if n == 2 {
      NoWrites(Commit(v, link), 0);
    }
  }

  lemma PassStage(w: World) returns (steps: seq<Step>)
    requires AtDoneStage(w) && StageOk(w.stages[w.stage])
    ensures OneStageOn(w, Run(w, steps), WaitOf(w.stages[w.stage]))
  {
    match w.stages[w.stage].afterGate
    case None => steps := PassUngated(w);
    case Some(Wait(seconds)) => steps := PassWait(w, seconds);
    case Some(Approval) => steps := PassApproval(w);
    case Some(UnknownGate(_)) => assert false;
  }

  /** Back to a stage through done ones, in no more time than their gates take. */
  lemma {:induction false} Climb(w: World, k: nat) returns (steps: seq<Step>)
    requires WellFormed(w) && w.state.Running? && w.gate.None? && w.stage <= k < |w.stages| && StaysShut(w, k)
    requires forall s | 0 <= s < |w.stages| :: StageOk(w.stages[s])
    requires forall s | 0 <= s < k :: Done(w.targets[s])
    ensures var v := Run(w, steps);
            v == w.(stage := k, now := v.now, approvals := v.approvals, entered := v.entered) && StaysShut(v, k)
    decreases k - w.stage
  {
    if w.stage == k {
      steps := [];
    } else {
      var first := PassStage(w);
      var u := Run(w, first);
      RunSplit(w, first, []);
      StillShut(w, u, k);
      var rest := Climb(u, k);
      RunSplit(w, first, rest);
      steps := first + rest;
    }
  }

  lemma StillShut(w: World, u: World, k: nat)
    requires w.stage < k && w.stage < |w.stages| && StaysShut(w, k) && OneStageOn(w, u, WaitOf(w.stages[w.stage]))
    ensures StaysShut(u, k)
  {
    assert Waits(w.stages, w.stage, k) == WaitOf(w.stages[w.stage]) + Waits(w.stages, w.stage + 1, k);
  }

  /** Starting again while an unmet before gate is open, whatever stage it belongs to and whether the rollout
      is parked on it, paused or failed there, loses the gate unless its wait runs out on the way back: there
      is a run after which the stage is delivered to with the gate still unmet. */
  lemma RestartSkipsGate(w: World) returns (steps: seq<Step>)
    requires Inv(w) && CanRolloutTransition(w.state, Running) && !StartFits(w)
    requires forall s | 0 <= s < |w.stages| :: StageOk(w.stages[s])
    requires w.stage < |w.stages| && Members(w, w.stage).Some? && Members(w, w.stage).value != []
    ensures w.stage < |w.targets| && w.targets[w.stage] != []
    ensures GateSkipped(Run(w, [StartStep] + steps), w.stage, w.targets[w.stage][0].cluster)
  {
    var k := w.stage;
    Restarted(w);
    var v := Take(w, StartStep);
    hide Inv, StartFits, StageOk, Take;
    var climb := Climb(v, k);
    var u := Run(v, climb);
    var n := |AdvanceOnce(u)|;
    ShutMeansUnmet(u, k);
    UnguardedAdvance(u, n);
    steps := climb + [AdvanceStep(n)];
    RunSplit(w, [StartStep], steps);
    RunOne(w, StartStep);
    RunSplit(v, climb, [AdvanceStep(n)]);
    RunOne(u, AdvanceStep(n));
  }

  lemma ShutMeansUnmet(w: World, k: nat)
    requires StaysShut(w, k)
    ensures GateOf(w, k, Before).Some? && !Passed(w, k, Before)
  {
  }

  lemma Restarted(w: World)
    requires Inv(w) && CanRolloutTransition(w.state, Running) && !StartFits(w)
    ensures var v := Take(w, StartStep);
            && WellFormed(w) && v == w.(state := Running, stage := 0, gate := None) && StaysShut(v, w.stage)
            && w.stage < |w.targets| && w.targets[w.stage] != [] && (forall s | 0 <= s < w.stage :: Done(w.targets[s]))
            && (forall i | 0 <= i < |w.targets[w.stage]| :: w.targets[w.stage][i].status.TargetPending?)
  {
    OneCas(w, Running, 0, None);
    var v := Take(w, StartStep);
    assert StageRowsOk(w, w.stage);
    forall i | 0 <= i < |w.targets[w.stage]| ensures w.targets[w.stage][i].status.TargetPending? {
      assert RowOk(w, w.stage, w.targets[w.stage][i]);
    }
  }

  /** A crash between seeding a stage and parking it on its before gate skips the gate: the next
      advance finds rows and delivers. */
  lemma TornSeedingSkipsGate(w: World, committed: nat) returns (v: World, n: nat)
    requires Base(w) && TornSeeding(w, committed) && StageOk(w.stages[w.stage])
    ensures v == Take(w, AdvanceStep(committed)) && |v.targets| == |w.targets|
    ensures v.targets[w.stage] == SeedRows(Members(w, w.stage).value[..committed])
    ensures GateSkipped(Run(w, [AdvanceStep(committed), AdvanceStep(n)]), w.stage, Members(w, w.stage).value[0])
  {
    v := Torn(w, committed);
    TwoSteps(w, AdvanceStep(committed), AdvanceStep(0));
    n := |AdvanceOnce(v)|;
    UnguardedAdvance(v, n);
    TwoSteps(w, AdvanceStep(committed), AdvanceStep(n));
  }

  lemma Torn(w: World, committed: nat) returns (v: World)
    requires Base(w) && TornSeeding(w, committed)
    ensures v == Take(w, AdvanceStep(committed)) && Ready(v) && v.stages == w.stages && v.fleet == w.fleet && v.stage == w.stage
    ensures !Passed(v, v.stage, Before) && GateOf(v, v.stage, Before).Some?
    ensures v.targets[v.stage] == SeedRows(Members(w, w.stage).value[..committed])
    ensures v.targets[v.stage] != [] && v.targets[v.stage][0].cluster == Members(w, w.stage).value[0]
    ensures forall i | 0 <= i < |v.targets[v.stage]| :: v.targets[v.stage][i].status.TargetPending?
  {
    var members := Members(w, w.stage).value;
    MembersAreDistinct(w.fleet, w.stages[w.stage].clusterSetIds);
    SeedLength(w.stage, members);
    PrefixSplit(w, Seed(w.stage, members), AfterSeeding(w, members), committed);
    SeedCut(w, members, committed);
    v := CommitPrefix(w, Seed(w.stage, members), committed);
    if committed == |members| {
      PrefixAll(w, Seed(w.stage, members), committed);
      assert CommitPrefix(v, AfterSeeding(w, members), 0) == v;
    }
    SeedRowsAt(members[..committed]);
    PassedOnlyAfterEntry(v, v.stage, Before);
  }

  // ----- What a decision is matched against

  /** Delivering a decision does something exactly if the rollout is parked with a gate open in the stage of
      the request, and the request was rejected, or approved and made for the side that is open; which request
      the gate is linked to is no matter. */
  lemma DecisionActsExactly(w: World, id: nat)
    requires WellFormed(w) && id < |w.approvals|
    ensures var a, v := w.approvals[id], Take(w, DecidedStep(id));
            && (v != w <==>
                  Parked(w) && w.gate.Some? && a.stage == w.stage
                  && (a.state.Rejected? || (a.state.Approved? && a.side == w.gate.value.side)))
            && (v != w && a.state.Rejected? ==> v == w.(state := Failed))
            && (v != w && a.state.Approved? ==>
                  v == w.(state := Running, gate := None, stage := if a.side.After? then w.stage + 1 else w.stage))
  {
    if Parked(w) && w.gate.Some? {
      OneCas(w, Failed, w.stage, w.gate);
      OneCas(w, Running, if w.gate.value.side.After? then w.stage + 1 else w.stage, None);
    }
  }

  /** A rejection is matched by stage only: rejecting a request that was made for the other gate of the stage,
      and is still pending, fails a rollout parked on this one. */
  lemma RejectionIgnoresTheSide(w: World, id: nat)
    requires WellFormed(w) && id < |w.approvals| && Parked(w) && w.gate.Some?
    requires w.approvals[id].stage == w.stage && w.approvals[id].side != w.gate.value.side && w.approvals[id].state.ApprovalPending?
    ensures Run(w, [DecideStep(id, false), DecidedStep(id)])
            == w.(state := Failed, approvals := w.approvals[id := w.approvals[id].(state := Rejected)])
  {
    var u := Take(w, DecideStep(id, false));
    DecisionActsExactly(u, id);
    TwoSteps(w, DecideStep(id, false), DecidedStep(id));
  }

  /** An approval is matched by stage and side, not by the request the gate is linked to: when the first
      request for a gate was made but not linked, a second one is made and linked, and approving the first
      clears the gate while the linked request is still undecided. */
  lemma OrphanedApprovalClearsTheGate(w: World)
    requires WellFormed(w) && w.state.WaitingGate? && w.gate.Some? && w.gate.value.kind.Approval? && w.gate.value.approvalId.None?
    ensures var orphan := |w.approvals|;
            var asked := Run(w, [AdvanceStep(1), AdvanceStep(2)]);
            var v := Run(w, [AdvanceStep(1), AdvanceStep(2), DecideStep(orphan, true), DecidedStep(orphan)]);
            && asked.state.WaitingGate? && asked.gate == Some(w.gate.value.(approvalId := Some(orphan + 1)))
            && v.state.Running? && v.gate.None?
            && |v.approvals| == orphan + 2 && v.approvals[orphan + 1].state.ApprovalPending?
  {
    var orphan := |w.approvals|;
    AskedFor(w, 1);
    var u := Take(w, AdvanceStep(1));
    AskedFor(u, 2);
    TwoSteps(w, AdvanceStep(1), AdvanceStep(2));
    var a := Take(u, AdvanceStep(2));
    ApprovalClears(a, orphan);
    hide Take, Run;
    var first, second := [AdvanceStep(1), AdvanceStep(2)], [DecideStep(orphan, true), DecidedStep(orphan)];
    RunSplit(w, first, second);
    assert first + second == [AdvanceStep(1), AdvanceStep(2), DecideStep(orphan, true), DecidedStep(orphan)];
  }
}
