/** Bounds and dead ends of a rollout: how many clusters are in flight, what a failed target and a
    rejected gate do to the rest of the run. */
module RolloutLimits {
  import opened Wrappers
  import opened Stages
  import opened ClusterSets
  import opened CommandIds
  import opened CommandQueue
  import opened RolloutModel
  import opened RolloutSafety
  import opened RolloutBatches
  import opened RolloutRuns

  // ----- Where an operation writes

  /** A write to rows of one stage only, which leaves the rollout in that stage or the next. */
  predicate Local(write: Write, at: nat) {
    match write
    case Cas(_, _, s, _) => s == at || s == at + 1
    case UpsertTarget(s, _) => s == at
    case SetTargetStatus(s, _, _) => s == at
    case _ => true
  }

  predicate AllLocal(writes: seq<Write>, at: nat) {
    forall i | 0 <= i < |writes| :: Local(writes[i], at)
  }

  /** Rows of other stages are as they were. */
  predicate SameElsewhere(w: World, v: World, at: nat) {
    |v.targets| == |w.targets| && forall s | 0 <= s < |w.targets| && s != at :: v.targets[s] == w.targets[s]
  }

  lemma {:induction false} LocalWrites(w: World, writes: seq<Write>, at: nat, n: nat)
    requires AllLocal(writes, at) && (w.stage == at || w.stage == at + 1)
    ensures var v := CommitPrefix(w, writes, n);
            SameElsewhere(w, v, at) && (v.stage == at || v.stage == at + 1)
    decreases |writes|
  {
    hide CommitPrefix;
    if writes == [] {
      NoWrites(w, n);
    } else {
      assert writes == [writes[0]] + writes[1..];
      PrefixHead(w, writes[0], writes[1..], n);
      if n > 0 {
        LocalWrites(Commit(w, writes[0]), writes[1..], at, n - 1);
      }
    }
  }

  lemma {:induction false} SeedIsLocal(at: nat, members: seq<string>)
    ensures AllLocal(Seed(at, members), at)
  {
    if members != [] {
      SeedIsLocal(at, members[1..]);
    }
  }

  lemma {:induction false} BatchIsLocal(at: nat, rows: seq<Target>, slots: int, version: string)
    ensures AllLocal(DeliverBatch(at, rows, slots, version), at)
    decreases |rows|
  {
    if slots > 0 && rows != [] {
      BatchIsLocal(at, rows[1..], if rows[0].status.TargetPending? then slots - 1 else slots, version);
    }
  }

  lemma {:induction false} ReconcileIsLocal(at: nat, rows: seq<Target>, queue: Rows<CommandKey>)
    ensures AllLocal(Reconcile(at, rows, queue), at)
  {
    if rows != [] {
      ReconcileIsLocal(at, rows[1..], queue);
    }
  }

  lemma EnterStageIsLocal(w: World)
    requires w.stage < |w.stages|
    ensures AllLocal(EnterStage(w), w.stage)
  {
    if Members(w, w.stage).Some? {
      var members := Members(w, w.stage).value;
      SeedIsLocal(w.stage, members);
      if Slots(w, w.stage, |members|).Some? {
        BatchIsLocal(w.stage, SeedRows(members), Slots(w, w.stage, |members|).value, w.desired);
      }
    }
  }

  lemma AfterReconcileIsLocal(w: World, rows: seq<Target>)
    requires w.stage < |w.stages|
    ensures AllLocal(AfterReconcile(w, rows), w.stage)
  {
    TopUpIsABatch(w, rows);
    BatchIsLocal(w.stage, rows, TopUpSlots(w, rows), w.desired);
    hide TopUp, TopUpSlots, DeliverBatch, Count;
  }

  lemma AdvanceIsLocal(w: World)
    requires WellFormed(w)
    ensures AllLocal(AdvanceOnce(w), w.stage)
  {
    hide EnterStage, AfterReconcile, Reconcile;
    if w.state.Running? && w.stage < |w.stages| {
      if w.targets[w.stage] == [] {
        EnterStageIsLocal(w);
      } else {
        ReconcileIsLocal(w.stage, w.targets[w.stage], w.queue);
        AfterReconcileIsLocal(w, SettleAll(w.targets[w.stage], w.queue));
      }
    }
  }

  /** A write that changes no row. */
  predicate Quiet(write: Write) {
    !write.UpsertTarget? && !write.SetTargetStatus?
  }

  lemma {:induction false} QuietWrites(w: World, writes: seq<Write>, n: nat)
    requires forall i | 0 <= i < |writes| :: Quiet(writes[i])
    ensures CommitPrefix(w, writes, n).targets == w.targets
    decreases |writes|
  {
    hide CommitPrefix;
    if writes == [] {
      NoWrites(w, n);
    } else {
      assert writes == [writes[0]] + writes[1..];
      PrefixHead(w, writes[0], writes[1..], n);
      if n > 0 {
        QuietWrites(Commit(w, writes[0]), writes[1..], n - 1);
      }
    }
  }

  /** A write that can change the state only to rolled back. */
  predicate RollsBackOnly(write: Write) {
    write.EnqueueCommand? || (write.Cas? && write.to.RolledBack?)
  }

  lemma {:induction false} RollbackOnlyEnqueues(w: World, stage: nat, version: string)
    requires stage <= |w.stages|
    ensures forall i | 0 <= i < |RollbackFrom(w, stage, version).0| :: RollbackFrom(w, stage, version).0[i].EnqueueCommand?
    decreases stage
  {
    if stage > 0 && Members(w, stage - 1).Some? {
      RollbackOnlyEnqueues(w, stage - 1, version);
      RollbackStageOnlyEnqueues(stage - 1, Members(w, stage - 1).value, version);
    }
  }

  lemma {:induction false} RollbackStageOnlyEnqueues(stage: nat, members: seq<string>, version: string)
    ensures forall i | 0 <= i < |RollbackStage(stage, members, version)| :: RollbackStage(stage, members, version)[i].EnqueueCommand?
  {
    if members != [] {
      RollbackStageOnlyEnqueues(stage, members[1..], version);
    }
  }

  /** Only advancing touches rows. */
  lemma OtherStepsTouchNoRows(w: World, step: Step)
    requires WellFormed(w) && !step.AdvanceStep?
    ensures Take(w, step).targets == w.targets
  {
    match step
    case RollbackStep(version, n) =>
      RollbackOnlyEnqueues(w, |w.stages|, version);
      QuietWrites(w, RollBack(w, version), n);
    case StartStep => QuietWrites(w, Start(w), 1);
    case StopStep => QuietWrites(w, Stop(w), 1);
    case ResumeStep => QuietWrites(w, Resume(w), 1);
    case DecidedStep(id) => QuietWrites(w, Handle(w, id), 1);
    case _ =>
  }

  /** Only a new start takes a rollout back to an earlier stage. */
  lemma StageOnlyGrows(w: World, step: Step)
    requires WellFormed(w) && !step.StartStep?
    ensures Take(w, step).stage == w.stage || Take(w, step).stage == w.stage + 1
  {
    match step
    case AdvanceStep(n) =>
      AdvanceIsLocal(w);
      LocalWrites(w, AdvanceOnce(w), w.stage, n);
    case RollbackStep(version, n) =>
      RollbackOnlyEnqueues(w, |w.stages|, version);
      assert AllLocal(RollBack(w, version), w.stage);
      LocalWrites(w, RollBack(w, version), w.stage, n);
    case StopStep => LocalWrites(w, Stop(w), w.stage, 1);
    case ResumeStep => LocalWrites(w, Resume(w), w.stage, 1);
    case DecidedStep(id) => LocalWrites(w, Handle(w, id), w.stage, 1);
    case _ =>
  }

  // ----- Clusters in flight

  /** Delivered but not yet settled targets of a stage. */
  function InFlight(w: World, s: nat): nat
    requires s < |w.targets|
  {
    Count(w.targets[s], TargetDelivered)
  }

  /** The concurrency of a stage for its membership of the moment. */
  function Bound(w: World, s: nat): int
    requires s < |w.stages|
  {
    if Members(w, s).None? then 0
    else
      match Slots(w, s, |Members(w, s).value|)
      case None => 0
      case Some(n) => n
  }

  /** Each stage has no more in flight than before, or no more than its bound. */
  predicate NoneExceeds(w: World, v: World)
    requires WellFormed(w) && WellFormed(v) && |v.targets| == |w.targets|
  {
    forall s | 0 <= s < |w.targets| :: InFlight(v, s) <= InFlight(w, s) || InFlight(v, s) <= Bound(w, s)
  }

  lemma {:induction false} HandedCount(stage: nat, rows: seq<Target>, slots: int)
    ensures Count(Handed(stage, rows, slots), TargetDelivered) <= Count(rows, TargetDelivered) + (if slots > 0 then slots else 0)
  {
    if rows != [] && slots > 0 {
      HandedCount(stage, rows[1..], if rows[0].status.TargetPending? then slots - 1 else slots);
      var rest := Handed(stage, rows[1..], if rows[0].status.TargetPending? then slots - 1 else slots);
      assert Handed(stage, rows, slots)[1..] == rest;
    }
  }

  lemma {:induction false} PartlySettledCount(before: seq<Target>, after: seq<Target>, queue: Rows<CommandKey>)
    requires PartlySettled(before, after, queue)
    ensures Count(after, TargetDelivered) <= Count(before, TargetDelivered)
  {
    if before != [] {
      forall i | 0 <= i < |before| - 1
        ensures after[1..][i] == before[1..][i] || after[1..][i] == Settle(before[1..][i], queue)
      {
        assert after[1..][i] == after[i + 1] && before[1..][i] == before[i + 1];
      }
      PartlySettledCount(before[1..], after[1..], queue);
    }
  }

  lemma {:induction false} NoneDelivered(rows: seq<Target>)
    requires forall i | 0 <= i < |rows| :: !rows[i].status.TargetDelivered?
    ensures Count(rows, TargetDelivered) == 0
  {
    if rows != [] {
      NoneDelivered(rows[1..]);
    }
  }

  lemma SeedRowsNotDelivered(members: seq<string>)
    ensures Count(SeedRows(members), TargetDelivered) == 0
  {
    SeedRowsAt(members);
    NoneDelivered(SeedRows(members));
  }

  /** A batch of so many slots, handed out in a stage. */
  lemma BatchCount(v: World, slots: int, version: string, n: nat)
    requires Ready(v)
    ensures var u := CommitPrefix(v, DeliverBatch(v.stage, v.targets[v.stage], slots, version), n);
            |u.targets| == |v.targets| && InFlight(u, v.stage) <= InFlight(v, v.stage) + (if slots > 0 then slots else 0)
  {
    hide Base, DeliverBatch, CommitPrefix, Count, Handed;
    var rows := v.targets[v.stage];
    assert [] + rows == rows;
    DeliverPrefix(v, [], rows, slots, version, n);
    HandedCount(v.stage, rows, Min(slots, n / 2));
    assert [] + Handed(v.stage, rows, Min(slots, n / 2)) == Handed(v.stage, rows, Min(slots, n / 2));
  }

  lemma EnterStageWithinBound(w: World, n: nat)
    requires Ready(w) && w.stage < |w.stages| && w.targets[w.stage] == []
    ensures var v := CommitPrefix(w, EnterStage(w), n);
            w.stage < |v.targets| && (InFlight(v, w.stage) == 0 || InFlight(v, w.stage) <= Bound(w, w.stage))
  {
    hide Base, CommitPrefix, CommitAll, Seed, AfterSeeding, Bound, StageMembers;
    var found := Members(w, w.stage);
    if found == None || found.value == [] {
      QuietWrites(w, EnterStage(w), n);
    } else {
      var members := found.value;
      MembersAreDistinct(w.fleet, w.stages[w.stage].clusterSetIds);
      SeedLength(w.stage, members);
      PrefixSplit(w, Seed(w.stage, members), AfterSeeding(w, members), n);
      SeedingHasNoneInFlight(w, members, Min(n, |members|));
      if n >= |members| {
        PrefixAll(w, Seed(w.stage, members), |members|);
        assert members[..|members|] == members;
        AfterSeedingWithinBound(w, CommitAll(w, Seed(w.stage, members)), members, n - |members|);
      }
    }
  }

  lemma SeedingHasNoneInFlight(w: World, members: seq<string>, cut: nat)
    requires Ready(w) && w.stage < |w.stages| && w.targets[w.stage] == [] && NoDuplicates(members) && cut <= |members|
    ensures var v := CommitPrefix(w, Seed(w.stage, members), cut);
            && Ready(v) && OnlyRows(w, v) && InFlight(v, w.stage) == 0 && v.targets[v.stage] == SeedRows(members[..cut])
  {
    hide Base, CommitPrefix, Seed, Members;
    SeedCut(w, members, cut);
    SeedRowsNotDelivered(members[..cut]);
  }

  lemma AfterSeedingWithinBound(w: World, v: World, members: seq<string>, m: nat)
    requires Ready(w) && Ready(v) && OnlyRows(w, v) && w.stage < |w.stages| && Members(w, w.stage) == Some(members)
    requires v.targets[v.stage] == SeedRows(members) && InFlight(v, w.stage) == 0
    ensures var u := CommitPrefix(v, AfterSeeding(w, members), m);
            w.stage < |u.targets| && (InFlight(u, w.stage) == 0 || InFlight(u, w.stage) <= Bound(w, w.stage))
  {
    hide Base, CommitPrefix, DeliverBatch, Count, StageMembers, ParseMaxConcurrency;
    if w.stages[w.stage].beforeGate.None? && Slots(w, w.stage, |members|).Some? {
      BatchCount(v, Slots(w, w.stage, |members|).value, w.desired, m);
    } else {
      QuietWrites(v, AfterSeeding(w, members), m);
    }
  }

  lemma DriveStageWithinBound(w: World, n: nat)
    requires Ready(w) && w.stage < |w.stages| && w.targets[w.stage] != []
    ensures var v := CommitPrefix(w, DriveStage(w), n);
            w.stage < |v.targets| && (InFlight(v, w.stage) <= InFlight(w, w.stage) || InFlight(v, w.stage) <= Bound(w, w.stage))
  {
    hide Base, CommitPrefix, CommitAll, Reconcile, AfterReconcile, Count, Bound, Settle;
    var rows := SettleAll(w.targets[w.stage], w.queue);
    var first := Reconcile(w.stage, w.targets[w.stage], w.queue);
    PrefixSplit(w, first, AfterReconcile(w, rows), n);
    assert [] + w.targets[w.stage] == w.targets[w.stage] && [] + rows == rows;
    ReconcilePrefix(w, [], w.targets[w.stage], Min(n, |first|));
    var v := CommitPrefix(w, first, Min(n, |first|));
    PartlySettledCount(w.targets[w.stage], v.targets[w.stage], w.queue);
    if n >= |first| {
      PrefixAll(w, first, |first|);
      AfterReconcileWithinBound(w, v, rows, n - |first|);
    }
  }

  lemma TopUpWithinBound(w: World, rows: seq<Target>)
    requires w.stage < |w.stages|
    ensures TopUpSlots(w, rows) <= 0 || TopUpSlots(w, rows) + Count(rows, TargetDelivered) <= Bound(w, w.stage)
  {
  }

  lemma AfterReconcileWithinBound(w: World, v: World, rows: seq<Target>, n: nat)
    requires Ready(w) && Ready(v) && OnlyRows(w, v) && v.targets[v.stage] == rows && w.stage < |w.stages|
    ensures var u := CommitPrefix(v, AfterReconcile(w, rows), n);
            w.stage < |u.targets| && (InFlight(u, w.stage) <= InFlight(v, w.stage) || InFlight(u, w.stage) <= Bound(w, w.stage))
  {
    hide Base, Count, TopUp, CommitPrefix, Bound, DeliverBatch, TopUpSlots;
    if Count(rows, TargetFailed) == 0 && Count(rows, TargetPending) + Count(rows, TargetDelivered) > 0 {
      TopUpIsABatch(w, rows);
      TopUpWithinBound(w, rows);
      BatchCount(v, TopUpSlots(w, rows), w.desired, n);
    } else {
      QuietWrites(v, AfterReconcile(w, rows), n);
    }
  }

  lemma RunningIsReady(w: World)
    requires Base(w)
    ensures WellFormed(w) && (w.state.Running? && w.stage < |w.stages| ==> Ready(w))
  {
  }

  /** One advance, crashed or not, never raises the number in flight of any stage above the larger of
      what it was and the bound for the membership it saw. */
  lemma AdvanceWithinBound(w: World, n: nat)
    requires Base(w)
    ensures WellFormed(w) && WellFormed(Take(w, AdvanceStep(n))) && |Take(w, AdvanceStep(n)).targets| == |w.targets|
    ensures NoneExceeds(w, Take(w, AdvanceStep(n)))
  {
    RunningIsReady(w);
    TakeKeepsShape(w, AdvanceStep(n));
    AdvanceIsLocal(w);
    hide Base, CommitPrefix, Bound, EnterStage, DriveStage, Count;
    LocalWrites(w, AdvanceOnce(w), w.stage, n);
    if w.state.Running? && w.stage < |w.stages| {
      if w.targets[w.stage] == [] {
        EnterStageWithinBound(w, n);
      } else {
        DriveStageWithinBound(w, n);
      }
    } else {
      QuietWrites(w, AdvanceOnce(w), n);
    }
  }

  predicate FixedFleet(steps: seq<Step>) {
    forall i | 0 <= i < |steps| :: !steps[i].FleetStep?
  }

  predicate WithinBound(w: World)
    requires WellFormed(w)
  {
    forall s | 0 <= s < |w.targets| :: InFlight(w, s) == 0 || InFlight(w, s) <= Bound(w, s)
  }

  lemma StepWithinBound(w: World, step: Step)
    requires Base(w) && !step.FleetStep?
    ensures WellFormed(w) && WellFormed(Take(w, step)) && (WithinBound(w) ==> WithinBound(Take(w, step)))
  {
    BaseHasShape(w);
    hide Base;
    TakeKeepsShape(w, step);
    TakeKeepsFleet(w, step);
    SameBound(w, Take(w, step));
    if step.AdvanceStep? {
      AdvanceWithinBound(w, step.committed);
    } else {
      OtherStepsTouchNoRows(w, step);
    }
    hide Count, Bound, Take;
  }

  lemma SameBound(w: World, v: World)
    requires v.stages == w.stages && v.fleet == w.fleet
    ensures forall s | 0 <= s < |w.stages| :: Bound(v, s) == Bound(w, s)
  {
  }

  lemma TakeKeepsFleet(w: World, step: Step)
    requires WellFormed(w) && !step.FleetStep?
    ensures Take(w, step).fleet == w.fleet
  {
    match step
    case StartStep => CommitAllKeepsShape(w, Start(w));
    case StopStep => CommitAllKeepsShape(w, Stop(w));
    case ResumeStep => CommitAllKeepsShape(w, Resume(w));
    case AdvanceStep(n) =>
      var writes := AdvanceOnce(w);
      CommitAllKeepsShape(w, if n < |writes| then writes[..n] else writes);
    case RollbackStep(version, n) =>
      var writes := RollBack(w, version);
      CommitAllKeepsShape(w, if n < |writes| then writes[..n] else writes);
    case DecidedStep(id) => CommitAllKeepsShape(w, Handle(w, id));
    case _ =>
  }

  lemma {:induction false} RunWithinBound(w: World, steps: seq<Step>)
    requires Base(w) && FixedFleet(steps)
    ensures WellFormed(w) && WellFormed(Run(w, steps)) && (WithinBound(w) ==> WithinBound(Run(w, steps)))
    decreases |steps|
  {
    BaseHasShape(w);
    hide Base, WithinBound;
    if steps != [] {
      StepKeepsExactly(w, steps[0]);
      StepWithinBound(w, steps[0]);
      RunWithinBound(Take(w, steps[0]), steps[1..]);
    }
  }

  lemma {:induction false} RunKeepsShape(w: World, steps: seq<Step>)
    requires WellFormed(w)
    ensures WellFormed(Run(w, steps)) && Run(w, steps).stages == w.stages && Run(w, steps).desired == w.desired
    ensures Run(w, steps).about == w.about
    decreases |steps|
  {
    if steps != [] {
      TakeKeepsShape(w, steps[0]);
      RunKeepsShape(Take(w, steps[0]), steps[1..]);
    }
  }

  lemma BoundIsUsable(w: World, s: nat)
    requires s < |w.stages| && StageOk(w.stages[s])
    ensures Bound(w, s) > 0 ==> Members(w, s).Some? && Bound(w, s) <= |Members(w, s).value|
  {
    if Bound(w, s) > 0 && |Members(w, s).value| > 0 {
      AcceptedForEveryTotal(w.stages[s].maxConcurrency, |Members(w, s).value|);
    }
  }

  /** A stage with something in flight is not done, so nothing is in flight in any other. */
  lemma OneStageInFlight(w: World, r: nat, s: nat)
    requires Base(w) && r < s < |w.targets| && InFlight(w, s) > 0
    ensures InFlight(w, r) == 0
  {
    assert w.targets[s] != [] && Done(w.targets[r]);
    NoneDelivered(w.targets[r]);
  }

  /** With fixed membership, in every run: the clusters in flight never outnumber the concurrency of their
      stage, and all of them are of one stage. */
  lemma InFlightIsBounded(w: World, steps: seq<Step>)
    requires Created(w) && FixedFleet(steps)
    ensures var v := Run(w, steps);
            && WellFormed(v)
            && (forall s | 0 <= s < |v.targets| && InFlight(v, s) > 0 ::
                  Members(v, s).Some? && InFlight(v, s) <= Bound(v, s) <= |Members(v, s).value|)
            && (forall r, s | 0 <= r < |v.targets| && 0 <= s < |v.targets| && InFlight(v, r) > 0 && InFlight(v, s) > 0 :: r == s)
  {
    CreatedInv(w);
    RunWithinBound(w, steps);
    RunKeepsShape(w, steps);
    RunKeeps(w, steps);
    var v := Run(w, steps);
    forall s | 0 <= s < |v.targets| ensures Bound(v, s) > 0 ==> Members(v, s).Some? && Bound(v, s) <= |Members(v, s).value| {
      BoundIsUsable(v, s);
    }
    forall r, s | 0 <= r < s < |v.targets| && InFlight(v, s) > 0 ensures InFlight(v, r) == 0 {
      OneStageInFlight(v, r, s);
    }
    hide Base, Run, Bound, Count, StageMembers;
  }

  // ----- No command ahead of the stage

  predicate NothingAhead(w: World) {
    forall s | w.stage < s < |w.targets| :: w.targets[s] == []
  }

  /** No start of the run finds rows beyond the first stage. */
  predicate FreshStarts(w: World, steps: seq<Step>)
    requires WellFormed(w)
    decreases |steps|
  {
    steps == [] ||
    ((steps[0].StartStep? && CanRolloutTransition(w.state, Running) ==> forall s | 0 < s < |w.targets| :: w.targets[s] == [])
     && (TakeKeepsShape(w, steps[0]); FreshStarts(Take(w, steps[0]), steps[1..])))
  }

  lemma StepKeepsNothingAhead(w: World, step: Step)
    requires WellFormed(w) && NothingAhead(w)
    ensures NothingAhead(Take(w, step)) <==>
            (step.StartStep? && CanRolloutTransition(w.state, Running) ==> forall s | 0 < s < |w.targets| :: w.targets[s] == [])
  {
    if step.StartStep? {
      if CanRolloutTransition(w.state, Running) {
        OneCas(w, Running, 0, None);
      }
    } else {
      StageOnlyGrows(w, step);
      if step.AdvanceStep? {
        AdvanceIsLocal(w);
        LocalWrites(w, AdvanceOnce(w), w.stage, step.committed);
      } else {
        OtherStepsTouchNoRows(w, step);
      }
      hide Take;
    }
  }

  /** No apply command is ahead of the current stage, in every run that starts only where nothing beyond
      the first stage was seeded; the first start that does not makes it so. */
  lemma {:induction false} NoCommandIsAhead(w: World, steps: seq<Step>)
    requires Base(w) && NothingAhead(w)
    ensures WellFormed(w)
    ensures FreshStarts(w, steps) ==>
              NothingAhead(Run(w, steps)) && forall k | k in Run(w, steps).queue && k.suffix.Apply? :: k.stage <= Run(w, steps).stage
    decreases |steps|
  {
    BaseHasShape(w);
    if FreshStarts(w, steps) {
      if steps == [] {
        NoRowsNoCommands(w);
      } else {
        StepKeepsExactly(w, steps[0]);
        StepKeepsNothingAhead(w, steps[0]);
        NoCommandIsAhead(Take(w, steps[0]), steps[1..]);
      }
    }
  }

  lemma NoRowsNoCommands(w: World)
    requires Base(w) && NothingAhead(w)
    ensures forall k | k in w.queue && k.suffix.Apply? :: k.stage <= w.stage
  {
    forall k | k in w.queue && k.suffix.Apply? ensures k.stage <= w.stage {
      assert w.targets[k.stage] != [];
    }
  }

  // ----- Dead ends

  lemma {:induction false} CountPositive(rows: seq<Target>, i: nat)
    requires i < |rows|
    ensures Count(rows, rows[i].status) > 0
  {
    if i > 0 {
      CountPositive(rows[1..], i - 1);
    }
  }

  predicate FailedAt(w: World, s: nat, i: nat) {
    s < |w.targets| && i < |w.targets[s]| && w.targets[s][i].status.TargetFailed?
  }

  lemma FailedStagePlan(w: World, rows: seq<Target>, i: nat)
    requires w.stage < |w.stages| && i < |rows| && rows[i].status.TargetFailed?
    ensures AfterReconcile(w, rows) == Transition(w, Failed, w.stage, w.gate)
  {
    CountPositive(rows, i);
    hide Count;
  }

  /** An advance of a stage with a failed target leaves the target failed and the rollout in the stage. */
  lemma DriveFailedStage(w: World, i: nat, n: nat)
    requires Ready(w) && w.stage < |w.stages| && FailedAt(w, w.stage, i)
    ensures var v := CommitPrefix(w, DriveStage(w), n);
            FailedAt(v, w.stage, i) && v.stage == w.stage
  {
    hide Base, AfterReconcile, Reconcile, CommitPrefix, CommitAll;
    var rows := SettleAll(w.targets[w.stage], w.queue);
    var first := Reconcile(w.stage, w.targets[w.stage], w.queue);
    PrefixSplit(w, first, AfterReconcile(w, rows), n);
    assert [] + w.targets[w.stage] == w.targets[w.stage];
    ReconcilePrefix(w, [], w.targets[w.stage], Min(n, |first|));
    var v := CommitPrefix(w, first, Min(n, |first|));
    assert v.targets[w.stage][i] == w.targets[w.stage][i];
    if n >= |first| {
      PrefixAll(w, first, |first|);
      PrefixAll(w, first, n);
      assert rows[i] == w.targets[w.stage][i];
      FailedStagePlan(w, rows, i);
      FailMoves(w, v, n - |first|);
    }
  }

  lemma FailMoves(w: World, v: World, n: nat)
    requires OnlyRows(w, v)
    ensures var u := CommitPrefix(v, Transition(w, Failed, w.stage, w.gate), n);
            u.targets == v.targets && u.stage == v.stage
  {
    NoWrites(v, n);
    if CanRolloutTransition(w.state, Failed) {
      var fail := Cas(w.state, Failed, w.stage, w.gate);
      assert [fail] + [] == Transition(w, Failed, w.stage, w.gate);
      PrefixHead(v, fail, [], n);
    }
  }

  lemma FailedIsAhead(w: World, s: nat, i: nat)
    requires Base(w) && FailedAt(w, s, i)
    ensures WellFormed(w) && w.stage <= s && !w.state.Completed?
    ensures w.stage == s && w.gate.Some? ==> w.gate.value.side.Before?
  {
  }

  lemma StepStaysFailed(w: World, step: Step, s: nat, i: nat)
    requires Base(w) && FailedAt(w, s, i)
    ensures WellFormed(w) && FailedAt(Take(w, step), s, i)
    ensures !step.StartStep? && w.stage == s ==> Take(w, step).stage == s
  {
    FailedIsAhead(w, s, i);
    RunningIsReady(w);
    hide Base, DriveStage, EnterStage;
    if step.AdvanceStep? {
      AdvanceIsLocal(w);
      LocalWrites(w, AdvanceOnce(w), w.stage, step.committed);
      if w.state.Running? && w.stage == s {
        DriveFailedStage(w, i, step.committed);
      } else if w.stage == s {
        GateMovesInPlace(w, AdvanceOnce(w), step.committed);
      }
    } else {
      OtherStepsTouchNoRows(w, step);
      if !step.StartStep? && w.stage == s {
        OtherStepsStay(w, step);
      }
    }
  }

  lemma {:induction false} GateMovesInPlace(w: World, writes: seq<Write>, n: nat)
    requires forall i | 0 <= i < |writes| :: Quiet(writes[i]) && (writes[i].Cas? ==> writes[i].stage == w.stage)
    ensures var v := CommitPrefix(w, writes, n);
            v.targets == w.targets && v.stage == w.stage
    decreases |writes|
  {
    hide CommitPrefix;
    if writes == [] {
      NoWrites(w, n);
    } else {
      assert writes == [writes[0]] + writes[1..];
      PrefixHead(w, writes[0], writes[1..], n);
      if n > 0 {
        GateMovesInPlace(Commit(w, writes[0]), writes[1..], n - 1);
      }
    }
  }

  lemma OtherStepsStay(w: World, step: Step)
    requires WellFormed(w) && !step.StartStep? && !step.AdvanceStep? && (w.gate.Some? ==> w.gate.value.side.Before?)
    ensures Take(w, step).stage == w.stage
  {
    match step
    case StopStep => GateMovesInPlace(w, Stop(w), 1);
    case ResumeStep => GateMovesInPlace(w, Resume(w), 1);
    case RollbackStep(version, n) =>
      RollbackOnlyEnqueues(w, |w.stages|, version);
      GateMovesInPlace(w, RollBack(w, version), n);
    case DecidedStep(id) => GateMovesInPlace(w, Handle(w, id), 1);
    case _ =>
  }

  lemma {:induction false} StaysFailed(w: World, steps: seq<Step>, s: nat, i: nat)
    requires Base(w) && FailedAt(w, s, i)
    ensures WellFormed(w) && Base(Run(w, steps)) && FailedAt(Run(w, steps), s, i)
    ensures w.stage == s && (forall j | 0 <= j < |steps| :: !steps[j].StartStep?) ==> Run(w, steps).stage == s
    decreases |steps|
  {
    BaseHasShape(w);
    hide Base;
    if steps != [] {
      StepKeepsExactly(w, steps[0]);
      StepStaysFailed(w, steps[0], s, i);
      StaysFailed(Take(w, steps[0]), steps[1..], s, i);
    }
  }

  /** A failed target stops its rollout for good, in every run: the target stays failed, no stage beyond
      its own is reached and the rollout never completes, whatever is stopped, resumed, restarted or
      answered afterwards. Without a new start the rollout does not leave the stage at all. */
  lemma FailedTargetFreezesStage(w: World, past: seq<Step>, future: seq<Step>, s: nat, i: nat)
    requires Created(w)
    requires FailedAt(Run(w, past), s, i)
    ensures WellFormed(Run(w, past))
    ensures var u, v := Run(w, past), Run(Run(w, past), future);
            && FailedAt(v, s, i) && v.stage <= s && !v.state.Completed?
            && (forall k | k in v.queue && k.suffix.Apply? :: k.stage <= s)
            && (u.stage == s && (forall j | 0 <= j < |future| :: !future[j].StartStep?) ==> v.stage == s)
  {
    CreatedInv(w);
    RunKeeps(w, past);
    StaysFailed(Run(w, past), future, s, i);
    FailedIsAhead(Run(Run(w, past), future), s, i);
    NoneBeyondFailed(Run(Run(w, past), future), s, i);
  }

  lemma NoneBeyondFailed(v: World, s: nat, i: nat)
    requires Base(v) && FailedAt(v, s, i)
    ensures forall k | k in v.queue && k.suffix.Apply? :: k.stage <= s
  {
    forall k | k in v.queue && k.suffix.Apply? ensures k.stage <= s {
      assert v.targets[k.stage] != [];
    }
  }

  /** A rollout failed on a gate is shut: nothing but an explicit new start takes it anywhere except to
      rolled back, in particular no later approval of the same gate. */
  lemma {:induction false} RejectedGateStaysShut(w: World, steps: seq<Step>)
    requires WellFormed(w) && w.state.Failed? && w.gate.Some?
    requires forall i | 0 <= i < |steps| :: !steps[i].StartStep?
    ensures var v := Run(w, steps);
            v.state.RolledBack? || (v.state.Failed? && v.gate == w.gate && v.stage == w.stage)
    decreases |steps|
  {
    if steps != [] {
      var v := Take(w, steps[0]);
      TakeKeepsShape(w, steps[0]);
      if steps[0].RollbackStep? {
        RollbackOfFailed(w, steps[0].version, steps[0].committed);
      }
      if v.state.RolledBack? {
        RolledBackForGood(v, steps[1..]);
      } else {
        RejectedGateStaysShut(v, steps[1..]);
      }
    }
  }

  lemma {:induction false} RollsBackOnlyWrites(w: World, writes: seq<Write>, n: nat)
    requires forall i | 0 <= i < |writes| :: RollsBackOnly(writes[i])
    ensures var v := CommitPrefix(w, writes, n);
            v.state.RolledBack? || (v.state == w.state && v.gate == w.gate && v.stage == w.stage)
    decreases |writes|
  {
    if writes != [] {
      assert writes == [writes[0]] + writes[1..];
      PrefixHead(w, writes[0], writes[1..], n);
      if n > 0 {
        RollsBackOnlyWrites(Commit(w, writes[0]), writes[1..], n - 1);
      }
    }
  }

  lemma RollbackOfFailed(w: World, version: string, n: nat)
    requires WellFormed(w)
    ensures var v := CommitPrefix(w, RollBack(w, version), n);
            v.state.RolledBack? || (v.state == w.state && v.gate == w.gate && v.stage == w.stage)
  {
    RollbackOnlyEnqueues(w, |w.stages|, version);
    RollsBackOnlyWrites(w, RollBack(w, version), n);
  }

  /** Rolled back is final. */
  lemma {:induction false} RolledBackForGood(w: World, steps: seq<Step>)
    requires WellFormed(w) && w.state.RolledBack?
    ensures Run(w, steps).state.RolledBack?
    decreases |steps|
  {
    if steps != [] {
      TakeKeepsShape(w, steps[0]);
      RolledBackForGood(Take(w, steps[0]), steps[1..]);
    }
  }
}
