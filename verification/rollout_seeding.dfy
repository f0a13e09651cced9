/** Which members of its stages a rollout reaches: all of them, unless a crash cuts a seeding short, and then
    those not yet seeded are lost for good. */
module RolloutSeeding {
  import opened Wrappers
  import opened Stages
  import opened ClusterSets
  import opened CommandIds
  import opened CommandQueue
  import opened RolloutModel
  import opened RolloutSafety
  import opened RolloutBatches
  import opened RolloutRuns
  import opened RolloutLimits
  import opened RolloutUndo

  // ----- A stage with rows keeps its clusters

  predicate SameClusters(a: seq<Target>, b: seq<Target>) {
    |a| == |b| && forall i | 0 <= i < |a| :: a[i].cluster == b[i].cluster
  }

  lemma SameClustersHave(a: seq<Target>, b: seq<Target>, cluster: string)
    requires SameClusters(a, b)
    ensures Has(a, cluster) <==> Has(b, cluster)
  {
    if Find(a, cluster).Some? {
      assert b[Find(a, cluster).value].cluster == cluster;
    }
    if Find(b, cluster).Some? {
      assert a[Find(b, cluster).value].cluster == cluster;
    }
  }

  lemma {:induction false} HandedClusters(stage: nat, rows: seq<Target>, slots: int)
    ensures SameClusters(rows, Handed(stage, rows, slots))
  {
    if rows != [] && slots > 0 {
      var left := if rows[0].status.TargetPending? then slots - 1 else slots;
      HandedClusters(stage, rows[1..], left);
      var after, rest := Handed(stage, rows, slots), Handed(stage, rows[1..], left);
      assert after[1..] == rest;
      forall i | 0 <= i < |rows| ensures after[i].cluster == rows[i].cluster {
        if i > 0 {
          assert after[i] == rest[i - 1] && rows[1..][i - 1] == rows[i];
        }
      }
    }
  }

  lemma BatchClusters(v: World, slots: int, version: string, n: nat)
    requires Ready(v)
    ensures var u := CommitPrefix(v, DeliverBatch(v.stage, v.targets[v.stage], slots, version), n);
            v.stage < |u.targets| && SameClusters(v.targets[v.stage], u.targets[v.stage])
  {
    hide Base, DeliverBatch, CommitPrefix, Handed, SameClusters;
    var rows := v.targets[v.stage];
    assert [] + rows == rows;
    DeliverPrefix(v, [], rows, slots, version, n);
    HandedClusters(v.stage, rows, Min(slots, n / 2));
    assert [] + Handed(v.stage, rows, Min(slots, n / 2)) == Handed(v.stage, rows, Min(slots, n / 2));
  }

  lemma AfterReconcileClusters(w: World, v: World, n: nat)
    requires Ready(v) && OnlyRows(w, v) && w.stage < |w.stages|
    ensures var u := CommitPrefix(v, AfterReconcile(w, v.targets[v.stage]), n);
            v.stage < |u.targets| && SameClusters(v.targets[v.stage], u.targets[v.stage])
  {
    hide Base, Count, TopUp, CommitPrefix, DeliverBatch, TopUpSlots;
    var rows := v.targets[v.stage];
    if Count(rows, TargetFailed) == 0 && Count(rows, TargetPending) + Count(rows, TargetDelivered) > 0 {
      TopUpIsABatch(w, rows);
      BatchClusters(v, TopUpSlots(w, rows), w.desired, n);
    } else {
      QuietWrites(v, AfterReconcile(w, rows), n);
    }
  }

  lemma SettledClusters(before: seq<Target>, after: seq<Target>, queue: Rows<CommandKey>)
    requires PartlySettled(before, after, queue)
    ensures SameClusters(before, after)
  {
  }

  lemma DriveStageClusters(w: World, n: nat)
    requires Ready(w) && w.stage < |w.stages|
    ensures var v := CommitPrefix(w, DriveStage(w), n);
            w.stage < |v.targets| && SameClusters(w.targets[w.stage], v.targets[w.stage])
  {
    hide Base, CommitPrefix, CommitAll, Reconcile, AfterReconcile, Settle;
    var rows := SettleAll(w.targets[w.stage], w.queue);
    var first := Reconcile(w.stage, w.targets[w.stage], w.queue);
    PrefixSplit(w, first, AfterReconcile(w, rows), n);
    assert [] + w.targets[w.stage] == w.targets[w.stage] && [] + rows == rows;
    ReconcilePrefix(w, [], w.targets[w.stage], Min(n, |first|));
    var v := CommitPrefix(w, first, Min(n, |first|));
    SettledClusters(w.targets[w.stage], v.targets[w.stage], w.queue);
    if n >= |first| {
      PrefixAll(w, first, |first|);
      AfterReconcileClusters(w, v, n - |first|);
    }
  }

  /** Once a stage has rows, no step whatever gives a cluster a row of it or takes one away. */
  lemma RowsKeepTheirClusters(w: World, step: Step, s: nat)
    requires Base(w) && s < |w.targets| && w.targets[s] != []
    ensures WellFormed(w) && s < |Take(w, step).targets| && SameClusters(w.targets[s], Take(w, step).targets[s])
  {
    RunningIsReady(w);
    TakeKeepsShape(w, step);
    hide Base, DriveStage, EnterStage;
    if step.AdvanceStep? {
      AdvanceIsLocal(w);
      LocalWrites(w, AdvanceOnce(w), w.stage, step.committed);
      if w.stage == s {
        if w.state.Running? {
          DriveStageClusters(w, step.committed);
        } else {
          QuietWrites(w, AdvanceOnce(w), step.committed);
        }
      }
    } else {
      OtherStepsTouchNoRows(w, step);
    }
  }

  // ----- What a seeding leaves

  /** A crash in the middle of seeding a stage, behind a gate or not. */
  predicate CutSeeding(w: World, step: Step)
    requires WellFormed(w)
  {
    step.AdvanceStep? && w.state.Running? && w.stage < |w.stages| && w.targets[w.stage] == []
    && Members(w, w.stage).Some? && 1 <= step.committed < |Members(w, w.stage).value|
  }

  lemma CutLeavesAPart(w: World, n: nat)
    requires Ready(w) && w.stage < |w.stages| && w.targets[w.stage] == []
    requires Members(w, w.stage).Some? && n < |Members(w, w.stage).value|
    ensures var v := CommitPrefix(w, EnterStage(w), n);
            w.stage < |v.targets| && v.targets[w.stage] == SeedRows(Members(w, w.stage).value[..n])
  {
    var members := Members(w, w.stage).value;
    MembersAreDistinct(w.fleet, w.stages[w.stage].clusterSetIds);
    hide Base, CommitPrefix, CommitAll, Seed, AfterSeeding, StageMembers, Guarded;
    SeedLength(w.stage, members);
    PrefixSplit(w, Seed(w.stage, members), AfterSeeding(w, members), n);
    SeedCut(w, members, n);
  }

  lemma WholeLeavesAll(w: World, n: nat)
    requires Ready(w) && w.stage < |w.stages| && w.targets[w.stage] == []
    requires Members(w, w.stage).Some? && Members(w, w.stage).value != [] && n >= |Members(w, w.stage).value|
    ensures var v := CommitPrefix(w, EnterStage(w), n);
            w.stage < |v.targets| && SameClusters(SeedRows(Members(w, w.stage).value), v.targets[w.stage])
  {
    var members := Members(w, w.stage).value;
    MembersAreDistinct(w.fleet, w.stages[w.stage].clusterSetIds);
    hide Base, CommitPrefix, CommitAll, Seed, AfterSeeding, StageMembers, Guarded, SameClusters;
    SeedLength(w.stage, members);
    PrefixSplit(w, Seed(w.stage, members), AfterSeeding(w, members), n);
    SeedCut(w, members, |members|);
    PrefixAll(w, Seed(w.stage, members), |members|);
    assert members[..|members|] == members;
    AfterSeedingClusters(w, CommitAll(w, Seed(w.stage, members)), members, n - |members|);
  }

  lemma AfterSeedingClusters(w: World, v: World, members: seq<string>, m: nat)
    requires Ready(v) && OnlyRows(w, v) && w.stage < |w.stages| && v.targets[v.stage] == SeedRows(members)
    ensures var u := CommitPrefix(v, AfterSeeding(w, members), m);
            w.stage < |u.targets| && SameClusters(SeedRows(members), u.targets[w.stage])
  {
    hide Base, CommitPrefix, DeliverBatch, ParseMaxConcurrency;
    if w.stages[w.stage].beforeGate.None? && Slots(w, w.stage, |members|).Some? {
      BatchClusters(v, Slots(w, w.stage, |members|).value, w.desired, m);
    } else {
      QuietWrites(v, AfterSeeding(w, members), m);
    }
  }

  lemma SeedRowsHave(members: seq<string>, cluster: string)
    ensures Has(SeedRows(members), cluster) <==> cluster in members
  {
    SeedRowsAt(members);
    var rows := SeedRows(members);
    if cluster in members {
      var i :| 0 <= i < |members| && members[i] == cluster;
      assert rows[i].cluster == cluster;
    }
    if Find(rows, cluster).Some? {
      assert rows[Find(rows, cluster).value].cluster == cluster;
    }
  }

  // ----- Every member, or not

  /** Every member of the stage has a row. */
  predicate StageSeeded(w: World, s: nat)
    requires s < |w.targets|
  {
    s < |w.stages| && Members(w, s).Some? && forall c | c in Members(w, s).value :: Has(w.targets[s], c)
  }

  /** A stage that has rows has one for every member. */
  predicate AllSeeded(w: World) {
    forall s | 0 <= s < |w.targets| && w.targets[s] != [] :: StageSeeded(w, s)
  }

  lemma SameSeeded(w: World, v: World, s: nat)
    requires v.stages == w.stages && v.fleet == w.fleet && s < |w.targets| == |v.targets|
    requires SameClusters(w.targets[s], v.targets[s])
    ensures StageSeeded(w, s) <==> StageSeeded(v, s)
  {
    forall c ensures Has(w.targets[s], c) <==> Has(v.targets[s], c) {
      SameClustersHave(w.targets[s], v.targets[s], c);
    }
    assert s < |w.stages| ==> Members(v, s) == Members(w, s);
  }

  lemma StepKeepsSeeded(w: World, step: Step, s: nat)
    requires Base(w) && !step.FleetStep? && s < |w.targets| && w.targets[s] != []
    ensures WellFormed(w) && WellFormed(Take(w, step))
    ensures var v := Take(w, step);
            s < |v.targets| && v.targets[s] != [] && (StageSeeded(v, s) <==> StageSeeded(w, s))
  {
    BaseHasShape(w);
    RowsKeepTheirClusters(w, step, s);
    TakeKeepsShape(w, step);
    TakeKeepsFleet(w, step);
    SameSeeded(w, Take(w, step), s);
    hide Take, Base;
  }

  /** What a step does to the stage it seeds. */
  lemma SeedingStep(w: World, step: Step)
    requires Base(w) && !step.FleetStep? && w.stage < |w.targets| && w.targets[w.stage] == []
    ensures WellFormed(w) && w.stage < |Take(w, step).targets|
    ensures var v := Take(w, step);
            v.targets[w.stage] != [] ==> (StageSeeded(v, w.stage) <==> !CutSeeding(w, step))
    ensures CutSeeding(w, step) ==> Take(w, step).targets[w.stage] == SeedRows(Members(w, w.stage).value[..step.committed])
  {
    RunningIsReady(w);
    TakeKeepsShape(w, step);
    TakeKeepsFleet(w, step);
    hide Base, EnterStage, SeedRows;
    var v := Take(w, step);
    if step.AdvanceStep? && w.state.Running? {
      if Members(w, w.stage).Some? && Members(w, w.stage).value != [] {
        MembersSeeded(w, v, step.committed);
      } else {
        NobodySeeded(w, step.committed);
      }
    } else if step.AdvanceStep? {
      QuietWrites(w, AdvanceOnce(w), step.committed);
    } else {
      OtherStepsTouchNoRows(w, step);
    }
  }

  lemma NobodySeeded(w: World, n: nat)
    requires w.stage < |w.stages| && (Members(w, w.stage).None? || Members(w, w.stage).value == [])
    ensures CommitPrefix(w, EnterStage(w), n).targets == w.targets
  {
    QuietWrites(w, EnterStage(w), n);
  }

  lemma MembersSeeded(w: World, v: World, n: nat)
    requires Ready(w) && w.stage < |w.stages| && w.targets[w.stage] == [] && Members(w, w.stage).Some?
    requires Members(w, w.stage).value != [] && v == CommitPrefix(w, EnterStage(w), n)
    requires v.stages == w.stages && v.fleet == w.fleet && w.stage < |v.targets|
    ensures var members := Members(w, w.stage).value;
            && (n < |members| ==> v.targets[w.stage] == SeedRows(members[..n]))
            && (v.targets[w.stage] != [] ==> (StageSeeded(v, w.stage) <==> n >= |members|))
            && (n == 0 ==> v.targets[w.stage] == [])
  {
    var members := Members(w, w.stage).value;
    assert Members(v, w.stage) == Members(w, w.stage);
    MembersAreDistinct(w.fleet, w.stages[w.stage].clusterSetIds);
    if n < |members| {
      CutLeavesAPart(w, n);
      NotInPart(members, n, n);
      SeedRowsHave(members[..n], members[n]);
      assert members[n] in members;
    } else {
      WholeLeavesAll(w, n);
      forall c | c in members ensures Has(v.targets[w.stage], c) {
        SeedRowsHave(members, c);
        SameClustersHave(SeedRows(members), v.targets[w.stage], c);
      }
    }
    hide Base, CommitPrefix, EnterStage, StageMembers, Has, SameClusters;
  }

  lemma NotInPart(members: seq<string>, n: nat, i: nat)
    requires NoDuplicates(members) && n <= i < |members|
    ensures members[i] !in members[..n]
  {
  }

  /** With unchanged membership a step keeps every stage wholly seeded if and only if it does not cut a
      seeding short. */
  lemma StepSeedsExactly(w: World, step: Step)
    requires Base(w) && AllSeeded(w) && !step.FleetStep?
    ensures WellFormed(w) && WellFormed(Take(w, step))
    ensures AllSeeded(Take(w, step)) <==> !CutSeeding(w, step)
  {
    BaseHasShape(w);
    TakeKeepsShape(w, step);
    var v := Take(w, step);
    hide Base, StageSeeded, Take, CutSeeding;
    forall s | 0 <= s < |w.targets| && w.targets[s] != [] ensures StageSeeded(v, s) {
      StepKeepsSeeded(w, step, s);
    }
    UnseededElsewhere(w, step);
    if w.stage < |w.targets| && w.targets[w.stage] == [] {
      SeedingStep(w, step);
      CutHasRows(w, step);
    } else {
      CutIsOfAnEmptyStage(w, step);
    }
  }

  lemma CutIsOfAnEmptyStage(w: World, step: Step)
    requires WellFormed(w)
    ensures CutSeeding(w, step) ==> w.stage < |w.targets| && w.targets[w.stage] == []
  {
  }

  lemma CutHasRows(w: World, step: Step)
    requires WellFormed(w) && w.stage < |w.targets|
    ensures CutSeeding(w, step) ==> SeedRows(Members(w, w.stage).value[..step.committed]) != []
  {
    if CutSeeding(w, step) {
      SeedRowsAt(Members(w, w.stage).value[..step.committed]);
    }
  }

  /** No step seeds a stage other than the current one. */
  lemma UnseededElsewhere(w: World, step: Step)
    requires WellFormed(w)
    ensures var v := Take(w, step);
            |v.targets| == |w.targets| && forall s | 0 <= s < |w.targets| && s != w.stage && w.targets[s] == [] :: v.targets[s] == []
  {
    TakeKeepsShape(w, step);
    if step.AdvanceStep? {
      AdvanceIsLocal(w);
      LocalWrites(w, AdvanceOnce(w), w.stage, step.committed);
    } else {
      OtherStepsTouchNoRows(w, step);
    }
    hide Take;
  }

  /** No step of the run cuts a seeding short. */
  predicate WholeSeedings(w: World, steps: seq<Step>)
    requires WellFormed(w)
    decreases |steps|
  {
    steps == [] || (!CutSeeding(w, steps[0]) && (TakeKeepsShape(w, steps[0]); WholeSeedings(Take(w, steps[0]), steps[1..])))
  }

  /** A stage that lacks a member lacks it from then on. */
  lemma {:induction false} LackStays(w: World, steps: seq<Step>, s: nat)
    requires Base(w) && FixedFleet(steps) && s < |w.targets| && w.targets[s] != [] && !StageSeeded(w, s)
    ensures WellFormed(w) && !AllSeeded(Run(w, steps))
    decreases |steps|
  {
    BaseHasShape(w);
    hide Base, StageSeeded, Take;
    if steps != [] {
      StepKeepsExactly(w, steps[0]);
      StepKeepsSeeded(w, steps[0], s);
      LackStays(Take(w, steps[0]), steps[1..], s);
    }
  }

  lemma {:induction false} RunSeedsExactly(w: World, steps: seq<Step>)
    requires Base(w) && AllSeeded(w) && FixedFleet(steps)
    ensures WellFormed(w) && (AllSeeded(Run(w, steps)) <==> WholeSeedings(w, steps))
    decreases |steps|
  {
    BaseHasShape(w);
    hide Base, StageSeeded, Take, CutSeeding;
    if steps != [] {
      var v := Take(w, steps[0]);
      StepKeepsExactly(w, steps[0]);
      StepSeedsExactly(w, steps[0]);
      if CutSeeding(w, steps[0]) {
        var s :| 0 <= s < |v.targets| && v.targets[s] != [] && !StageSeeded(v, s);
        LackStays(v, steps[1..], s);
      } else {
        RunSeedsExactly(v, steps[1..]);
      }
    }
  }

  // ----- Main results

  /** Every member of every stage was handed the version and acknowledged it. */
  predicate EveryMemberAcknowledged(w: World) {
    forall s | 0 <= s < |w.stages| ::
      Members(w, s).Some? && forall c | c in Members(w, s).value :: ApplyKey(s, c) in w.queue && ApplyKey(s, c) in w.acked
  }

  /** With unchanged membership a completed rollout has reached every member of every stage, and had it
      acknowledge, if and only if no crash on the way cut a seeding short. */
  lemma CompletedReachesAllExactly(w: World, steps: seq<Step>)
    requires Created(w) && FixedFleet(steps) && Run(w, steps).state.Completed?
    ensures EveryMemberAcknowledged(Run(w, steps)) <==> WholeSeedings(w, steps)
  {
    CreatedInv(w);
    assert AllSeeded(w);
    RunKeeps(w, steps);
    RunSeedsExactly(w, steps);
    SeededMeansReached(Run(w, steps));
  }

  lemma SeededMeansReached(v: World)
    requires Base(v) && v.state.Completed?
    ensures EveryMemberAcknowledged(v) <==> AllSeeded(v)
  {
    BaseHasShape(v);
    forall s | 0 <= s < |v.targets|
      ensures v.targets[s] != [] && (StageSeeded(v, s) <==>
                Members(v, s).Some? && forall c | c in Members(v, s).value :: ApplyKey(s, c) in v.queue && ApplyKey(s, c) in v.acked)
    {
      CompletedStage(v, s);
      forall c ensures Has(v.targets[s], c) <==> ApplyKey(s, c) in v.queue && ApplyKey(s, c) in v.acked {
        HasMeansReached(v, s, c);
      }
    }
    hide Base, StageSeeded, StageMembers;
  }

  lemma CompletedStage(v: World, s: nat)
    requires Base(v) && v.state.Completed? && s < |v.targets|
    ensures Done(v.targets[s]) && s < |v.stages|
  {
  }

  lemma HasMeansReached(v: World, s: nat, c: string)
    requires Base(v) && s < |v.targets| && Done(v.targets[s])
    ensures Has(v.targets[s], c) <==> ApplyKey(s, c) in v.queue && ApplyKey(s, c) in v.acked
  {
    if Has(v.targets[s], c) {
      assert StageRowsOk(v, s) && RowOk(v, s, v.targets[s][Find(v.targets[s], c).value]);
    }
  }

  /** The members that a crash in the middle of a seeding has not seeded are lost for good, whether the stage
      has a before gate or not: no later step, restarts and changes of the fleet included, gives them a row
      of the stage or a command. An ungated stage loses nothing else. */
  lemma CutSeedingLosesMembers(w: World, committed: nat, later: seq<Step>, i: nat)
    requires Base(w) && WellFormed(w) && CutSeeding(w, AdvanceStep(committed))
    requires committed <= i < |Members(w, w.stage).value|
    ensures var members := Members(w, w.stage).value;
            var u := Take(w, AdvanceStep(committed));
            && WellFormed(u) && u.targets == w.targets[w.stage := SeedRows(members[..committed])]
            && (Guarded(w) ==> (Guarded(u) <==> w.stages[w.stage].beforeGate.None?))
            && var v := Run(u, later);
               w.stage < |v.targets| && !Has(v.targets[w.stage], members[i]) && ApplyKey(w.stage, members[i]) !in v.queue
  {
    var members := Members(w, w.stage).value;
    var step := AdvanceStep(committed);
    var u := Take(w, step);
    TakeKeepsShape(w, step);
    StepKeepsExactly(w, step);
    SeedingStep(w, step);
    CutHasRows(w, step);
    AdvanceIsLocal(w);
    LocalWrites(w, AdvanceOnce(w), w.stage, committed);
    assert u.targets == w.targets[w.stage := SeedRows(members[..committed])];
    MembersAreDistinct(w.fleet, w.stages[w.stage].clusterSetIds);
    NotInPart(members, committed, i);
    SeedRowsHave(members[..committed], members[i]);
    hide Base, Guarded, Take, Run, SeedRows, Has, StageMembers;
    StaysLost(u, later, w.stage, members[i]);
  }

  lemma {:induction false} StaysLost(u: World, later: seq<Step>, s: nat, c: string)
    requires Base(u) && s < |u.targets| && u.targets[s] != [] && !Has(u.targets[s], c)
    ensures WellFormed(u) && s < |Run(u, later).targets|
    ensures !Has(Run(u, later).targets[s], c) && ApplyKey(s, c) !in Run(u, later).queue
    decreases |later|
  {
    BaseHasShape(u);
    NoRowNoCommand(u, s, c);
    hide Base, Take, Has;
    if later != [] {
      var v := Take(u, later[0]);
      StepKeepsExactly(u, later[0]);
      RowsKeepTheirClusters(u, later[0], s);
      SameClustersHave(u.targets[s], v.targets[s], c);
      StaysLost(v, later[1..], s, c);
    }
  }

  lemma NoRowNoCommand(u: World, s: nat, c: string)
    requires Base(u) && s < |u.targets| && !Has(u.targets[s], c)
    ensures ApplyKey(s, c) !in u.queue
  {
  }
}
