/** Concrete rollouts: one on which starting again skips a gate, and one that a request left over from its
    before gate fails on its after gate. */
module RolloutExamples {
  import opened Wrappers
  import opened Text
  import opened Stages
  import opened ClusterSets
  import opened CommandIds
  import opened CommandQueue
  import opened RolloutModel
  import opened RolloutSafety
  import opened RolloutBatches
  import opened RolloutRuns
  import opened RolloutUndo

  /** One stage of one cluster behind an approval. */
  const CANARY := Stage(["all"], "1", Some(Approval), None)

  const EXAMPLE := World(
    [CANARY], "v2", About("r1", "agent_upgrade", "agent", PlainJson), Pending, 0, None, [[]], map[], [],
    Fleet([Cluster("c1", map[])], map["all" := map[]]), 0, map[], {})

  lemma OneParses()
    ensures ParseMaxConcurrency("1", 100) == Ok(1)
  {
    var one := "1";
    assert DigitsValue(one[..0]) == 0 && DigitsValue(one) == 1;
    assert AllDigits(one) && Atoi(one) == Some(1);
    assert TrimSpace(one) == one;
  }

  lemma ExampleMembers()
    ensures Members(EXAMPLE, 0) == Some(["c1"])
  {
    var fleet := EXAMPLE.fleet;
    var c1 := fleet.clusters[0];
    var ids := CANARY.clusterSetIds;
    assert fleet.clusters[..0] == [] && Matches(c1.labels, map[]);
    assert Resolve(fleet.clusters, map[]) == [c1];
    assert [c1][..0] == [] && AppendNew([], [c1]) == ["c1"];
    assert ids[..0] == [] && StageMembers(fleet, ids[..0]) == Some([]);
  }

  lemma ExampleIsCreated()
    ensures Created(EXAMPLE) && StageOk(CANARY)
  {
    OneParses();
  }

  /** Create, start, park on the approval gate, start again: the steps that follow queue version v2 for
      the cluster although nobody approved anything. */
  lemma RestartingTheExampleSkipsItsGate() returns (steps: seq<Step>)
    ensures Created(EXAMPLE)
    ensures GateSkipped(Run(EXAMPLE, [StartStep, AdvanceStep(4)] + ([StartStep] + steps)), 0, "c1")
  {
    ExampleIsCreated();
    var parked := ParkedExample();
    steps := RestartSkipsGate(parked);
    hide Take, GateSkipped, Created;
    RunSplit(EXAMPLE, [StartStep, AdvanceStep(4)], [StartStep] + steps);
    TwoSteps(EXAMPLE, StartStep, AdvanceStep(4));
  }

  const STARTED := EXAMPLE.(state := Running)

  const PARKED := ParkedWith(STARTED, Some(0))

  lemma ParkedExample() returns (w: World)
    ensures WellFormed(Take(EXAMPLE, StartStep)) && w == Take(Take(EXAMPLE, StartStep), AdvanceStep(4))
    ensures w == PARKED && Inv(w) && !StartFits(w)
    ensures StageOk(w.stages[0]) && Members(w, 0) == Some(["c1"])
  {
    ExampleIsCreated();
    ExampleMembers();
    CreatedInv(EXAMPLE);
    OneCas(EXAMPLE, Running, 0, None);
    StepKeepsExactly(EXAMPLE, StartStep);
    StepKeepsExactly(STARTED, AdvanceStep(4));
    assert Members(STARTED, 0) == Members(EXAMPLE, 0);
    ParksOnApproval(STARTED, 4);
    w := PARKED;
  }

  /** Just started, one cluster behind an approval. */
  predicate JustStarted(v: World) {
    v.state.Running? && v.stage == 0 && v.gate.None? && v.targets == [[]] && v.approvals == [] && v.entered == map[] && v.now == 0
    && |v.stages| == 1 && v.stages[0].beforeGate == Some(Approval) && Members(v, 0) == Some(["c1"])
  }

  function OpenGate(side: Side, id: Option<nat>): Option<GateContext> {
    Some(GateContext(side, Approval, 0, id))
  }

  /** Seeded and parked on the before gate, its request linked or not. */
  function ParkedWith(v: World, id: Option<nat>): World {
    v.(state := WaitingGate, gate := OpenGate(Before, id), targets := [[Target("c1", TargetPending, None)]],
       approvals := [GateApproval(0, Before, ApprovalPending)], entered := map[(0, Before) := 0])
  }

  lemma ParksOnApproval(v: World, n: nat)
    requires JustStarted(v) && 3 <= n <= 4
    ensures Take(v, AdvanceStep(n)) == ParkedWith(v, if n == 4 then Some(0) else None)
  {
    var t := Target("c1", TargetPending, None);
    var seed, enter := UpsertTarget(0, t), Cas(Running, WaitingGate, 0, OpenGate(Before, None));
    var ask, link := RequestApproval(0, Before), LinkApproval(0, Before, 0);
    assert Seed(0, ["c1"]) == [seed] by { assert ["c1"][1..] == []; }
    assert AdvanceOnce(v) == [seed, enter, ask, link];
    assert Upsert([], t) == [t];
    hide AdvanceOnce, CommitPrefix, Members, Upsert;
    if n == 4 {
      FourWrites(v, seed, enter, ask, link);
    } else {
      CutAtThree(v, seed, enter, ask, link);
    }
  }

  lemma CutAtThree(v: World, a: Write, b: Write, c: Write, d: Write)
    ensures CommitPrefix(v, [a, b, c, d], 3) == Commit(Commit(Commit(v, a), b), c)
  {
    hide Commit;
    assert [a, b, c, d] == [a] + ([b] + ([c] + [d]));
    PrefixHead(v, a, [b] + ([c] + [d]), 3);
    PrefixHead(Commit(v, a), b, [c] + [d], 2);
    PrefixHead(Commit(Commit(v, a), b), c, [d], 1);
    NothingCut(Commit(Commit(Commit(v, a), b), c), [d]);
  }

  // ----- A request left over

  /** One stage of one cluster behind an approval and before another. */
  const REVIEWED := Stage(["all"], "1", Some(Approval), Some(Approval))

  /** The rollout as created, its commands written in whichever way. */
  function Reviewed(about: About): World {
    EXAMPLE.(stages := [REVIEWED], about := about)
  }

  const KEY := ApplyKey(0, "c1")

  /** A second request was made, linked and approved; the first is still pending. */
  function Passing(about: About): World {
    Reviewed(about).(
      state := Running, targets := [[Target("c1", TargetPending, None)]], entered := map[(0, Before) := 0],
      approvals := [GateApproval(0, Before, ApprovalPending), GateApproval(0, Before, Approved)])
  }

  function Delivered(about: About): World {
    Passing(about).(
      targets := [[Target("c1", TargetDelivered, Some(KEY))]],
      queue := map[KEY := Command("c1", COMMAND_TYPE, DesiredState(about, "v2"), CommandPending, 0, "", 0, 0)])
  }

  /** On the after gate, with a request of its own. */
  predicate OnItsAfterGate(about: About, w: World) {
    w == Passing(about).(
      state := WaitingGate, gate := OpenGate(After, Some(2)), targets := [[Target("c1", TargetHealthy, Some(KEY))]],
      queue := w.queue, acked := {KEY}, entered := map[(0, Before) := 0, (0, After) := 0],
      approvals := Passing(about).approvals + [GateApproval(0, After, ApprovalPending)])
  }

  lemma ReviewedFacts(about: About)
    ensures Created(Reviewed(about)) && StageOk(REVIEWED) && Members(Reviewed(about), 0) == Some(["c1"])
  {
    ExampleMembers();
    OneParses();
    assert Members(Reviewed(about), 0) == StageMembers(EXAMPLE.fleet, ["all"]) == Members(EXAMPLE, 0);
  }

  lemma ToThePassing(about: About)
    ensures WellFormed(Reviewed(about))
    ensures Run(Reviewed(about), [StartStep, AdvanceStep(3)] + [AdvanceStep(2), DecideStep(1, true), DecidedStep(1)]) == Passing(about)
  {
    var w := Reviewed(about);
    ReviewedFacts(about);
    OneCas(w, Running, 0, None);
    var v := w.(state := Running);
    assert Members(v, 0) == Members(w, 0);
    ParksOnApproval(v, 3);
    TwoSteps(w, StartStep, AdvanceStep(3));
    var u := ParkedWith(v, None);
    RequestAndApprove(u, 2);
    RunSplit(w, [StartStep, AdvanceStep(3)], [AdvanceStep(2), DecideStep(1, true), DecidedStep(1)]);
    hide Run, Take, Created;
  }

  lemma OneRow(row: Target, t: Target)
    requires row.cluster == t.cluster
    ensures Upsert([row], t) == [t] && SetRowStatus([row], row.cluster, t.status) == [row.(status := t.status)]
  {
    assert Find([row], t.cluster) == Some(0);
  }

  lemma TwoWrites(w: World, a: Write, b: Write)
    ensures CommitPrefix(w, [a, b], 2) == Commit(Commit(w, a), b)
  {
    hide Commit;
    CommitAllSplit(w, [a], [b]);
    CommitOne(w, a);
    CommitOne(Commit(w, a), b);
    assert [a] + [b] == [a, b];
  }

  lemma FourWrites(w: World, a: Write, b: Write, c: Write, d: Write)
    ensures CommitPrefix(w, [a, b, c, d], 4) == Commit(Commit(Commit(Commit(w, a), b), c), d)
  {
    hide Commit;
    CommitAllSplit(w, [a, b], [c, d]);
    TwoWrites(w, a, b);
    TwoWrites(Commit(Commit(w, a), b), c, d);
    assert [a, b] + [c, d] == [a, b, c, d];
  }

  lemma PassingPlan(about: About)
    ensures WellFormed(Passing(about)) && AdvanceOnce(Passing(about)) == Hand(0, "c1", "v2")
  {
    var w := Passing(about);
    ReviewedFacts(about);
    assert Members(w, 0) == Members(Reviewed(about), 0);
    hide Created, StageOk, Members, DeliverBatch, AdvanceOnce;
    var slots := UnguardedPlan(w);
    OneClusterBatch(w, slots);
  }

  lemma HandedOne(about: About)
    ensures var hand := Hand(0, "c1", "v2");
            Commit(Commit(Passing(about), hand[0]), hand[1]) == Delivered(about)
  {
    hide DesiredState, Upsert;
    OneRow(Target("c1", TargetPending, None), Target("c1", TargetDelivered, Some(KEY)));
  }

  lemma ToTheDelivered(about: About)
    ensures WellFormed(Passing(about)) && Take(Passing(about), AdvanceStep(2)) == Delivered(about)
  {
    hide AdvanceOnce, CommitPrefix, Commit, Passing, Delivered;
    PassingPlan(about);
    HandedOne(about);
    var hand := Hand(0, "c1", "v2");
    TwoWrites(Passing(about), hand[0], hand[1]);
  }

  lemma OneClusterBatch(w: World, slots: int)
    requires w.targets == [[Target("c1", TargetPending, None)]] && slots > 0
    ensures DeliverBatch(0, w.targets[0], slots, "v2") == Hand(0, "c1", "v2")
  {
    var rows := w.targets[0];
    assert rows[1..] == [];
    assert DeliverBatch(0, rows, slots, "v2") == Hand(0, "c1", "v2") + DeliverBatch(0, rows[1..], slots - 1, "v2");
  }

  /** The command was acknowledged. */
  predicate AcknowledgedIn(about: About, w: World) {
    w == Delivered(about).(queue := w.queue, acked := {KEY}) && KEY in w.queue && w.queue[KEY].status.CommandAcked?
  }

  lemma AcknowledgedPlan(about: About, w: World)
    requires AcknowledgedIn(about, w)
    ensures WellFormed(w)
    ensures AdvanceOnce(w) == [SetTargetStatus(0, "c1", TargetHealthy), Cas(Running, WaitingGate, 0, OpenGate(After, None)),
                               RequestApproval(0, After), LinkApproval(0, After, 2)]
  {
    hide DesiredState;
    var rows := w.targets[0];
    var t := Target("c1", TargetHealthy, Some(KEY));
    assert Settle(rows[0], w.queue) == t && SettleAll(rows, w.queue) == [t];
    assert Reconcile(0, rows, w.queue) == [SetTargetStatus(0, "c1", TargetHealthy)] by { assert rows[1..] == []; }
    hide Settle, SettleAll, Reconcile, AfterReconcile;
    AfterGatePlan(w, t);
  }

  lemma ParksAgain(about: About, w: World)
    requires AcknowledgedIn(about, w)
    ensures OnItsAfterGate(about, Commit(Commit(Commit(Commit(w, SetTargetStatus(0, "c1", TargetHealthy)),
              Cas(Running, WaitingGate, 0, OpenGate(After, None))), RequestApproval(0, After)), LinkApproval(0, After, 2)))
  {
    hide DesiredState, SetRowStatus;
    OneRow(w.targets[0][0], Target("c1", TargetHealthy, Some(KEY)));
  }

  lemma ToItsAfterGate(about: About, w: World)
    requires AcknowledgedIn(about, w)
    ensures WellFormed(w) && OnItsAfterGate(about, Take(w, AdvanceStep(4)))
  {
    AcknowledgedPlan(about, w);
    ParksAgain(about, w);
    hide AdvanceOnce, CommitPrefix, Commit, OnItsAfterGate, AcknowledgedIn;
    FourWrites(w, SetTargetStatus(0, "c1", TargetHealthy), Cas(Running, WaitingGate, 0, OpenGate(After, None)),
               RequestApproval(0, After), LinkApproval(0, After, 2));
  }

  lemma AfterGatePlan(w: World, t: Target)
    requires w.stages == [REVIEWED] && w.stage == 0 && w.state.Running? && w.now == 0 && |w.approvals| == 2 && t.status.TargetHealthy?
    ensures AfterReconcile(w, [t]) == [Cas(Running, WaitingGate, 0, OpenGate(After, None)),
                                       RequestApproval(0, After), LinkApproval(0, After, 2)]
  {
    assert [t][1..] == [];
    assert forall status: TargetStatus :: status != TargetHealthy ==> Count([t], status) == 0;
  }

  /** From creation: the first request for the before gate is made but, for a crash, not linked; a second one
      is made, linked and approved; the stage is delivered to and acknowledged, and the rollout waits on its
      after gate for a third. */
  const GETTING_THERE := [StartStep, AdvanceStep(3)] + [AdvanceStep(2), DecideStep(1, true), DecidedStep(1)]
    + ([AdvanceStep(2)] + ([SendStep(KEY), AnswerStep(KEY, true, "")] + [AdvanceStep(4)]))

  lemma ToTheEnd(about: About)
    ensures WellFormed(Reviewed(about)) && OnItsAfterGate(about, Run(Reviewed(about), GETTING_THERE))
  {
    var w := Reviewed(about);
    var first := [StartStep, AdvanceStep(3)] + [AdvanceStep(2), DecideStep(1, true), DecidedStep(1)];
    var answer, last := [SendStep(KEY), AnswerStep(KEY, true, "")], [AdvanceStep(4)];
    ToThePassing(about);
    ToTheDelivered(about);
    AnsweredIn(about);
    var v := Run(Delivered(about), answer);
    ToItsAfterGate(about, v);
    hide Run, Take, OnItsAfterGate, Delivered, Passing, Reviewed;
    RunSplit(w, first, [AdvanceStep(2)] + (answer + last));
    RunSplit(Passing(about), [AdvanceStep(2)], answer + last);
    RunOne(Passing(about), AdvanceStep(2));
    RunSplit(Delivered(about), answer, last);
    RunOne(v, AdvanceStep(4));
  }

  lemma AnsweredIn(about: About)
    ensures WellFormed(Delivered(about))
    ensures var v := Run(Delivered(about), [SendStep(KEY), AnswerStep(KEY, true, "")]);
            v == Delivered(about).(queue := v.queue, acked := {KEY}) && KEY in v.queue && v.queue[KEY].status.CommandAcked?
  {
    hide DesiredState;
    TwoSteps(Delivered(about), SendStep(KEY), AnswerStep(KEY, true, ""));
  }

  /** Rejecting the request that was left over then fails the rollout, with its one cluster acknowledged and
      the after gate's own request undecided. */
  lemma LeftoverRequestFailsTheRollout(about: About)
    ensures Created(Reviewed(about))
    ensures var v := Run(Reviewed(about), GETTING_THERE + [DecideStep(0, false), DecidedStep(0)]);
            && |v.targets| == 1 && v.state.Failed? && v.gate == OpenGate(After, Some(2)) && StageAcknowledged(v, 0)
            && v.approvals[..] == [GateApproval(0, Before, Rejected), GateApproval(0, Before, Approved), GateApproval(0, After, ApprovalPending)]
  {
    ReviewedFacts(about);
    ToTheEnd(about);
    var w := Run(Reviewed(about), GETTING_THERE);
    RejectionIgnoresTheSide(w, 0);
    RunSplit(Reviewed(about), GETTING_THERE, [DecideStep(0, false), DecidedStep(0)]);
    hide Run, Created;
  }
}
