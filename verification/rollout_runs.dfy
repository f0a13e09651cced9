/** Every step of every actor keeps the order of stages, and keeps the before gates except for a start and
    a crash inside seeding in exactly the situations named here; and what follows for whole runs. */
module RolloutRuns {
  import opened Wrappers
  import opened Stages
  import opened ClusterSets
  import opened CommandIds
  import opened CommandQueue
  import opened RolloutModel
  import opened RolloutSafety
  import opened RolloutBatches

  // ----- State changes

  lemma OneCas(w: World, to: RolloutState, stage: nat, gate: Option<GateContext>)
    requires CanRolloutTransition(w.state, to)
    ensures CommitAll(w, Transition(w, to, stage, gate)) == Commit(w, Cas(w.state, to, stage, gate))
  {
    var first := Cas(w.state, to, stage, gate);
    assert [first][1..] == [];
  }

  /** Pausing, resuming and failing keep the stage and the gate. */
  lemma MoveKeeps(w: World, to: RolloutState)
    requires Base(w) && CanRolloutTransition(w.state, to)
    requires to in {Paused, WaitingGate, Running, Failed}
    requires (to.WaitingGate? ==> w.gate.Some?) && (to.Running? ==> w.gate.None?)
    ensures var v := Commit(w, Cas(w.state, to, w.stage, w.gate));
            Base(v) && (Guarded(w) ==> Guarded(v))
  {
    hide RowsOk, QueueOk, GatesOk, Guarded, Passed;
    var v := Commit(w, Cas(w.state, to, w.stage, w.gate));
    assert v.entered == w.entered;
    RowsCarry(w, v);
    GatesCarry(w, v);
    SameQueueOk(w, v);
    if Guarded(w) {
      GuardedInPlace(w, v);
    }
  }

  lemma SameQueueOk(w: World, v: World)
    requires QueueOk(w) && v.queue == w.queue && v.acked == w.acked && v.targets == w.targets
    ensures QueueOk(v)
  {
  }

  lemma ClearBeforeKeeps(w: World)
    requires Base(w) && Parked(w) && w.gate.Some? && w.gate.value.side.Before? && GateMet(w, w.stage, Before)
    ensures var v := Commit(w, Cas(w.state, Running, w.stage, None));
            Base(v) && (Guarded(w) ==> Guarded(v))
  {
    var v := Commit(w, Cas(w.state, Running, w.stage, None));
    RowsCarry(w, v);
    GatesCarry(w, v);
    if Guarded(w) {
      GuardedOnceCleared(w, v);
    }
  }

  lemma GuardedOnceCleared(w: World, v: World)
    requires Guarded(w) && !w.state.RolledBack? && w.gate.Some? && w.gate.value.side.Before? && GateMet(w, w.stage, Before)
    requires v == w.(state := Running, gate := None)
    ensures Guarded(v)
  {
    forall s | 0 <= s < |v.targets| && v.targets[s] != [] ensures Cleared(v, s) {
      assert Cleared(w, s);
      if Passed(w, s, Before) {
        PassedStays(w, v, s, Before);
      }
    }
    forall k | k in v.queue && k.suffix.Apply? ensures Passed(v, k.stage, Before) {
      PassedStays(w, v, k.stage, Before);
    }
  }

  /** A done stage may be left when its after gate is met or it has none. */
  predicate MayLeave(w: World) {
    && w.stage < |w.targets| && Done(w.targets[w.stage]) && Passed(w, w.stage, After)
    && (w.gate.Some? ==> w.gate.value.side.After?)
    && (w.gate.None? ==> GateOf(w, w.stage, After).None?)
  }

  lemma LeaveKeeps(w: World)
    requires Base(w) && (w.state.Running? || Parked(w)) && MayLeave(w)
    ensures var v := Commit(w, Cas(w.state, Running, w.stage + 1, None));
            Base(v) && (Guarded(w) ==> Guarded(v))
  {
    var v := Commit(w, Cas(w.state, Running, w.stage + 1, None));
    RowsBeyond(w, v);
    GatesBeyond(w, v);
    if Guarded(w) {
      GuardedBeyond(w, v);
    }
    hide RowsOk, GatesOk, Guarded, Passed, Done;
  }

  lemma RowsBeyond(w: World, v: World)
    requires RowsOk(w) && v == w.(state := Running, stage := w.stage + 1, gate := None)
    requires w.stage < |w.targets| && Done(w.targets[w.stage])
    ensures RowsOk(v)
  {
    Carry(w, v);
  }

  lemma GatesBeyond(w: World, v: World)
    requires GatesOk(w) && v == w.(state := Running, stage := w.stage + 1, gate := None)
    requires Passed(w, w.stage, After)
    ensures GatesOk(v)
  {
    forall s | 0 <= s < v.stage ensures Passed(v, s, After) {
      PassedStays(w, v, s, After);
    }
  }

  lemma GuardedBeyond(w: World, v: World)
    requires Base(w) && Guarded(w) && !w.state.RolledBack? && MayLeave(w)
    requires v == w.(state := Running, stage := w.stage + 1, gate := None)
    ensures Guarded(v)
  {
    forall k | k in v.queue && k.suffix.Apply? ensures Passed(v, k.stage, Before) {
      PassedStays(w, v, k.stage, Before);
    }
    forall s | 0 <= s < |v.targets| && v.targets[s] != [] ensures Cleared(v, s) {
      ClearedBeyond(w, v, s);
    }
  }

  lemma ClearedBeyond(w: World, v: World, s: nat)
    requires Base(w) && Guarded(w) && !w.state.RolledBack? && MayLeave(w) && s < |w.targets| && w.targets[s] != []
    requires v == w.(state := Running, stage := w.stage + 1, gate := None)
    ensures Cleared(v, s)
  {
    assert Cleared(w, s);
    if s <= w.stage {
      DoneMeansPassed(w, s);
      PassedStays(w, v, s, Before);
    } else if Passed(w, s, Before) {
      PassedStays(w, v, s, Before);
    } else {
      assert Expires(w, s) && GateOf(v, s, Before) == GateOf(w, s, Before);
      NotEarlier(w, v, s);
    }
  }

  /** Leaving a stage does not bring any later stage nearer. */
  lemma NotEarlier(w: World, v: World, s: nat)
    requires Base(w) && MayLeave(w) && v == w.(state := Running, stage := w.stage + 1, gate := None) && w.stage < s
    ensures Earliest(w, s) <= Earliest(v, s)
  {
    assert Waits(w.stages, w.stage, s) == WaitOf(w.stages[w.stage]) + Waits(w.stages, w.stage + 1, s);
  }

  /** An open gate that is met may be cleared: back into the stage, or on to the next one. */
  lemma ClearKeeps(w: World)
    requires Base(w) && Parked(w) && w.gate.Some? && GateMet(w, w.stage, w.gate.value.side)
    ensures var v := CommitAll(w, ClearGate(w));
            Base(v) && (Guarded(w) ==> Guarded(v))
  {
    if w.gate.value.side.After? {
      assert w.targets[w.stage] != [] && MayLeave(w);
      hide Base, Guarded, GateMet, MayLeave;
      OneCas(w, Running, w.stage + 1, None);
      LeaveKeeps(w);
    } else {
      hide Base, Guarded, GateMet;
      OneCas(w, Running, w.stage, None);
      ClearBeforeKeeps(w);
    }
  }

  lemma EnterKeeps(w: World, side: Side, kind: GateKind)
    requires Ready(w) && w.targets[w.stage] != [] && GateOf(w, w.stage, side) == Some(kind)
    requires side.After? ==> AllHealthy(w.targets[w.stage])
    requires side.Before? ==> (w.stage, Before) !in w.entered
    ensures var v := Commit(w, Cas(Running, WaitingGate, w.stage, Some(GateContext(side, kind, w.now, None))));
            Base(v) && (CommandsPassed(w) && ClearedBut(w, w.stage) ==> Guarded(v))
  {
    var v := Commit(w, Cas(Running, WaitingGate, w.stage, Some(GateContext(side, kind, w.now, None))));
    GatesOnEntry(w, v, side);
    forall s | 0 <= s < |v.targets| ensures StageRowsOk(v, s) {
      assert StageRowsOk(w, s);
      assert forall t :: RowOk(w, s, t) ==> RowOk(v, s, t);
    }
    if CommandsPassed(w) && ClearedBut(w, w.stage) {
      GuardedOnEntry(w, v, side);
    }
    hide GatesOk, Guarded, CommandsPassed, ClearedBut, StageRowsOk, Passed;
  }

  /** Entering a gate anew restarts its wait and leaves every other gate as it was. */
  lemma OtherGatesStay(w: World, v: World, side: Side, s: nat, d: Side)
    requires v.stages == w.stages && v.approvals == w.approvals && v.now == w.now
    requires v.entered == w.entered[(w.stage, side) := w.now] && (s != w.stage || d != side || (s, d) !in w.entered)
    requires Passed(w, s, d)
    ensures Passed(v, s, d)
  {
    if GateOf(w, s, d) == Some(Approval) {
      var id :| 0 <= id < |w.approvals| && w.approvals[id] == GateApproval(s, d, Approved);
      assert v.approvals[id] == GateApproval(s, d, Approved);
    }
  }

  lemma GatesOnEntry(w: World, v: World, side: Side)
    requires GatesOk(w) && v == w.(state := WaitingGate, gate := v.gate, entered := w.entered[(w.stage, side) := w.now])
    requires w.stage < |w.targets| && w.targets[w.stage] != [] && GateOf(w, w.stage, side).Some?
    ensures GatesOk(v)
  {
    forall s | 0 <= s < v.stage ensures Passed(v, s, After) {
      OtherGatesStay(w, v, side, s, After);
    }
  }

  lemma GuardedOnEntry(w: World, v: World, side: Side)
    requires Base(w) && w.state.Running? && CommandsPassed(w) && ClearedBut(w, w.stage)
    requires v == w.(state := WaitingGate, gate := v.gate, entered := w.entered[(w.stage, side) := w.now])
    requires v.gate.Some? && v.gate.value.side == side && v.gate.value.enteredAt == w.now
    requires side.Before? ==> (w.stage, Before) !in w.entered
    requires side.After? ==> w.stage < |w.targets| && Done(w.targets[w.stage])
    ensures Guarded(v)
  {
    forall k | k in v.queue && k.suffix.Apply? ensures Passed(v, k.stage, Before) {
      OtherGatesStay(w, v, side, k.stage, Before);
    }
    forall s | 0 <= s < |v.targets| && v.targets[s] != [] ensures Cleared(v, s) {
      if s == w.stage {
        if side.After? {
          DoneMeansPassed(w, s);
          OtherGatesStay(w, v, side, s, Before);
        }
      } else {
        assert Cleared(w, s);
        if Passed(w, s, Before) {
          OtherGatesStay(w, v, side, s, Before);
        } else {
          assert w.gate.None? && Earliest(v, s) == Earliest(w, s);
        }
      }
    }
  }

  lemma RequestKeeps(w: World)
    requires Base(w) && w.state.WaitingGate? && w.gate.value.kind.Approval?
    ensures var v := Commit(w, RequestApproval(w.stage, w.gate.value.side));
            Base(v) && (Guarded(w) ==> Guarded(v))
  {
    var v := Commit(w, RequestApproval(w.stage, w.gate.value.side));
    assert v.approvals[..|w.approvals|] == w.approvals;
    RowsCarry(w, v);
    GatesAsked(w, v, w.gate.value.side);
    if Guarded(w) {
      GuardedInPlace(w, v);
    }
    hide RowsOk, GatesOk, Guarded, Passed;
  }

  lemma GatesAsked(w: World, v: World, side: Side)
    requires GatesOk(w) && v == w.(approvals := w.approvals + [GateApproval(w.stage, side, ApprovalPending)])
    requires (w.stage, side) in w.entered && GateOf(w, w.stage, side) == Some(Approval)
    ensures GatesOk(v)
  {
    forall s | 0 <= s < v.stage ensures Passed(v, s, After) {
      PassedStays(w, v, s, After);
    }
    forall id | 0 <= id < |v.approvals|
      ensures var a := v.approvals[id]; (a.stage, a.side) in v.entered && GateOf(v, a.stage, a.side) == Some(Approval)
    {
      if id < |w.approvals| {
        assert v.approvals[id] == w.approvals[id];
      }
    }
  }

  lemma LinkKeeps(w: World, side: Side, id: nat)
    requires Base(w)
    ensures var v := Commit(w, LinkApproval(w.stage, side, id));
            Base(v) && (Guarded(w) ==> Guarded(v))
  {
    hide RowsOk, GatesOk, QueueOk, Guarded, Passed;
    var v := Commit(w, LinkApproval(w.stage, side, id));
    RowsCarry(w, v);
    GatesCarry(w, v);
    SameQueueOk(w, v);
    if Guarded(w) {
      GuardedInPlace(w, v);
    }
  }

  lemma AskKeeps(w: World, n: nat)
    requires Base(w) && w.state.WaitingGate? && w.gate.Some? && w.gate.value.kind.Approval?
    ensures var v := CommitPrefix(w, AskFor(w, w.stage, w.gate.value.side), n);
            Base(v) && (Guarded(w) ==> Guarded(v))
  {
    hide Base, Guarded;
    var side := w.gate.value.side;
    var ask, link := RequestApproval(w.stage, side), LinkApproval(w.stage, side, |w.approvals|);
    var u := Commit(w, ask);
    assert AskFor(w, w.stage, side) == [ask] + ([link] + []);
    PrefixHead(w, ask, [link] + [], n);
    RequestKeeps(w);
    if n > 0 {
      PrefixHead(u, link, [], n - 1);
      LinkKeeps(u, side, |w.approvals|);
    }
  }

  // ----- advanceOnce, with a crash after any of its writes

  lemma {:induction false} CountZero(rows: seq<Target>, status: TargetStatus)
    requires Count(rows, status) == 0
    ensures forall i | 0 <= i < |rows| :: rows[i].status != status
  {
    if rows != [] {
      CountZero(rows[1..], status);
    }
  }

  lemma {:induction false} SeedLength(stage: nat, members: seq<string>)
    ensures |Seed(stage, members)| == |members|
  {
    if members != [] {
      SeedLength(stage, members[1..]);
    }
  }

  lemma NoWrites(w: World, n: nat)
    ensures CommitPrefix(w, [], n) == w
  {
  }

  lemma NothingCut(w: World, writes: seq<Write>)
    ensures CommitPrefix(w, writes, 0) == w
  {
  }

  /** Entering a gate from a world that differs from the one the plan was made in by rows only. */
  lemma EnterGatePrefix(w: World, v: World, side: Side, kind: GateKind, n: nat)
    requires Ready(v) && v.targets[v.stage] != [] && GateOf(v, v.stage, side) == Some(kind)
    requires side.After? ==> AllHealthy(v.targets[v.stage])
    requires side.Before? ==> (v.stage, Before) !in v.entered
    requires OnlyRows(w, v) && n > 0
    ensures var u := CommitPrefix(v, EnterGate(w, w.stage, side, kind), n);
            Base(u) && (CommandsPassed(v) && ClearedBut(v, v.stage) ==> Guarded(u))
  {
    hide Base, Guarded, CommandsPassed, ClearedBut;
    var enter := Cas(Running, WaitingGate, w.stage, Some(GateContext(side, kind, w.now, None)));
    var ask := if kind.Approval? then AskFor(w, w.stage, side) else [];
    assert EnterGate(w, w.stage, side, kind) == [enter] + ask;
    PrefixHead(v, enter, ask, n);
    EnterKeeps(v, side, kind);
    var u := Commit(v, enter);
    if kind.Approval? {
      AskKeeps(u, n - 1);
    } else {
      NoWrites(u, n - 1);
    }
  }

  lemma FailPrefix(w: World, v: World, n: nat)
    requires Ready(v) && OnlyRows(w, v)
    ensures var u := CommitPrefix(v, Transition(w, Failed, w.stage, w.gate), n);
            Base(u) && (Guarded(v) ==> Guarded(u))
  {
    hide Base, Guarded;
    var fail := Cas(Running, Failed, w.stage, w.gate);
    assert [fail] + [] == Transition(w, Failed, w.stage, w.gate);
    PrefixHead(v, fail, [], n);
    NoWrites(Commit(v, fail), n);
    if n > 0 {
      NoWrites(Commit(v, fail), n - 1);
    }
    MoveKeeps(v, Failed);
  }

  /** A crash that leaves a stage with a before gate seeded, in part or in whole, but not parked on
      the gate. */
  predicate TornSeeding(w: World, committed: nat)
    requires WellFormed(w)
  {
    w.state.Running? && w.stage < |w.stages| && w.targets[w.stage] == [] && w.stages[w.stage].beforeGate.Some?
    && Members(w, w.stage).Some? && 1 <= committed <= |Members(w, w.stage).value|
  }

  lemma EnterStagePrefix(w: World, n: nat)
    requires Ready(w) && w.targets[w.stage] == []
    ensures var v := CommitPrefix(w, EnterStage(w), n);
            Base(v) && (Guarded(w) ==> (Guarded(v) <==> !TornSeeding(w, n)))
  {
    var found := Members(w, w.stage);
    if found.Some? {
      var members := found.value;
      MembersAreDistinct(w.fleet, w.stages[w.stage].clusterSetIds);
      if members == [] {
        assert w.targets[w.stage := w.targets[w.stage]] == w.targets;
        FailPrefix(w, w, n);
      } else {
        SeedThenEnter(w, members, n);
      }
    }
  }

  lemma SeedThenEnter(w: World, members: seq<string>, n: nat)
    requires Ready(w) && w.targets[w.stage] == [] && Members(w, w.stage) == Some(members)
    requires members != [] && NoDuplicates(members)
    ensures var v := CommitPrefix(w, EnterStage(w), n);
            Base(v) && (Guarded(w) ==> (Guarded(v) <==> !TornSeeding(w, n)))
  {
    ReadyInRange(w);
    hide Base, Guarded, CommandsPassed, ClearedBut, CommitPrefix, CommitAll, AfterSeeding, Seed, OnlyRows, SeedRows, StageMembers;
    var seed := Seed(w.stage, members);
    SeedLength(w.stage, members);
    PrefixSplit(w, seed, AfterSeeding(w, members), n);
    if n < |members| {
      SeedCut(w, members, n);
    } else {
      SeededPrefix(w, members, n - |members|);
    }
  }

  lemma SeededPrefix(w: World, members: seq<string>, m: nat)
    requires Ready(w) && w.targets[w.stage] == [] && w.stage < |w.stages| && members != [] && NoDuplicates(members)
    ensures var v := CommitPrefix(CommitAll(w, Seed(w.stage, members)), AfterSeeding(w, members), m);
            Base(v) && (Guarded(w) ==> (Guarded(v) <==> w.stages[w.stage].beforeGate.None? || m > 0))
  {
    hide Base, Guarded, CommandsPassed, ClearedBut, CommitPrefix, CommitAll, AfterSeeding, Seed, SeedRows;
    SeedLength(w.stage, members);
    SeedCut(w, members, |members|);
    PrefixAll(w, Seed(w.stage, members), |members|);
    assert members[..|members|] == members;
    AfterSeedingPrefix(w, CommitAll(w, Seed(w.stage, members)), members, m);
  }

  lemma ReadyInRange(w: World)
    requires Ready(w)
    ensures WellFormed(w) && w.stage < |w.stages| && w.gate.None?
  {
  }

  lemma SeedCut(w: World, members: seq<string>, cut: nat)
    requires Ready(w) && w.targets[w.stage] == [] && NoDuplicates(members) && cut <= |members| && w.stage < |w.stages|
    ensures var v := CommitPrefix(w, Seed(w.stage, members), cut);
            && Base(v) && OnlyRows(w, v) && v.queue == w.queue && v.targets[v.stage] == SeedRows(members[..cut])
            && (w.stage, Before) !in v.entered
            && (Guarded(w) ==> CommandsPassed(v) && ClearedBut(v, v.stage))
            && (Guarded(w) ==> (Guarded(v) <==> cut == 0 || w.stages[w.stage].beforeGate.None?))
  {
    hide Base, Guarded, CommandsPassed, ClearedBut, Members, OnlyRows, CommitPrefix;
    assert [] + members == members;
    SeedPrefix(w, [], members, cut);
    assert [] + members[..cut] == members[..cut];
    SeedRowsAt(members[..cut]);
    var v := CommitPrefix(w, Seed(w.stage, members), cut);
    NotEnteredYet(w);
    OnlyRowsEntersNothing(w, v);
    UnparkedSeed(w, v);
    NothingCut(w, Seed(w.stage, members));
  }

  lemma OnlyRowsEntersNothing(w: World, v: World)
    requires OnlyRows(w, v)
    ensures v.entered == w.entered && v.stage == w.stage
  {
  }

  lemma NotEnteredYet(w: World)
    requires Ready(w) && w.targets[w.stage] == []
    ensures (w.stage, Before) !in w.entered
  {
  }

  /** A gate is not passed before it is entered. */
  lemma PassedOnlyAfterEntry(w: World, stage: nat, side: Side)
    requires Base(w) && (stage, side) !in w.entered && GateOf(w, stage, side).Some?
    ensures !Passed(w, stage, side)
  {
  }

  lemma UnparkedSeed(w: World, v: World)
    requires Ready(w) && Base(v) && OnlyRows(w, v) && v.queue == w.queue && (w.stage, Before) !in w.entered
    ensures Guarded(w) ==> CommandsPassed(v) && ClearedBut(v, v.stage)
    ensures Guarded(w) && v.targets[v.stage] != [] ==> (Guarded(v) <==> w.stages[w.stage].beforeGate.None?)
  {
    if Guarded(w) {
      ClearedWhileSeeding(w, v);
      if w.stages[w.stage].beforeGate.Some? {
        PassedOnlyAfterEntry(v, v.stage, Before);
        assert !Cleared(v, v.stage);
      } else {
        assert Passed(w, w.stage, Before);
        GuardedOnRows(w, v);
      }
    }
  }

  lemma AfterSeedingPrefix(w: World, v: World, members: seq<string>, m: nat)
    requires Ready(w) && Ready(v) && OnlyRows(w, v) && members != [] && v.targets[v.stage] == SeedRows(members)
    requires (w.stage, Before) !in v.entered && w.stage < |w.stages|
    ensures var u := CommitPrefix(v, AfterSeeding(w, members), m);
            && Base(u)
            && (CommandsPassed(v) && ClearedBut(v, v.stage) && (Guarded(v) <==> w.stages[w.stage].beforeGate.None?)
                ==> (Guarded(u) <==> w.stages[w.stage].beforeGate.None? || m > 0))
  {
    hide Base, Guarded, CommandsPassed, ClearedBut, CommitPrefix, DeliverBatch;
    SeedRowsAt(members);
    NothingCut(v, AfterSeeding(w, members));
    var gate := w.stages[w.stage].beforeGate;
    if gate.Some? {
      if m > 0 {
        EnterGatePrefix(w, v, Before, gate.value, m);
      }
    } else {
      NoWrites(v, m);
      var slots := Slots(w, w.stage, |members|);
      if slots.Some? {
        assert [] + SeedRows(members) == v.targets[v.stage];
        DeliverPrefix(v, [], SeedRows(members), slots.value, w.desired, m);
        BatchKeepsGuarded(v, CommitPrefix(v, AfterSeeding(w, members), m));
      }
    }
  }

  lemma BatchKeepsGuarded(v: World, u: World)
    requires OnlyRows(v, u) && Passed(v, v.stage, Before)
    ensures Guarded(v) ==> Guarded(u)
  {
    if Guarded(v) {
      GuardedOnRows(v, u);
    }
  }

  lemma ReconcileCut(w: World, cut: nat)
    requires Ready(w) && w.targets[w.stage] != []
    ensures var writes := Reconcile(w.stage, w.targets[w.stage], w.queue);
            var v := CommitPrefix(w, writes, cut);
            && Base(v) && Ready(v) && OnlyRows(w, v) && (Guarded(w) ==> Guarded(v))
            && (cut >= |writes| ==> v.targets[v.stage] == SettleAll(w.targets[w.stage], w.queue))
  {
    if Guarded(w) {
      RunningMeansPassed(w);
    }
    hide Base, Guarded, CommitPrefix, Reconcile, Settle, SettleAll, PartlySettled, Passed;
    assert [] + w.targets[w.stage] == w.targets[w.stage];
    assert [] + SettleAll(w.targets[w.stage], w.queue) == SettleAll(w.targets[w.stage], w.queue);
    ReconcilePrefix(w, [], w.targets[w.stage], cut);
    if Guarded(w) {
      BatchKeepsGuarded(w, CommitPrefix(w, Reconcile(w.stage, w.targets[w.stage], w.queue), cut));
    }
  }

  lemma DriveStagePrefix(w: World, n: nat)
    requires Ready(w) && w.targets[w.stage] != []
    ensures var v := CommitPrefix(w, DriveStage(w), n);
            Base(v) && (Guarded(w) ==> Guarded(v))
  {
    ReadyInRange(w);
    hide Base, Guarded, CommitPrefix, CommitAll, Reconcile, AfterReconcile, Settle, OnlyRows;
    var rows := SettleAll(w.targets[w.stage], w.queue);
    var first := Reconcile(w.stage, w.targets[w.stage], w.queue);
    PrefixSplit(w, first, AfterReconcile(w, rows), n);
    ReconcileCut(w, Min(n, |first|));
    if n >= |first| {
      PrefixAll(w, first, |first|);
      AfterReconcilePrefix(w, CommitPrefix(w, first, |first|), rows, n - |first|);
    }
  }

  /** The slots a top-up has; none when it cannot be carried out. */
  function TopUpSlots(w: World, rows: seq<Target>): int
    requires w.stage < |w.stages|
  {
    if Members(w, w.stage).None? then 0
    else
      match Slots(w, w.stage, |Members(w, w.stage).value|)
      case None => 0
      case Some(n) => n - Count(rows, TargetDelivered)
  }

  lemma TopUpIsABatch(w: World, rows: seq<Target>)
    requires w.stage < |w.stages|
    ensures TopUp(w, w.stage, rows) == DeliverBatch(w.stage, rows, TopUpSlots(w, rows), w.desired)
  {
    hide Count, ParseMaxConcurrency, StageMembers;
  }

  lemma TopUpPrefix(w: World, v: World, rows: seq<Target>, n: nat)
    requires Ready(v) && OnlyRows(w, v) && v.targets[v.stage] == rows && rows != [] && w.stage < |w.stages|
    ensures var u := CommitPrefix(v, TopUp(w, w.stage, rows), n);
            Base(u) && (Guarded(v) ==> Guarded(u))
  {
    if Guarded(v) {
      RunningMeansPassed(v);
    }
    OnlyRowsInPlace(w, v);
    hide Base, Guarded, DeliverBatch, Passed, OnlyRows, CommitPrefix, Handed, TopUpSlots, TopUp;
    TopUpIsABatch(w, rows);
    assert [] + rows == rows;
    DeliverPrefix(v, [], rows, TopUpSlots(w, rows), w.desired, n);
    if Guarded(v) {
      BatchKeepsGuarded(v, CommitPrefix(v, TopUp(w, w.stage, rows), n));
    }
  }

  lemma {:induction false} CountsZeroMeansHealthy(rows: seq<Target>)
    requires Count(rows, TargetFailed) == 0 && Count(rows, TargetPending) + Count(rows, TargetDelivered) == 0
    ensures AllHealthy(rows)
  {
    CountZero(rows, TargetFailed);
    CountZero(rows, TargetPending);
    CountZero(rows, TargetDelivered);
  }

  lemma GuardedGivesBut(v: World)
    requires Guarded(v) && !v.state.RolledBack?
    ensures CommandsPassed(v) && ClearedBut(v, v.stage)
  {
  }

  lemma SettledStagePrefix(w: World, v: World, rows: seq<Target>, n: nat)
    requires Ready(v) && OnlyRows(w, v) && v.targets[v.stage] == rows && rows != [] && w.stage < |w.stages|
    requires Count(rows, TargetFailed) == 0 && Count(rows, TargetPending) + Count(rows, TargetDelivered) == 0
    ensures var u := CommitPrefix(v, AfterReconcile(w, rows), n);
            Base(u) && (Guarded(v) ==> Guarded(u))
  {
    ReadyInRange(v);
    CountsZeroMeansHealthy(rows);
    if Guarded(v) {
      GuardedGivesBut(v);
    }
    hide Base, Guarded, CommandsPassed, ClearedBut, Count, CommitPrefix;
    var gate := w.stages[w.stage].afterGate;
    NothingCut(v, AfterReconcile(w, rows));
    if gate.Some? {
      if n > 0 {
        EnterGatePrefix(w, v, After, gate.value, n);
      }
    } else {
      var next := Cas(Running, Running, w.stage + 1, None);
      assert [next] + [] == AfterReconcile(w, rows);
      PrefixHead(v, next, [], n);
      LeaveKeeps(v);
      if n > 0 {
        NoWrites(Commit(v, next), n - 1);
      }
    }
  }

  lemma AfterReconcilePrefix(w: World, v: World, rows: seq<Target>, n: nat)
    requires Ready(v) && OnlyRows(w, v) && v.targets[v.stage] == rows && rows != []
    requires w.stage < |w.stages|
    ensures var u := CommitPrefix(v, AfterReconcile(w, rows), n);
            Base(u) && (Guarded(v) ==> Guarded(u))
  {
    hide Base, Guarded, Count;
    if Count(rows, TargetFailed) > 0 {
      FailPrefix(w, v, n);
    } else if Count(rows, TargetPending) + Count(rows, TargetDelivered) > 0 {
      TopUpPrefix(w, v, rows, n);
    } else {
      SettledStagePrefix(w, v, rows, n);
    }
  }

  lemma WaitOverIsMet(w: World)
    requires Base(w) && w.gate.Some? && WaitOver(w, w.gate.value)
    ensures GateMet(w, w.stage, w.gate.value.side)
  {
  }

  lemma WaitingPrefix(w: World, n: nat)
    requires Base(w) && w.state.WaitingGate?
    ensures var v := CommitPrefix(w, AdvanceOnce(w), n);
            Base(v) && (Guarded(w) ==> Guarded(v))
  {
    var g := w.gate.value;
    if WaitOver(w, g) {
      WaitOverIsMet(w);
    }
    hide Base, Guarded;
    if g.kind.Approval? && g.approvalId.None? {
      AskKeeps(w, n);
    } else if WaitOver(w, g) {
      ClearKeeps(w);
      var clear := ClearGate(w)[0];
      assert [clear] + [] == ClearGate(w);
      PrefixHead(w, clear, [], n);
      OneCas(w, Running, clear.stage, None);
    }
  }

  lemma CompletePrefix(w: World, n: nat)
    requires Base(w) && w.state.Running? && w.stage >= |w.stages|
    ensures var v := CommitPrefix(w, AdvanceOnce(w), n);
            Base(v) && (Guarded(w) ==> Guarded(v))
  {
    var complete := Cas(Running, Completed, w.stage, None);
    assert [complete] + [] == AdvanceOnce(w);
    PrefixHead(w, complete, [], n);
    var v := Commit(w, complete);
    RowsCarry(w, v);
    GatesCarry(w, v);
    if Guarded(w) {
      GuardedInPlace(w, v);
    }
    hide RowsOk, GatesOk, Guarded, Passed;
  }

  /** Any prefix of the writes of advanceOnce keeps the order of stages; and it keeps the before gates,
      but for a torn seeding, which always loses one. */
  lemma AdvancePrefix(w: World, n: nat)
    requires Base(w)
    ensures var v := CommitPrefix(w, AdvanceOnce(w), n);
            Base(v) && (Guarded(w) ==> (Guarded(v) <==> !TornSeeding(w, n)))
  {
    hide RowsOk, QueueOk, GatesOk, Guarded, CommitPrefix, EnterStage, DriveStage;
    match w.state
    case WaitingGate => WaitingPrefix(w, n);
    case Running =>
      if w.stage >= |w.stages| {
        CompletePrefix(w, n);
      } else if w.targets[w.stage] == [] {
        EnterStagePrefix(w, n);
      } else {
        DriveStagePrefix(w, n);
      }
    case _ => NoWrites(w, n);
  }

  // ----- The other steps

  /** A wait that will have run out before the stages below can have been gone through again. */
  predicate RunsOutOnTheWay(w: World) {
    w.gate.Some? && w.gate.value.kind.Wait?
    && w.gate.value.enteredAt + w.gate.value.kind.seconds <= w.now + Waits(w.stages, 0, w.stage)
  }

  /** Starting leaves every gate intact when it drops no unmet before gate, or one whose wait runs out on
      the way back to its stage. */
  predicate StartFits(w: World) {
    w.gate.Some? && w.gate.value.side.Before? ==> GateMet(w, w.stage, Before) || RunsOutOnTheWay(w)
  }

  lemma StartIsNotEarlier(w: World, v: World, s: nat)
    requires Base(w) && v == w.(state := Running, stage := 0, gate := None)
    ensures Earliest(w, s) <= Earliest(v, s)
  {
    WaitsLonger(w.stages, 0, w.stage, s);
  }

  lemma ClearedOnStart(w: World, v: World, s: nat)
    requires Base(w) && v == w.(state := Running, stage := 0, gate := None) && StartFits(w) && Cleared(w, s)
    ensures Cleared(v, s)
  {
    if Passed(w, s, Before) {
      PassedStays(w, v, s, Before);
    } else if Expires(w, s) {
      StartIsNotEarlier(w, v, s);
      assert GateOf(v, s, Before) == GateOf(w, s, Before);
    }
  }

  lemma StartKeepsBase(w: World)
    requires Base(w) && CanRolloutTransition(w.state, Running)
    ensures Base(Commit(w, Cas(w.state, Running, 0, None)))
  {
    var v := Commit(w, Cas(w.state, Running, 0, None));
    RowsCarry(w, v);
    GatesCarry(w, v);
    hide RowsOk, GatesOk;
  }

  /** A start keeps the order of stages, and it keeps the before gates exactly if it fits. */
  lemma StartExactly(w: World)
    requires Base(w) && CanRolloutTransition(w.state, Running)
    ensures var v := CommitAll(w, Start(w));
            Base(v) && (Guarded(w) ==> (Guarded(v) <==> StartFits(w)))
  {
    OneCas(w, Running, 0, None);
    StartKeepsBase(w);
    if Guarded(w) {
      StartKeepsGuarded(w, Commit(w, Cas(w.state, Running, 0, None)));
    }
  }

  lemma StartKeepsGuarded(w: World, v: World)
    requires Base(w) && Guarded(w) && !w.state.RolledBack? && v == w.(state := Running, stage := 0, gate := None)
    ensures Guarded(v) <==> StartFits(w)
  {
    forall k | k in v.queue && k.suffix.Apply? ensures Passed(v, k.stage, Before) {
      PassedStays(w, v, k.stage, Before);
    }
    if StartFits(w) {
      forall s | 0 <= s < |v.targets| && v.targets[s] != [] ensures Cleared(v, s) {
        assert Cleared(w, s);
        ClearedOnStart(w, v, s);
      }
    } else {
      assert !Cleared(v, w.stage) by {
        if Passed(v, w.stage, Before) {
          PassedStays(v, w, w.stage, Before);
        }
      }
    }
  }

  lemma DecidedKeeps(w: World, id: nat)
    requires Base(w)
    ensures var v := CommitAll(w, Handle(w, id));
            Base(v) && (Guarded(w) ==> Guarded(v))
  {
    hide Guarded;
    if id < |w.approvals| && Parked(w) && w.gate.Some? && w.stage == w.approvals[id].stage {
      var a := w.approvals[id];
      if a.state.Approved? && a.side == w.gate.value.side {
        assert a == GateApproval(w.stage, a.side, Approved);
        ClearKeeps(w);
      } else if a.state.Rejected? {
        OneCas(w, Failed, w.stage, w.gate);
        MoveKeeps(w, Failed);
      }
    }
  }

  lemma RollbackEnqueueKeeps(w: World, write: Write)
    requires Base(w) && write.EnqueueCommand? && write.key.suffix.Rollback?
    ensures Base(Commit(w, write)) && (Guarded(w) ==> Guarded(Commit(w, write)))
  {
    EnqueueKeeps(w, write.key, write.version);
    if Guarded(w) {
      GuardedInPlace(w, Commit(w, write));
    }
  }

  lemma {:induction false} RollbackStagePrefix(w: World, stage: nat, members: seq<string>, version: string, n: nat)
    requires Base(w)
    ensures var v := CommitPrefix(w, RollbackStage(stage, members, version), n);
            Base(v) && (Guarded(w) ==> Guarded(v)) && v == w.(queue := v.queue)
    decreases |members|
  {
    hide Base, Guarded, CommitPrefix, DesiredState;
    NoWrites(w, n);
    if members != [] {
      var first := EnqueueCommand(CommandKey(stage, members[0], Rollback), version);
      PrefixHead(w, first, RollbackStage(stage, members[1..], version), n);
      if n > 0 {
        RollbackEnqueueKeeps(w, first);
        RollbackStagePrefix(Commit(w, first), stage, members[1..], version, n - 1);
      }
    }
  }

  lemma {:induction false} RollbackFromPrefix(w: World, v: World, stage: nat, version: string, n: nat)
    requires Base(v) && stage <= |w.stages|
    ensures var u := CommitPrefix(v, RollbackFrom(w, stage, version).0, n);
            Base(u) && (Guarded(v) ==> Guarded(u)) && u == v.(queue := u.queue)
    decreases stage
  {
    hide Base, Guarded, Members, CommitPrefix, RollbackStage;
    NoWrites(v, n);
    if stage > 0 {
      var members := Members(w, stage - 1);
      if members.Some? {
        var first := RollbackStage(stage - 1, members.value, version);
        var rest := RollbackFrom(w, stage - 1, version).0;
        PrefixSplit(v, first, rest, n);
        RollbackStagePrefix(v, stage - 1, members.value, version, n);
        RollbackStagePrefix(v, stage - 1, members.value, version, |first|);
        PrefixAll(v, first, |first|);
        if n >= |first| {
          RollbackFromPrefix(w, CommitAll(v, first), stage - 1, version, n - |first|);
        }
      }
    }
  }

  lemma RolledBackKeeps(v: World, n: nat)
    requires Base(v)
    ensures var u := CommitPrefix(v, Transition(v, RolledBack, v.stage, None), n);
            Base(u) && (Guarded(v) ==> Guarded(u))
  {
    NoWrites(v, n);
    if CanRolloutTransition(v.state, RolledBack) {
      var last := Cas(v.state, RolledBack, v.stage, None);
      assert [last] + [] == Transition(v, RolledBack, v.stage, None);
      PrefixHead(v, last, [], n);
      EndedKeeps(v);
    }
  }

  lemma EndedKeeps(w: World)
    requires Base(w) && CanRolloutTransition(w.state, RolledBack)
    ensures var v := Commit(w, Cas(w.state, RolledBack, w.stage, None));
            Base(v) && (Guarded(w) ==> Guarded(v))
  {
    var v := Commit(w, Cas(w.state, RolledBack, w.stage, None));
    RowsCarry(w, v);
    GatesCarry(w, v);
    if CommandsPassed(w) {
      forall k | k in v.queue && k.suffix.Apply? ensures Passed(v, k.stage, Before) {
        PassedStays(w, v, k.stage, Before);
      }
    }
    hide RowsOk, GatesOk, Passed;
  }

  lemma RollbackPrefix(w: World, version: string, n: nat)
    requires Base(w)
    ensures var v := CommitPrefix(w, RollBack(w, version), n);
            Base(v) && (Guarded(w) ==> Guarded(v))
  {
    hide Base, Guarded;
    NoWrites(w, n);
    if CanRollBack(w, version) {
      var (first, ok) := RollbackFrom(w, |w.stages|, version);
      var rest := if ok then Transition(w, RolledBack, w.stage, None) else [];
      PrefixSplit(w, first, rest, n);
      RollbackFromPrefix(w, w, |w.stages|, version, n);
      if n >= |first| && ok {
        PrefixAll(w, first, n);
        RolledBackKeeps(CommitAll(w, first), n - |first|);
      }
    }
  }

  /** Steps that leave rows, stage and gate alone. */
  lemma OutsideKeeps(w: World, v: World)
    requires Base(w) && Extends(w, v) && v.state == w.state && v.stage == w.stage && v.gate == w.gate
    requires v.targets == w.targets && v.entered == w.entered && v.queue.Keys == w.queue.Keys
    requires forall k | k in v.queue && v.queue[k].status.CommandAcked? :: k in v.acked
    requires |v.approvals| == |w.approvals|
    requires forall id | 0 <= id < |w.approvals| ::
               v.approvals[id].stage == w.approvals[id].stage && v.approvals[id].side == w.approvals[id].side
    ensures Base(v) && (Guarded(w) ==> Guarded(v))
  {
    RowsCarry(w, v);
    GatesCarry(w, v);
    if Guarded(w) {
      GuardedInPlace(w, v);
    }
    hide RowsOk, GatesOk, Guarded, Passed;
  }

  lemma SettlementKeeps(w: World, id: nat, state: ApprovalState)
    requires Base(w) && !state.ApprovalPending?
    ensures Base(Settlement(w, id, state)) && (Guarded(w) ==> Guarded(Settlement(w, id, state)))
  {
    OutsideKeeps(w, Settlement(w, id, state));
  }

  lemma AnswerKeeps(w: World, key: CommandKey, ack: bool, message: string)
    requires Base(w)
    ensures var v := Take(w, AnswerStep(key, ack, message));
            Base(v) && (Guarded(w) ==> Guarded(v))
  {
    OutsideKeeps(w, Take(w, AnswerStep(key, ack, message)));
  }

  lemma SendKeeps(w: World, key: CommandKey)
    requires Base(w)
    ensures var v := Take(w, SendStep(key));
            Base(v) && (Guarded(w) ==> Guarded(v))
  {
    OutsideKeeps(w, Take(w, SendStep(key)));
  }

  lemma WorldMovesKeeps(w: World, step: Step)
    requires Base(w) && (step.FleetStep? || step.ClockStep?)
    ensures Base(Take(w, step)) && (Guarded(w) ==> Guarded(Take(w, step)))
  {
    OutsideKeeps(w, Take(w, step));
  }

  lemma ManualMoveKeeps(w: World, step: Step)
    requires Base(w) && (step.StopStep? || step.ResumeStep?)
    ensures Base(Take(w, step)) && (Guarded(w) ==> Guarded(Take(w, step)))
  {
    hide RowsOk, QueueOk, GatesOk, Guarded;
    var to := if step.StopStep? then Paused else if w.gate.Some? then WaitingGate else Running;
    if CanRolloutTransition(w.state, to) {
      OneCas(w, to, w.stage, w.gate);
      MoveKeeps(w, to);
    }
  }

  /** When a step is a legitimate one: a start that fits, an advance not torn inside seeding, and any
      other step at any time. */
  predicate Admissible(w: World, step: Step)
    requires WellFormed(w)
  {
    match step
    case StartStep => CanRolloutTransition(w.state, Running) ==> StartFits(w)
    case AdvanceStep(n) => !TornSeeding(w, n)
    case _ => true
  }

  lemma BaseHasShape(w: World)
    requires Base(w)
    ensures WellFormed(w)
  {
  }

  /** Every step keeps the order of stages; the before gates are kept by exactly the admissible steps. */
  lemma StepKeepsExactly(w: World, step: Step)
    requires Base(w)
    ensures WellFormed(w) && Base(Take(w, step))
    ensures Guarded(w) ==> (Guarded(Take(w, step)) <==> Admissible(w, step))
  {
    BaseHasShape(w);
    hide Base, Guarded, StartFits, TornSeeding;
    match step
    case StartStep =>
      if CanRolloutTransition(w.state, Running) { StartExactly(w); }
    case AdvanceStep(n) => AdvancePrefix(w, n);
    case RollbackStep(version, n) => RollbackPrefix(w, version, n);
    case DecidedStep(id) => DecidedKeeps(w, id);
    case DecideStep(id, approve) => SettlementKeeps(w, id, if approve then Approved else Rejected);
    case WithdrawStep(id) => SettlementKeeps(w, id, Withdrawn);
    case AnswerStep(key, ack, message) => AnswerKeeps(w, key, ack, message);
    case SendStep(key) => SendKeeps(w, key);
    case FleetStep(_) => WorldMovesKeeps(w, step);
    case ClockStep(_) => WorldMovesKeeps(w, step);
    case _ => ManualMoveKeeps(w, step);
  }

  predicate AdmissibleRun(w: World, steps: seq<Step>)
    requires WellFormed(w)
    decreases |steps|
  {
    steps == [] ||
    (Admissible(w, steps[0])
     && (TakeKeepsShape(w, steps[0]); AdmissibleRun(Take(w, steps[0]), steps[1..])))
  }

  /** Any run keeps the order of stages; an admissible one keeps the before gates too. */
  lemma {:induction false} RunKeeps(w: World, steps: seq<Step>)
    requires Base(w)
    ensures WellFormed(w) && Base(Run(w, steps))
    ensures Guarded(w) && AdmissibleRun(w, steps) ==> Guarded(Run(w, steps))
    decreases |steps|
  {
    BaseHasShape(w);
    hide Base, Guarded, Admissible;
    if steps != [] {
      StepKeepsExactly(w, steps[0]);
      RunKeeps(Take(w, steps[0]), steps[1..]);
    }
  }

  // ----- Main results

  /** Before gates are never skipped: in every state of every run whose starts fit and whose seedings are
      not torn, a stage with a before gate has an apply command only if that gate's wait has run out or an
      approval for exactly that stage and side was granted. */
  lemma GatesAreNeverSkipped(w: World, steps: seq<Step>)
    requires Created(w) && AdmissibleRun(w, steps)
    ensures var v := Run(w, steps);
            forall k | k in v.queue && k.suffix.Apply? :: k.stage < |v.stages| && Passed(v, k.stage, Before)
  {
    CreatedInv(w);
    RunKeeps(w, steps);
  }

  predicate StageAcknowledged(w: World, s: nat)
    requires s < |w.targets|
  {
    w.targets[s] != [] &&
    forall i | 0 <= i < |w.targets[s]| ::
      w.targets[s][i].status.TargetHealthy? && ApplyKey(s, w.targets[s][i].cluster) in w.acked
  }

  lemma DoneMeansAcknowledged(w: World, s: nat)
    requires Base(w) && s < |w.targets| && Done(w.targets[s])
    ensures StageAcknowledged(w, s)
  {
    assert StageRowsOk(w, s);
    forall i | 0 <= i < |w.targets[s]| ensures ApplyKey(s, w.targets[s][i].cluster) in w.acked {
      assert RowOk(w, s, w.targets[s][i]);
    }
  }

  /** Stages are taken in order, in every run, whatever is restarted, crashes or is answered: every stage
      below the current one has targets, all of them acknowledged, and its after gate was met; no stage has
      an apply command before all stages below it are acknowledged; and a rollout on an after gate has
      nothing left to wait for in its stage. */
  lemma StagesAreTakenInOrder(w: World, steps: seq<Step>)
    requires Created(w)
    ensures var v := Run(w, steps);
            && WellFormed(v) && v.stage <= |v.stages|
            && (forall s | 0 <= s < v.stage :: StageAcknowledged(v, s) && Passed(v, s, After))
            && (forall k, s | k in v.queue && k.suffix.Apply? && 0 <= s < k.stage && k.stage < |v.stages| :: StageAcknowledged(v, s))
            && (forall k | k in v.queue && k.suffix.Apply? :: k.stage < |v.stages|)
            && (v.gate.Some? && v.gate.value.side.After? ==> v.stage < |v.stages| && StageAcknowledged(v, v.stage))
  {
    CreatedInv(w);
    RunKeeps(w, steps);
    OrderOf(Run(w, steps));
  }

  lemma OrderOf(v: World)
    requires Base(v)
    ensures WellFormed(v) && v.stage <= |v.stages|
    ensures forall s | 0 <= s < v.stage :: StageAcknowledged(v, s) && Passed(v, s, After)
    ensures forall k, s | k in v.queue && k.suffix.Apply? && 0 <= s < k.stage && k.stage < |v.stages| :: StageAcknowledged(v, s)
    ensures forall k | k in v.queue && k.suffix.Apply? :: k.stage < |v.stages|
    ensures v.gate.Some? && v.gate.value.side.After? ==> v.stage < |v.stages| && StageAcknowledged(v, v.stage)
  {
    forall s | 0 <= s < |v.targets| && Done(v.targets[s]) ensures StageAcknowledged(v, s) {
      DoneMeansAcknowledged(v, s);
    }
    forall k, s | k in v.queue && k.suffix.Apply? && 0 <= s < k.stage && k.stage < |v.stages| ensures StageAcknowledged(v, s) {
      assert v.targets[k.stage] != [] && Done(v.targets[s]);
    }
  }

  /** A completed rollout has reached every seeded target of every stage, in any run. */
  lemma CompletedMeansAcknowledged(w: World, steps: seq<Step>)
    requires Created(w) && Run(w, steps).state.Completed?
    ensures var v := Run(w, steps);
            WellFormed(v) && forall s | 0 <= s < |v.stages| :: StageAcknowledged(v, s)
  {
    CreatedInv(w);
    RunKeeps(w, steps);
    OrderOf(Run(w, steps));
  }
}
