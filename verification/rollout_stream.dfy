/** A rollout's commands in the agents' queue: what a stream does with them are steps of the rollout's runs. */
module RolloutStream {
  import opened Wrappers
  import opened Stages
  import opened ClusterSets
  import opened CommandIds
  import opened CommandQueue
  import opened RolloutModel
  import opened RolloutSafety
  import opened RolloutEffects
  import Batches = RolloutBatches
  import Dispatch = CommandDispatch
  import Session = AgentSession

  /** The queue holds a rollout's commands under their text ids, among others. */
  ghost predicate Shows(rows: Rows<string>, queue: Rows<CommandKey>, rollout: string) {
    forall key {:trigger CommandId(rollout, key)} ::
      (CommandId(rollout, key) in rows <==> key in queue) && (key in queue ==> rows[CommandId(rollout, key)] == queue[key])
  }

  predicate OfTheRollout(queue: Rows<CommandKey>) {
    forall key | key in queue :: queue[key].kind == COMMAND_TYPE
  }

  lemma OneRowMoves(rows: Rows<string>, after: Rows<string>, queue: Rows<CommandKey>, rollout: string, key: CommandKey)
    requires Shows(rows, queue, rollout) && key in queue && CommandId(rollout, key) in after
    requires after == rows[CommandId(rollout, key) := after[CommandId(rollout, key)]]
    ensures Shows(after, queue[key := after[CommandId(rollout, key)]], rollout)
  {
    forall other: CommandKey
      ensures CommandId(rollout, other) in after <==> other in queue
      ensures other in queue ==> after[CommandId(rollout, other)] == queue[key := after[CommandId(rollout, key)]][other]
    {
      if CommandId(rollout, other) == CommandId(rollout, key) {
        CommandIdsAreInjective(rollout, other, key);
      }
    }
    hide CommandId;
  }

  lemma OtherRowMoves(rows: Rows<string>, after: Rows<string>, queue: Rows<CommandKey>, rollout: string, id: string)
    requires Shows(rows, queue, rollout) && id in rows && id in after && after == rows[id := after[id]]
    requires forall key: CommandKey {:trigger CommandId(rollout, key)} :: CommandId(rollout, key) != id
    ensures Shows(after, queue, rollout)
  {
    hide CommandId;
  }

  // ----- Answers

  /** The step of the rollout's runs that an event from the agent is: an answer to one of its commands, or
      nothing. */
  ghost function StepsOf(w: World, rollout: string, rows: Rows<string>, e: Session.Event): seq<Step> {
    if e.body.CommandAnswer? && exists key :: CommandId(rollout, key) == Dispatch.AckTarget(rows, e.body.id) && key in w.queue then
      var key: CommandKey :| CommandId(rollout, key) == Dispatch.AckTarget(rows, e.body.id) && key in w.queue;
      [AnswerStep(key, !e.body.refused, e.body.message)]
    else []
  }

  lemma AnswerIsAStep(w: World, rollout: string, rows: Rows<string>, e: Session.Event, cluster: string, resyncRequest: string)
    requires WellFormed(w) && Shows(rows, w.queue, rollout) && e.body.CommandAnswer?
    ensures Shows(Session.QueueAfter(rows, cluster, resyncRequest, w.now, e), Run(w, StepsOf(w, rollout, rows, e)).queue, rollout)
  {
    hide CommandId, Dispatch.AckTarget;
    var target := Dispatch.AckTarget(rows, e.body.id);
    var after := Session.QueueAfter(rows, cluster, resyncRequest, w.now, e);
    if key: CommandKey :| CommandId(rollout, key) == target && key in w.queue {
      var steps := StepsOf(w, rollout, rows, e);
      var k := steps[0].key;
      assert steps[1..] == [];
      TakeKeepsShape(w, steps[0]);
      OneRowMoves(rows, after, w.queue, rollout, k);
    } else if target in rows {
      forall key: CommandKey {:trigger CommandId(rollout, key)} ensures CommandId(rollout, key) != target {
      }
      OtherRowMoves(rows, after, w.queue, rollout, target);
    }
  }

  lemma ResyncLeavesRollouts(rows: Rows<string>, queue: Rows<CommandKey>, rollout: string, cluster: string, kind: string, message: string, now: int)
    requires Shows(rows, queue, rollout) && OfTheRollout(queue) && kind != COMMAND_TYPE
    ensures Shows(AfterTypeAnswer(rows, cluster, kind, message, now), queue, rollout)
  {
    hide CommandId;
  }

  /** Every event of a stream is, for each rollout with commands in the queue, at most one answer to one of
      them; in particular resync responses touch none. */
  lemma EventIsAStep(w: World, rollout: string, rows: Rows<string>, e: Session.Event, cluster: string, resyncRequest: string)
    requires WellFormed(w) && Shows(rows, w.queue, rollout) && OfTheRollout(w.queue) && resyncRequest != COMMAND_TYPE
    ensures |StepsOf(w, rollout, rows, e)| <= 1
    ensures Shows(Session.QueueAfter(rows, cluster, resyncRequest, w.now, e), Run(w, StepsOf(w, rollout, rows, e)).queue, rollout)
  {
    match e.body
    case CommandAnswer(_, _, _) => AnswerIsAStep(w, rollout, rows, e, cluster, resyncRequest);
    case ResyncResponse(_) => ResyncLeavesRollouts(rows, w.queue, rollout, cluster, resyncRequest, "resync completed", w.now);
    case _ =>
  }

  /** An answer under a command's own id is the answer to that command, refused or not as it says. */
  lemma AnswerNamesItsCommand(w: World, rollout: string, rows: Rows<string>, e: Session.Event, key: CommandKey)
    requires Shows(rows, w.queue, rollout) && key in w.queue && e.body.CommandAnswer? && e.body.id == CommandId(rollout, key)
    ensures StepsOf(w, rollout, rows, e) == [AnswerStep(key, !e.body.refused, e.body.message)]
  {
    assert Dispatch.AckTarget(rows, e.body.id) == e.body.id;
    var steps := StepsOf(w, rollout, rows, e);
    CommandIdsAreInjective(rollout, steps[0].key, key);
  }

  // ----- What an answer decides

  lemma DecisionKeepsDecided(u: World, v: World, i: nat)
    requires WellFormed(u) && u.stage < |u.stages| && Decides(u, v) && i < |u.targets[u.stage]|
    requires u.targets[u.stage][i].status.TargetHealthy? || u.targets[u.stage][i].status.TargetFailed?
    ensures |v.targets| == |u.targets| && i < |v.targets[u.stage]| && v.targets[u.stage][i] == u.targets[u.stage][i]
    ensures u.targets[u.stage][i].status.TargetFailed? ==> v.state.Failed?
  {
    hide Members, Slots, CommandsHanded;
    var rows := u.targets[u.stage];
    forall slots: int | HandsOver(u, v, slots) ensures i < |v.targets[u.stage]| && v.targets[u.stage][i] == rows[i] {
      RowStays(u.stage, [], rows, slots, v.targets[u.stage], i);
    }
    hide HandsOver;
  }

  lemma RowStays(stage: nat, head: seq<Target>, rows: seq<Target>, slots: int, after: seq<Target>, i: nat)
    requires RowsHanded(stage, head, rows, slots, after) && i < |rows| && !rows[i].status.TargetPending?
    ensures |head| + i < |after| && after[|head| + i] == rows[i]
  {
    assert !IsHanded(rows, i, slots);
  }

  /** An answer that comes while its target is delivered decides it: at the next whole advance the target is
      healthy if the agent acknowledged, and failed, with the rollout, if it refused. */
  lemma AnswerDecidesTarget(w: World, i: nat, key: CommandKey, ack: bool, message: string)
    requires WellFormed(w) && Keyed(w) && w.state.Running? && w.stage < |w.stages| && i < |w.targets[w.stage]|
    requires w.targets[w.stage][i].status.TargetDelivered? && w.targets[w.stage][i].command == Some(key) && key in w.queue
    ensures var u := Take(w, AnswerStep(key, ack, message));
            WellFormed(u) &&
            var v := Take(u, AdvanceStep(|AdvanceOnce(u)|));
            && |v.targets| == |w.targets| && i < |v.targets[w.stage]|
            && v.targets[w.stage][i] == w.targets[w.stage][i].(status := if ack then TargetHealthy else TargetFailed)
            && (!ack ==> v.state.Failed?)
  {
    var u := Take(w, AnswerStep(key, ack, message));
    hide AdvanceOnce, CommitAll, ThroughStage, Decides, Keyed;
    AnswerKeepsKeys(w, key, ack, message);
    AdvanceDoes(u);
    Batches.PrefixAll(u, AdvanceOnce(u), |AdvanceOnce(u)|);
    var v := Take(u, AdvanceStep(|AdvanceOnce(u)|));
    ThroughDecided(u, v, i);
  }

  lemma AnswerKeepsKeys(w: World, key: CommandKey, ack: bool, message: string)
    requires WellFormed(w) && Keyed(w)
    ensures Keyed(Take(w, AnswerStep(key, ack, message)))
  {
  }

  lemma ThroughDecided(u: World, v: World, i: nat)
    requires WellFormed(u) && u.stage < |u.stages| && ThroughStage(u, v) && i < |u.targets[u.stage]|
    requires var t := u.targets[u.stage][i];
             t.status.TargetDelivered? && t.command.Some? && t.command.value in u.queue
             && (u.queue[t.command.value].status.CommandAcked? || u.queue[t.command.value].status.CommandNacked?)
    ensures var t := u.targets[u.stage][i];
            var acked := u.queue[t.command.value].status.CommandAcked?;
            && |v.targets| == |u.targets| && i < |v.targets[u.stage]|
            && v.targets[u.stage][i] == t.(status := if acked then TargetHealthy else TargetFailed)
            && (!acked ==> v.state.Failed?)
  {
    hide Decides;
    var rows: seq<Target> :| SettledRows(u.targets[u.stage], rows, u.queue) && Decides(u.(targets := u.targets[u.stage := rows]), v);
    assert SettledRow(u.targets[u.stage][i], rows[i], u.queue);
    DecisionKeepsDecided(u.(targets := u.targets[u.stage := rows]), v, i);
  }

  /** From the stream to the rollout: an agent's answer under a command's id, taken in by the session, leaves
      the queue as the rollout's step does, and the next advance finds the target healthy or failed as the
      agent said. */
  lemma StreamAnswerDecidesTarget(w: World, rollout: string, rows: Rows<string>, e: Session.Event, cluster: string, resyncRequest: string,
                                  i: nat, key: CommandKey)
    requires WellFormed(w) && Keyed(w) && w.state.Running? && w.stage < |w.stages| && i < |w.targets[w.stage]|
    requires w.targets[w.stage][i].status.TargetDelivered? && w.targets[w.stage][i].command == Some(key) && key in w.queue
    requires Shows(rows, w.queue, rollout) && e.body.CommandAnswer? && e.body.id == CommandId(rollout, key)
    ensures var u := Take(w, AnswerStep(key, !e.body.refused, e.body.message));
            WellFormed(u) && Shows(Session.QueueAfter(rows, cluster, resyncRequest, w.now, e), u.queue, rollout) &&
            var v := Take(u, AdvanceStep(|AdvanceOnce(u)|));
            && |v.targets| == |w.targets| && i < |v.targets[w.stage]|
            && (e.body.refused ==> v.targets[w.stage][i].status.TargetFailed? && v.state.Failed?)
            && (!e.body.refused ==> v.targets[w.stage][i].status.TargetHealthy?)
  {
    hide CommandId, Take, AdvanceOnce, Shows, Session.QueueAfter;
    AnswerIsAStep(w, rollout, rows, e, cluster, resyncRequest);
    AnswerNamesItsCommand(w, rollout, rows, e, key);
    RunOneStep(w, AnswerStep(key, !e.body.refused, e.body.message));
    AnswerDecidesTarget(w, i, key, !e.body.refused, e.body.message);
  }

  lemma RunOneStep(w: World, step: Step)
    requires WellFormed(w)
    ensures Run(w, [step]) == Take(w, step)
  {
    TakeKeepsShape(w, step);
    assert [step][1..] == [];
  }

  // ----- Passes

  /** The sends of a pass that are of the rollout's commands. */
  ghost function SendsOf(w: World, rollout: string, rows: Rows<string>, list: seq<string>, sends: nat): seq<Step>
    requires WellFormed(w)
    decreases |list|
  {
    if list == [] then []
    else if list[0] !in rows || !Readable(rows[list[0]].payload) then SendsOf(w, rollout, rows, list[1..], sends)
    else if sends == 0 then []
    else
      var after := AfterSend(rows, list[0], w.now);
      if exists key :: CommandId(rollout, key) == list[0] && key in w.queue then
        var key: CommandKey :| CommandId(rollout, key) == list[0] && key in w.queue;
        TakeKeepsShape(w, SendStep(key));
        [SendStep(key)] + SendsOf(Take(w, SendStep(key)), rollout, after, list[1..], sends - 1)
      else SendsOf(w, rollout, after, list[1..], sends - 1)
  }

  lemma SendIsAStep(w: World, rollout: string, rows: Rows<string>, key: CommandKey)
    requires WellFormed(w) && Shows(rows, w.queue, rollout) && key in w.queue && Readable(w.queue[key].payload)
    ensures var u := Take(w, SendStep(key));
            u.now == w.now && u.queue.Keys == w.queue.Keys && Shows(AfterSend(rows, CommandId(rollout, key), w.now), u.queue, rollout)
  {
    hide CommandId;
    var id := CommandId(rollout, key);
    var after := AfterSend(rows, id, w.now);
    assert id in rows && rows[id] == w.queue[key];
    if Open(rows[id]) {
      OneRowMoves(rows, after, w.queue, rollout, key);
    } else {
      assert after == rows;
    }
  }

  lemma OtherSend(w: World, rollout: string, rows: Rows<string>, id: string)
    requires Shows(rows, w.queue, rollout) && id in rows
    requires forall key: CommandKey {:trigger CommandId(rollout, key)} :: CommandId(rollout, key) != id
    ensures Shows(AfterSend(rows, id, w.now), w.queue, rollout)
  {
    hide CommandId;
    if Open(rows[id]) {
      OtherRowMoves(rows, AfterSend(rows, id, w.now), w.queue, rollout, id);
    }
  }

  /** A pass over the queue is, for each rollout with commands in it, a run of sends of those of them that it
      sends. */
  lemma {:induction false} PassIsSends(w: World, rollout: string, rows: Rows<string>, list: seq<string>, sends: nat)
    requires WellFormed(w) && Shows(rows, w.queue, rollout)
    ensures Shows(Dispatch.AfterPass(rows, list, sends, w.now), Run(w, SendsOf(w, rollout, rows, list, sends)).queue, rollout)
    decreases |list|
  {
    hide CommandId, Shows, AfterSend, Readable, Take;
    if list == [] || (list[0] in rows && Readable(rows[list[0]].payload) && sends == 0) {
    } else if list[0] !in rows || !Readable(rows[list[0]].payload) {
      PassIsSends(w, rollout, rows, list[1..], sends);
    } else {
      var after := AfterSend(rows, list[0], w.now);
      if exists key :: CommandId(rollout, key) == list[0] && key in w.queue {
        var steps := SendsOf(w, rollout, rows, list, sends);
        var key := steps[0].key;
        RowIsShown(w, rollout, rows, key);
        SendIsAStep(w, rollout, rows, key);
        TakeKeepsShape(w, steps[0]);
        PassIsSends(Take(w, steps[0]), rollout, after, list[1..], sends - 1);
        assert steps[1..] == SendsOf(Take(w, steps[0]), rollout, after, list[1..], sends - 1);
      } else {
        NotARolloutRow(w, rollout, rows, list[0]);
        OtherSend(w, rollout, rows, list[0]);
        PassIsSends(w, rollout, after, list[1..], sends - 1);
      }
    }
  }

  lemma RowIsShown(w: World, rollout: string, rows: Rows<string>, key: CommandKey)
    requires Shows(rows, w.queue, rollout) && key in w.queue
    ensures CommandId(rollout, key) in rows && rows[CommandId(rollout, key)] == w.queue[key]
  {
    hide CommandId;
  }

  lemma NotARolloutRow(w: World, rollout: string, rows: Rows<string>, id: string)
    requires Shows(rows, w.queue, rollout) && id in rows && !exists key :: CommandId(rollout, key) == id && key in w.queue
    ensures forall key: CommandKey {:trigger CommandId(rollout, key)} :: CommandId(rollout, key) != id
  {
    hide CommandId;
  }
}
