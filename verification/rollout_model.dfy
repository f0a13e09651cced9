/** Staged rollouts as values: the stored state, the single-transaction writes each operation issues,
    and runs in which every actor of the system takes steps in any order. */
module RolloutModel {
  import opened Wrappers
  import opened Stages
  import opened ClusterSets
  import opened CommandIds
  import opened CommandQueue

  datatype RolloutState = Pending | Running | WaitingGate | Paused | Failed | Completed | RolledBack

  datatype TargetStatus = TargetPending | TargetDelivered | TargetHealthy | TargetFailed

  /** One cluster's row in one stage; the command is set once it is delivered. */
  datatype Target = Target(cluster: string, status: TargetStatus, command: Option<CommandKey>)

  datatype Side = Before | After

  datatype GateContext = GateContext(side: Side, kind: GateKind, enteredAt: int, approvalId: Option<nat>)

  datatype ApprovalState = ApprovalPending | Approved | Rejected | Withdrawn

  /** An approval request made for a gate of this rollout. */
  datatype GateApproval = GateApproval(stage: nat, side: Side, state: ApprovalState)

  /** Everything one rollout's progress depends on. The target rows of a stage are kept in listing
      order. `entered` and `acked` are the trails of gate entries and of acknowledgements. */
  datatype World = World(
    stages: seq<Stage>, desired: string, about: About,
    state: RolloutState, stage: nat, gate: Option<GateContext>,
    targets: seq<seq<Target>>,
    queue: Rows<CommandKey>,
    approvals: seq<GateApproval>,
    fleet: Fleet, now: int,
    entered: map<(nat, Side), int>, acked: set<CommandKey>)

  const COMMAND_TYPE := "inari.fleet.RolloutApply"

  predicate CanRolloutTransition(from: RolloutState, to: RolloutState) {
    match from
    case Pending => to in {Running, Failed}
    case Running => to in {WaitingGate, Paused, Failed, Completed, RolledBack}
    case WaitingGate => to in {Running, Paused, Failed, RolledBack}
    case Paused => to in {Running, WaitingGate, Failed, RolledBack}
    case Failed => to in {RolledBack, Running}
    case Completed => to in {RolledBack}
    case RolledBack => false
  }

  // ----- Rows of one stage

  function Find(rows: seq<Target>, cluster: string): (r: Option<nat>)
    ensures r.Some? ==> r.value < |rows| && rows[r.value].cluster == cluster
    ensures r.Some? ==> forall j | 0 <= j < r.value :: rows[j].cluster != cluster
    ensures r.None? ==> forall j | 0 <= j < |rows| :: rows[j].cluster != cluster
  {
    if rows == [] then None
    else if rows[0].cluster == cluster then Some(0)
    else
      match Find(rows[1..], cluster)
      case None => None
      case Some(i) => Some(i + 1)
  }

  function Upsert(rows: seq<Target>, t: Target): seq<Target> {
    match Find(rows, t.cluster)
    case None => rows + [t]
    case Some(i) => rows[i := t]
  }

  function SetRowStatus(rows: seq<Target>, cluster: string, status: TargetStatus): seq<Target> {
    match Find(rows, cluster)
    case None => rows
    case Some(i) => rows[i := rows[i].(status := status)]
  }

  function Count(rows: seq<Target>, status: TargetStatus): nat {
    if rows == [] then 0 else (if rows[0].status == status then 1 else 0) + Count(rows[1..], status)
  }

  /** A row after its command's answer, if any, has been taken into account. */
  function Settle(t: Target, queue: Rows<CommandKey>): Target {
    if t.status.TargetDelivered? && t.command.Some? && t.command.value in queue then
      match queue[t.command.value].status
      case CommandAcked => t.(status := TargetHealthy)
      case CommandNacked => t.(status := TargetFailed)
      case _ => t
    else t
  }

  function SettleAll(rows: seq<Target>, queue: Rows<CommandKey>): (r: seq<Target>)
    ensures |r| == |rows|
    ensures forall i | 0 <= i < |rows| :: r[i] == Settle(rows[i], queue)
  {
    if rows == [] then [] else [Settle(rows[0], queue)] + SettleAll(rows[1..], queue)
  }

  // ----- Writes: each is one transaction

  datatype Write =
    | Cas(from: RolloutState, to: RolloutState, stage: nat, gate: Option<GateContext>)
    | UpsertTarget(stage: nat, target: Target)
    | SetTargetStatus(stage: nat, cluster: string, status: TargetStatus)
    | EnqueueCommand(key: CommandKey, version: string)
    | RequestApproval(stage: nat, side: Side)
    | LinkApproval(stage: nat, side: Side, id: nat)

  function Commit(w: World, write: Write): World {
    match write
    case Cas(from, to, stage, gate) =>
      if w.state != from then w
      else w.(state := to, stage := stage, gate := gate,
              entered := if to.WaitingGate? && gate.Some? then w.entered[(stage, gate.value.side) := gate.value.enteredAt]
                         else w.entered)
    case UpsertTarget(s, t) =>
      if s < |w.targets| then w.(targets := w.targets[s := Upsert(w.targets[s], t)]) else w
    case SetTargetStatus(s, cluster, status) =>
      if s < |w.targets| then w.(targets := w.targets[s := SetRowStatus(w.targets[s], cluster, status)]) else w
    case EnqueueCommand(key, version) =>
      w.(queue := AfterEnqueue(w.queue, key, key.cluster, COMMAND_TYPE, DesiredState(w.about, version), w.now))
    case RequestApproval(s, side) =>
      w.(approvals := w.approvals + [GateApproval(s, side, ApprovalPending)])
    case LinkApproval(s, side, id) =>
      if w.state.WaitingGate? && w.stage == s && w.gate.Some? && w.gate.value.side == side && w.gate.value.approvalId.None?
      then w.(gate := Some(w.gate.value.(approvalId := Some(id))))
      else w
  }

  function CommitAll(w: World, writes: seq<Write>): World
    decreases |writes|
  {
    if writes == [] then w else CommitAll(Commit(w, writes[0]), writes[1..])
  }

  /** The first `n` writes got through, then the process crashed or a write failed. */
  function CommitPrefix(w: World, writes: seq<Write>, n: nat): World {
    CommitAll(w, if n < |writes| then writes[..n] else writes)
  }

  // ----- What each operation writes

  function Transition(w: World, to: RolloutState, stage: nat, gate: Option<GateContext>): seq<Write> {
    if CanRolloutTransition(w.state, to) then [Cas(w.state, to, stage, gate)] else []
  }

  function Start(w: World): seq<Write> {
    Transition(w, Running, 0, None)
  }

  function Stop(w: World): seq<Write> {
    Transition(w, Paused, w.stage, w.gate)
  }

  function Resume(w: World): seq<Write> {
    Transition(w, if w.gate.Some? then WaitingGate else Running, w.stage, w.gate)
  }

  function ClearGate(w: World): seq<Write> {
    Transition(w, Running, if w.gate.Some? && w.gate.value.side.After? then w.stage + 1 else w.stage, None)
  }

  predicate Parked(w: World) {
    w.state.WaitingGate? || w.state.Paused?
  }

  function GateApproved(w: World, stage: nat, side: Side): seq<Write> {
    if w.stage != stage || w.gate.None? || w.gate.value.side != side || !Parked(w) then [] else ClearGate(w)
  }

  /** A rejection names the stage only: it fails the rollout on either gate of that stage. */
  function GateRejected(w: World, stage: nat): seq<Write> {
    if w.stage != stage || w.gate.None? || !Parked(w) then [] else Transition(w, Failed, w.stage, w.gate)
  }

  /** The handler of one approval.decided event, for any number of deliveries of it. */
  function Handle(w: World, id: nat): seq<Write> {
    if id >= |w.approvals| then []
    else
      var a := w.approvals[id];
      match a.state
      case Approved => GateApproved(w, a.stage, a.side)
      case Rejected => GateRejected(w, a.stage)
      case _ => [] // not decided: there is no event
  }

  function GateOf(w: World, stage: nat, side: Side): Option<GateKind> {
    if stage >= |w.stages| then None
    else if side.Before? then w.stages[stage].beforeGate
    else w.stages[stage].afterGate
  }

  function AskFor(w: World, stage: nat, side: Side): seq<Write> {
    [RequestApproval(stage, side), LinkApproval(stage, side, |w.approvals|)]
  }

  function EnterGate(w: World, stage: nat, side: Side, kind: GateKind): seq<Write> {
    Transition(w, WaitingGate, stage, Some(GateContext(side, kind, w.now, None)))
    + (if kind.Approval? && CanRolloutTransition(w.state, WaitingGate) then AskFor(w, stage, side) else [])
  }

  function Members(w: World, stage: nat): Option<seq<string>>
    requires stage < |w.stages|
  {
    StageMembers(w.fleet, w.stages[stage].clusterSetIds)
  }

  function Slots(w: World, stage: nat, total: nat): Option<int>
    requires stage < |w.stages|
  {
    match ParseMaxConcurrency(w.stages[stage].maxConcurrency, total)
    case Ok(n) => Some(n)
    case Err(_) => None
  }

  function Seed(stage: nat, members: seq<string>): seq<Write> {
    if members == [] then []
    else [UpsertTarget(stage, Target(members[0], TargetPending, None))] + Seed(stage, members[1..])
  }

  function SeedRows(members: seq<string>): seq<Target> {
    if members == [] then [] else [Target(members[0], TargetPending, None)] + SeedRows(members[1..])
  }

  function ApplyKey(stage: nat, cluster: string): CommandKey {
    CommandKey(stage, cluster, Apply)
  }

  function Hand(stage: nat, cluster: string, version: string): seq<Write> {
    [EnqueueCommand(ApplyKey(stage, cluster), version),
     UpsertTarget(stage, Target(cluster, TargetDelivered, Some(ApplyKey(stage, cluster))))]
  }

  /** Up to `slots` pending rows, in listing order: enqueue the command, then mark the row. */
  function DeliverBatch(stage: nat, rows: seq<Target>, slots: int, version: string): seq<Write> {
    if slots <= 0 || rows == [] then []
    else if !rows[0].status.TargetPending? then DeliverBatch(stage, rows[1..], slots, version)
    else Hand(stage, rows[0].cluster, version) + DeliverBatch(stage, rows[1..], slots - 1, version)
  }

  function Reconcile(stage: nat, rows: seq<Target>, queue: Rows<CommandKey>): seq<Write> {
    if rows == [] then []
    else
      var settled := Settle(rows[0], queue).status;
      (if settled == rows[0].status then [] else [SetTargetStatus(stage, rows[0].cluster, settled)])
      + Reconcile(stage, rows[1..], queue)
  }

  function TopUp(w: World, stage: nat, rows: seq<Target>): seq<Write>
    requires stage < |w.stages|
  {
    match Members(w, stage)
    case None => []
    case Some(members) =>
      match Slots(w, stage, |members|)
      case None => []
      case Some(n) => DeliverBatch(stage, rows, n - Count(rows, TargetDelivered), w.desired)
  }

  /** A stage without rows: seed every member, then park on the before gate or deliver at once. */
  function EnterStage(w: World): seq<Write>
    requires w.stage < |w.stages|
  {
    match Members(w, w.stage)
    case None => []
    case Some(members) =>
      if members == [] then Transition(w, Failed, w.stage, w.gate)
      else Seed(w.stage, members) + AfterSeeding(w, members)
  }

  function AfterSeeding(w: World, members: seq<string>): seq<Write>
    requires w.stage < |w.stages|
  {
    match w.stages[w.stage].beforeGate
    case Some(kind) => EnterGate(w, w.stage, Before, kind)
    case None =>
      match Slots(w, w.stage, |members|)
      case None => []
      case Some(n) => DeliverBatch(w.stage, SeedRows(members), n, w.desired)
  }

  /** A seeded stage: take the answers in, then fail, top up, park on the after gate or move on. */
  function DriveStage(w: World): seq<Write>
    requires w.stage < |w.stages| && w.stage < |w.targets|
  {
    var rows := SettleAll(w.targets[w.stage], w.queue);
    Reconcile(w.stage, w.targets[w.stage], w.queue) + AfterReconcile(w, rows)
  }

  function AfterReconcile(w: World, rows: seq<Target>): seq<Write>
    requires w.stage < |w.stages|
  {
    if Count(rows, TargetFailed) > 0 then Transition(w, Failed, w.stage, w.gate)
    else if Count(rows, TargetPending) + Count(rows, TargetDelivered) > 0 then TopUp(w, w.stage, rows)
    else
      match w.stages[w.stage].afterGate
      case Some(kind) => EnterGate(w, w.stage, After, kind)
      case None => [Cas(w.state, w.state, w.stage + 1, None)]
  }

  predicate WaitOver(w: World, gate: GateContext) {
    gate.kind.Wait? && w.now >= gate.enteredAt + gate.kind.seconds
  }

  /** The writes of one advanceOnce: everything is decided by the state it reads first. */
  function AdvanceOnce(w: World): seq<Write>
    requires |w.targets| == |w.stages|
  {
    match w.state
    case WaitingGate =>
      if w.gate.None? then ClearGate(w)
      else if w.gate.value.kind.Approval? && w.gate.value.approvalId.None? then AskFor(w, w.stage, w.gate.value.side)
      else if WaitOver(w, w.gate.value) then ClearGate(w)
      else []
    case Running =>
      if w.stage >= |w.stages| then Transition(w, Completed, w.stage, None)
      else if w.targets[w.stage] == [] then EnterStage(w)
      else DriveStage(w)
    case _ => []
  }

  /** advanceOnce reports done unless it moved on to the next stage. */
  predicate MovesOn(w: World)
    requires |w.targets| == |w.stages|
  {
    w.state.Running? && w.stage < |w.stages| && w.targets[w.stage] != []
    && (var rows := SettleAll(w.targets[w.stage], w.queue);
        Count(rows, TargetFailed) == 0 && Count(rows, TargetPending) + Count(rows, TargetDelivered) == 0)
    && w.stages[w.stage].afterGate.None?
  }

  function RollbackStage(stage: nat, members: seq<string>, version: string): seq<Write> {
    if members == [] then []
    else [EnqueueCommand(CommandKey(stage, members[0], Rollback), version)] + RollbackStage(stage, members[1..], version)
  }

  /** Commands for the stages below `stage`, last stage first; None when a cluster set is missing,
      together with what was enqueued before that showed. */
  function RollbackFrom(w: World, stage: nat, version: string): (seq<Write>, bool)
    requires stage <= |w.stages|
  {
    if stage == 0 then ([], true)
    else
      match Members(w, stage - 1)
      case None => ([], false)
      case Some(members) =>
        var (rest, ok) := RollbackFrom(w, stage - 1, version);
        (RollbackStage(stage - 1, members, version) + rest, ok)
  }

  predicate CanRollBack(w: World, version: string) {
    version != "" && !w.state.Pending? && !w.state.RolledBack? && version != w.desired
  }

  function RollBack(w: World, version: string): seq<Write> {
    if !CanRollBack(w, version) then []
    else
      var (writes, ok) := RollbackFrom(w, |w.stages|, version);
      writes + (if ok then Transition(w, RolledBack, w.stage, None) else [])
  }

  // ----- Runs

  /** One step of any actor. `committed` says how many writes of an operation got through; sending is one
      turn of the stream's pass over the queue, which skips what it cannot read; an answer is taken as it
      comes, for a command that was sent or not. */
  datatype Step =
    | StartStep
    | StopStep
    | ResumeStep
    | AdvanceStep(committed: nat)
    | RollbackStep(version: string, committed: nat)
    | DecidedStep(id: nat)
    | DecideStep(id: nat, approve: bool)
    | WithdrawStep(id: nat)
    | SendStep(key: CommandKey)
    | AnswerStep(key: CommandKey, ack: bool, message: string)
    | FleetStep(fleet: Fleet)
    | ClockStep(seconds: nat)

  predicate WellFormed(w: World) {
    |w.targets| == |w.stages|
  }

  function Settlement(w: World, id: nat, state: ApprovalState): World {
    if id < |w.approvals| && w.approvals[id].state.ApprovalPending?
    then w.(approvals := w.approvals[id := w.approvals[id].(state := state)])
    else w
  }

  function Take(w: World, step: Step): World
    requires WellFormed(w)
  {
    match step
    case StartStep => CommitAll(w, Start(w))
    case StopStep => CommitAll(w, Stop(w))
    case ResumeStep => CommitAll(w, Resume(w))
    case AdvanceStep(n) => CommitPrefix(w, AdvanceOnce(w), n)
    case RollbackStep(version, n) => CommitPrefix(w, RollBack(w, version), n)
    case DecidedStep(id) => CommitAll(w, Handle(w, id))
    case DecideStep(id, approve) => Settlement(w, id, if approve then Approved else Rejected)
    case WithdrawStep(id) => Settlement(w, id, Withdrawn)
    case SendStep(key) =>
      if key in w.queue && Readable(w.queue[key].payload) then w.(queue := AfterSend(w.queue, key, w.now)) else w
    case AnswerStep(key, ack, message) =>
      w.(queue := AfterAnswer(w.queue, key, if ack then CommandAcked else CommandNacked, message, w.now),
         acked := if ack && key in w.queue then w.acked + {key} else w.acked)
    case FleetStep(fleet) => w.(fleet := fleet)
    case ClockStep(seconds) => w.(now := w.now + seconds)
  }

  /** Writes never change the definition of the rollout, nor how many stages have rows. */
  lemma {:induction false} CommitAllKeepsShape(w: World, writes: seq<Write>)
    ensures var v := CommitAll(w, writes);
            v.stages == w.stages && v.desired == w.desired && v.about == w.about && |v.targets| == |w.targets|
            && v.fleet == w.fleet && v.now == w.now && v.acked == w.acked
    decreases |writes|
  {
    if writes != [] {
      CommitAllKeepsShape(Commit(w, writes[0]), writes[1..]);
    }
  }

  lemma TakeKeepsShape(w: World, step: Step)
    requires WellFormed(w)
    ensures WellFormed(Take(w, step)) && Take(w, step).stages == w.stages && Take(w, step).desired == w.desired && Take(w, step).about == w.about
  {
    match step
    case StartStep => CommitAllKeepsShape(w, Start(w));
    case StopStep => CommitAllKeepsShape(w, Stop(w));
    case ResumeStep => CommitAllKeepsShape(w, Resume(w));
    case AdvanceStep(n) =>
      var writes := AdvanceOnce(w);
      CommitAllKeepsShape(w, if n < |writes| then writes[..n] else writes);
    case RollbackStep(version, n) =>
      var writes := RollBack(w, version);
      CommitAllKeepsShape(w, if n < |writes| then writes[..n] else writes);
    case DecidedStep(id) => CommitAllKeepsShape(w, Handle(w, id));
    case _ =>
  }

  function Run(w: World, steps: seq<Step>): World
    requires WellFormed(w)
    decreases |steps|
  {
    if steps == [] then w
    else
      TakeKeepsShape(w, steps[0]);
      Run(Take(w, steps[0]), steps[1..])
  }

  /** A rollout as created: accepted stages, nothing done yet. */
  predicate Created(w: World) {
    && WellFormed(w) && w.stages != [] && (forall i | 0 <= i < |w.stages| :: StageOk(w.stages[i]))
    && w.state.Pending? && w.stage == 0 && w.gate.None?
    && (forall i | 0 <= i < |w.targets| :: w.targets[i] == [])
    && w.queue == map[] && w.approvals == [] && w.entered == map[] && w.acked == {}
  }
}
