/** The transactional outbox: rows written with the change they announce, relayed to a stream by any
    number of concurrent relays, each of which can crash at any point before it commits. */
module Outbox {
  import opened Wrappers

  /** Event ids are row numbers, in the order in which rows were committed. */
  datatype Row = Row(attempts: nat, published: bool, error: string)

  /** The stream: how many copies it holds of each event, the ids its deduplication still remembers, and
      how often it has forgotten each. */
  datatype Stream = Stream(copies: map<nat, nat>, window: set<nat>, lapses: map<nat, nat>)

  datatype Outcome = Acked | NotPublished(error: string)

  /** A relay transaction: the rows it has locked and what became of publishing each. */
  datatype Flight = Flight(claimed: set<nat>, outcomes: map<nat, Outcome>)

  datatype State = State(rows: seq<Row>, stream: Stream, sent: set<nat>, flights: map<nat, Flight>, limit: nat)

  function CopiesOf(s: Stream, id: nat): nat {
    if id in s.copies then s.copies[id] else 0
  }

  function LapsesOf(s: Stream, id: nat): nat {
    if id in s.lapses then s.lapses[id] else 0
  }

  predicate Stored(s: Stream, id: nat) {
    CopiesOf(s, id) > 0
  }

  /** A message reaches the stream: within the window a second one is acknowledged but not stored. */
  function Land(s: Stream, id: nat): Stream {
    if id in s.window then s else s.(copies := s.copies[id := CopiesOf(s, id) + 1], window := s.window + {id})
  }

  function Forget(s: Stream, id: nat): Stream {
    if id !in s.window then s else s.(window := s.window - {id}, lapses := s.lapses[id := LapsesOf(s, id) + 1])
  }

  /** What committing an outcome does to its row. */
  function Settled(row: Row, outcome: Outcome, limit: nat): Row {
    match outcome
    case Acked => row.(published := true, error := "")
    case NotPublished(error) =>
      Row(row.attempts + 1, row.published || row.attempts + 1 >= limit, error)
  }

  predicate Locked(s: State, id: nat) {
    exists relay | relay in s.flights :: id in s.flights[relay].claimed
  }

  datatype Step =
    | Append
    | Claim(relay: nat, ids: set<nat>)
    | Send(relay: nat, id: nat)
    | Arrive(id: nat)
    | GetAck(relay: nat, id: nat)
    | GiveUp(relay: nat, id: nat, error: string)
    | Commit(relay: nat)
    | Crash(relay: nat)
    | Lapse(id: nat)
    | WriteBack(id: nat, error: string)

  predicate Holds(s: State, relay: nat, id: nat) {
    relay in s.flights && id in s.flights[relay].claimed && id !in s.flights[relay].outcomes
  }

  predicate Enabled(s: State, step: Step) {
    match step
    case Append => true
    case Claim(relay, ids) =>
      relay !in s.flights && forall id | id in ids :: id < |s.rows| && !s.rows[id].published && !Locked(s, id)
    case Send(relay, id) => Holds(s, relay, id)
    case Arrive(id) => id in s.sent // a message can arrive long after its relay gave up on it
    case GetAck(relay, id) => Holds(s, relay, id) && Stored(s.stream, id)
    case GiveUp(relay, id, error) => Holds(s, relay, id) && error != ""
    case Commit(relay) => relay in s.flights && s.flights[relay].claimed <= s.flights[relay].outcomes.Keys
    case Crash(relay) => relay in s.flights
    case Lapse(id) => true
    case WriteBack(id, _) => id < |s.rows| && Stored(s.stream, id) && !Locked(s, id)
  }

  function CommitRows(rows: seq<Row>, f: Flight, limit: nat): (after: seq<Row>)
    ensures |after| == |rows|
    ensures forall id | 0 <= id < |rows| ::
              after[id] == if id in f.claimed && id in f.outcomes then Settled(rows[id], f.outcomes[id], limit) else rows[id]
  {
    seq(|rows|, id requires 0 <= id < |rows| =>
      if id in f.claimed && id in f.outcomes then Settled(rows[id], f.outcomes[id], limit) else rows[id])
  }

  function WithOutcome(s: State, relay: nat, id: nat, outcome: Outcome): State
    requires relay in s.flights
  {
    var f := s.flights[relay];
    s.(flights := s.flights[relay := f.(outcomes := f.outcomes[id := outcome])])
  }

  function Take(s: State, step: Step): State
    requires Enabled(s, step)
  {
    match step
    case Append => s.(rows := s.rows + [Row(0, false, "")])
    case Claim(relay, ids) => s.(flights := s.flights[relay := Flight(ids, map[])])
    case Send(relay, id) => s.(sent := s.sent + {id})
    case Arrive(id) => s.(stream := Land(s.stream, id))
    case GetAck(relay, id) => WithOutcome(s, relay, id, Acked)
    case GiveUp(relay, id, error) => WithOutcome(s, relay, id, NotPublished(error))
    case Commit(relay) =>
      s.(rows := CommitRows(s.rows, s.flights[relay], s.limit), flights := s.flights - {relay})
    case Crash(relay) => s.(flights := s.flights - {relay})
    case Lapse(id) => s.(stream := Forget(s.stream, id))
    case WriteBack(id, error) => s.(rows := s.rows[id := s.rows[id].(error := error)])
  }

  predicate EnabledRun(s: State, steps: seq<Step>)
    decreases |steps|
  {
    steps == [] || (Enabled(s, steps[0]) && EnabledRun(Take(s, steps[0]), steps[1..]))
  }

  function Run(s: State, steps: seq<Step>): State
    requires EnabledRun(s, steps)
    decreases |steps|
  {
    if steps == [] then s else Run(Take(s, steps[0]), steps[1..])
  }

  predicate Started(s: State) {
    s.rows == [] && s.stream == Stream(map[], {}, map[]) && s.sent == {} && s.flights == map[] && s.limit > 0
  }

  // ----- No event is lost

  predicate DeadLettered(row: Row, limit: nat) {
    row.published && row.attempts >= limit && row.error != ""
  }

  predicate Accounted(s: State, id: nat)
    requires id < |s.rows|
  {
    var row := s.rows[id];
    (!row.published && row.attempts < s.limit) || Stored(s.stream, id) || DeadLettered(row, s.limit)
  }

  predicate RowOk(s: State, id: nat)
    requires id < |s.rows|
  {
    Accounted(s, id) && s.rows[id].attempts <= s.limit && (!s.rows[id].published ==> s.rows[id].attempts < s.limit)
  }

  predicate FlightOk(s: State, relay: nat)
    requires relay in s.flights
  {
    var f := s.flights[relay];
    && f.outcomes.Keys <= f.claimed
    && (forall id | id in f.claimed :: id < |s.rows| && !s.rows[id].published)
    && (forall id | id in f.outcomes ::
          if f.outcomes[id].Acked? then Stored(s.stream, id) else f.outcomes[id].error != "")
  }

  predicate Exclusive(s: State) {
    forall a, b | a in s.flights && b in s.flights && a != b :: s.flights[a].claimed !! s.flights[b].claimed
  }

  ghost predicate CopiesOk(s: State) {
    forall id {:trigger CopiesOf(s.stream, id)} | 0 <= id ::
      CopiesOf(s.stream, id) <= LapsesOf(s.stream, id) + (if id in s.stream.window then 1 else 0)
  }

  ghost predicate Inv(s: State) {
    && s.limit > 0
    && (forall id | 0 <= id < |s.rows| :: RowOk(s, id))
    && (forall relay | relay in s.flights :: FlightOk(s, relay))
    && Exclusive(s)
    && CopiesOk(s)
    && (forall id | id in s.stream.window :: Stored(s.stream, id))
  }

  lemma StreamStepKeeps(s: State, step: Step)
    requires Inv(s) && Enabled(s, step) && (step.Arrive? || step.Lapse?)
    ensures Inv(Take(s, step))
  {
    var v := Take(s, step);
    assert forall id {:trigger CopiesOf(v.stream, id)} | 0 <= id :: CopiesOf(s.stream, id) <= CopiesOf(v.stream, id);
    forall id | 0 <= id < |v.rows| ensures RowOk(v, id) {
      assert RowOk(s, id);
    }
    forall relay | relay in v.flights ensures FlightOk(v, relay) {
      assert FlightOk(s, relay);
    }
  }

  lemma ClaimKeeps(s: State, relay: nat, ids: set<nat>)
    requires Inv(s) && Enabled(s, Claim(relay, ids))
    ensures Inv(Take(s, Claim(relay, ids)))
  {
    var v := Take(s, Claim(relay, ids));
    forall id | 0 <= id < |v.rows| ensures RowOk(v, id) {
      assert RowOk(s, id);
    }
    forall other | other in v.flights ensures FlightOk(v, other) {
      assert other != relay ==> FlightOk(s, other);
    }
    assert forall id | id in ids :: !Locked(s, id);
  }

  lemma OutcomeKeeps(s: State, relay: nat, id: nat, outcome: Outcome)
    requires Inv(s) && Holds(s, relay, id)
    requires if outcome.Acked? then Stored(s.stream, id) else outcome.error != ""
    ensures Inv(WithOutcome(s, relay, id, outcome))
  {
    var v := WithOutcome(s, relay, id, outcome);
    forall row | 0 <= row < |v.rows| ensures RowOk(v, row) {
      assert RowOk(s, row);
    }
    forall other | other in v.flights ensures FlightOk(v, other) {
      assert FlightOk(s, other);
    }
    assert forall other | other in v.flights :: v.flights[other].claimed == s.flights[other].claimed;
  }

  lemma CommitKeeps(s: State, relay: nat)
    requires Inv(s) && Enabled(s, Commit(relay))
    ensures Inv(Take(s, Commit(relay)))
  {
    var v := Take(s, Commit(relay));
    var f := s.flights[relay];
    assert FlightOk(s, relay);
    forall id | 0 <= id < |v.rows| ensures RowOk(v, id) {
      assert RowOk(s, id);
    }
    forall other | other in v.flights ensures FlightOk(v, other) {
      assert FlightOk(s, other);
      assert s.flights[other].claimed !! f.claimed;
    }
  }

  lemma RowStepKeeps(s: State, step: Step)
    requires Inv(s) && Enabled(s, step) && (step.Append? || step.WriteBack? || step.Crash? || step.Send?)
    ensures Inv(Take(s, step))
  {
    var v := Take(s, step);
    forall id | 0 <= id < |v.rows| ensures RowOk(v, id) {
      assert id < |s.rows| ==> RowOk(s, id);
    }
    forall relay | relay in v.flights ensures FlightOk(v, relay) {
      assert FlightOk(s, relay);
    }
  }

  lemma {:induction false} RunKeeps(s: State, steps: seq<Step>)
    requires Inv(s) && EnabledRun(s, steps)
    ensures Inv(Run(s, steps)) && Run(s, steps).limit == s.limit
    decreases |steps|
  {
    if steps != [] {
      match steps[0] {
        case Claim(relay, ids) => ClaimKeeps(s, relay, ids);
        case Arrive(_) => StreamStepKeeps(s, steps[0]);
        case Lapse(_) => StreamStepKeeps(s, steps[0]);
        case GetAck(relay, id) => OutcomeKeeps(s, relay, id, Acked);
        case GiveUp(relay, id, error) => OutcomeKeeps(s, relay, id, NotPublished(error));
        case Commit(relay) => CommitKeeps(s, relay);
        case _ => RowStepKeeps(s, steps[0]);
      }
      RunKeeps(Take(s, steps[0]), steps[1..]);
    }
  }

  /** No event is lost, in any interleaving of relays, crashes, late arrivals and forgotten ids: every
      committed row is still to be relayed with attempts to spare, or in the stream, or marked published
      as a dead letter with its error. */
  lemma NoEventIsLost(s: State, steps: seq<Step>)
    requires Started(s) && EnabledRun(s, steps)
    ensures var v := Run(s, steps); forall id | 0 <= id < |v.rows| :: Accounted(v, id)
  {
    RunKeeps(s, steps);
    var v := Run(s, steps);
    forall id | 0 <= id < |v.rows| ensures Accounted(v, id) {
      assert RowOk(v, id);
    }
  }

  /** However often crashed relays publish an event again, the stream holds at most one copy of it per time
      its deduplication window ran out, plus one. */
  lemma OneCopyPerWindow(s: State, steps: seq<Step>, id: nat)
    requires Started(s) && EnabledRun(s, steps)
    ensures CopiesOf(Run(s, steps).stream, id) <= 1 + LapsesOf(Run(s, steps).stream, id)
  {
    RunKeeps(s, steps);
  }

  /** A message that comes again within the window is not stored again; once the window has run out it is, so
      there can be one copy more for each time it does. */
  lemma WindowDecides(s: State, id: nat)
    requires id in s.sent && id in s.stream.window
    ensures EnabledRun(s, [Arrive(id)]) && Run(s, [Arrive(id)]) == s
    ensures EnabledRun(s, [Lapse(id), Arrive(id)])
    ensures var v := Run(s, [Lapse(id), Arrive(id)]);
            CopiesOf(v.stream, id) == CopiesOf(s.stream, id) + 1 && LapsesOf(v.stream, id) == LapsesOf(s.stream, id) + 1
            && id in v.stream.window && v.rows == s.rows && v.flights == s.flights
  {
    assert [Arrive(id)][1..] == [] && [Lapse(id), Arrive(id)][1..] == [Arrive(id)];
    var lapsed := Take(s, Lapse(id));
    assert EnabledRun(Take(lapsed, Arrive(id)), []);
    assert EnabledRun(lapsed, [Arrive(id)]) && Run(lapsed, [Arrive(id)]) == Take(lapsed, Arrive(id));
  }

  /** No two relays ever work on the same row. */
  lemma RelaysNeverShareARow(s: State, steps: seq<Step>, a: nat, b: nat, id: nat)
    requires Started(s) && EnabledRun(s, steps) && a != b
    requires a in Run(s, steps).flights && b in Run(s, steps).flights && id in Run(s, steps).flights[a].claimed
    ensures id !in Run(s, steps).flights[b].claimed
  {
    RunKeeps(s, steps);
    assert Run(s, steps).flights[a].claimed !! Run(s, steps).flights[b].claimed;
  }

  lemma StepKeepsPublished(s: State, step: Step, id: nat)
    requires Inv(s) && Enabled(s, step) && id < |s.rows| && s.rows[id].published
    ensures id < |Take(s, step).rows| && Take(s, step).rows[id].published
  {
    if step.Commit? {
      assert FlightOk(s, step.relay);
    }
  }

  /** A published row stays published in every run, and no relay ever has it again. */
  lemma {:induction false} PublishedForGood(s: State, steps: seq<Step>, id: nat)
    requires Inv(s) && EnabledRun(s, steps) && id < |s.rows| && s.rows[id].published
    ensures id < |Run(s, steps).rows| && Run(s, steps).rows[id].published
    ensures forall relay | relay in Run(s, steps).flights :: id !in Run(s, steps).flights[relay].claimed
    decreases |steps|
  {
    if steps == [] {
      forall relay | relay in s.flights ensures id !in s.flights[relay].claimed {
        assert FlightOk(s, relay);
      }
    } else {
      StepKeepsPublished(s, steps[0], id);
      RunKeeps(s, [steps[0]]);
      assert [steps[0]][1..] == [];
      PublishedForGood(Take(s, steps[0]), steps[1..], id);
    }
  }

  // ----- Dead letters of handlers

  /** Nothing more is written back to the row. */
  predicate LeavesError(steps: seq<Step>, id: nat) {
    forall i | 0 <= i < |steps| :: !(steps[i].WriteBack? && steps[i].id == id)
  }

  /** The error a handler's dead letter leaves on a row stays there for good if the row was already marked
      published, that is, if no relay will touch it again. */
  lemma {:induction false} WrittenBackErrorStays(s: State, steps: seq<Step>, id: nat)
    requires Inv(s) && EnabledRun(s, steps) && id < |s.rows| && s.rows[id].published
    requires LeavesError(steps, id)
    ensures id < |Run(s, steps).rows| && Run(s, steps).rows[id] == s.rows[id]
    decreases |steps|
  {
    if steps != [] {
      if steps[0].Commit? {
        assert FlightOk(s, steps[0].relay);
      }
      RunKeeps(s, [steps[0]]);
      assert [steps[0]][1..] == [];
      WrittenBackErrorStays(Take(s, steps[0]), steps[1..], id);
    }
  }

  /** If the relay crashed after publishing, the row is not marked yet; an error written back to it is
      erased when a relay, any one that is free, publishes the event again. */
  lemma UnmarkedRowLosesItsDeadLetter(s: State, relay: nat, id: nat, error: string)
    requires Enabled(s, WriteBack(id, error)) && !s.rows[id].published && relay !in s.flights
    ensures var steps := [WriteBack(id, error), Claim(relay, {id}), GetAck(relay, id), Commit(relay)];
            EnabledRun(s, steps) && id < |Run(s, steps).rows| && Run(s, steps).rows[id].error == ""
  {
    var steps := [WriteBack(id, error), Claim(relay, {id}), GetAck(relay, id), Commit(relay)];
    var a := Take(s, steps[0]);
    assert !Locked(a, id) by {
      assert a.flights == s.flights;
    }
    var b := Take(a, Claim(relay, {id}));
    var c := Take(b, GetAck(relay, id));
    var d := Take(c, Commit(relay));
    assert steps[1..] == [Claim(relay, {id}), GetAck(relay, id), Commit(relay)];
    assert steps[1..][1..] == [GetAck(relay, id), Commit(relay)];
    assert steps[1..][1..][1..] == [Commit(relay)];
    assert steps[1..][1..][1..][1..] == [];
    assert EnabledRun(d, []);
    assert EnabledRun(c, [Commit(relay)]);
    assert EnabledRun(b, steps[1..][1..]);
    assert EnabledRun(a, steps[1..]);
    assert Run(c, [Commit(relay)]) == Run(d, []) == d;
    assert Run(b, steps[1..][1..]) == d;
    assert Run(a, steps[1..]) == d;
  }

  lemma {:induction false} FreeRelay(busy: set<nat>) returns (relay: nat)
    ensures forall other | other in busy :: other < relay
    decreases busy
  {
    relay := 0;
    if busy != {} {
      var one :| one in busy;
      var above := FreeRelay(busy - {one});
      relay := if above > one then above else one + 1;
      assert forall other | other in busy :: other == one || other in busy - {one};
    }
  }

  /** Whatever relays, crashes and late messages follow, the row shows this error. */
  ghost predicate ErrorStays(s: State, id: nat, error: string) {
    forall steps | EnabledRun(s, steps) && LeavesError(steps, id) ::
      id < |Run(s, steps).rows| && Run(s, steps).rows[id].error == error
  }

  /** An error written back stays in every run, other relays in the middle of their work included, exactly if
      the row was marked published when it was written. */
  lemma WrittenBackErrorStaysExactly(s: State, id: nat, error: string)
    requires Inv(s) && Enabled(s, WriteBack(id, error)) && error != ""
    ensures ErrorStays(Take(s, WriteBack(id, error)), id, error) <==> s.rows[id].published
  {
    var written := Take(s, WriteBack(id, error));
    RowStepKeeps(s, WriteBack(id, error));
    if s.rows[id].published {
      forall steps | EnabledRun(written, steps) && LeavesError(steps, id)
        ensures id < |Run(written, steps).rows| && Run(written, steps).rows[id].error == error
      {
        WrittenBackErrorStays(written, steps, id);
      }
    } else {
      ErrorIsErased(s, id, error);
    }
  }

  lemma ErrorIsErased(s: State, id: nat, error: string)
    requires Enabled(s, WriteBack(id, error)) && error != "" && !s.rows[id].published
    ensures !ErrorStays(Take(s, WriteBack(id, error)), id, error)
  {
    var relay := FreeRelay(s.flights.Keys);
    var rest := [Claim(relay, {id}), GetAck(relay, id), Commit(relay)];
    var steps := [WriteBack(id, error)] + rest;
    UnmarkedRowLosesItsDeadLetter(s, relay, id, error);
    assert steps == [WriteBack(id, error), Claim(relay, {id}), GetAck(relay, id), Commit(relay)];
    assert steps[1..] == rest;
    var written := Take(s, WriteBack(id, error));
    assert EnabledRun(written, rest) && Run(written, rest) == Run(s, steps);
    assert LeavesError(rest, id);
    hide EnabledRun, Run, Enabled, Take;
  }
}
