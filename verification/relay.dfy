/** One pass of the outbox relay over the stored rows. */
module Relay {
  import opened Wrappers
  import opened Outbox

  /** What happens to one publish: stored and acknowledged; refused before it is sent; or sent, with the
      acknowledgement failing or not coming in time, whether or not the message arrived. */
  datatype Publish = Succeeds | Refused(error: string) | Unacked(error: string, arrives: bool)

  function OutcomeOf(p: Publish): Outcome {
    match p
    case Succeeds => Acked
    case Refused(error) => NotPublished(error)
    case Unacked(error, _) => NotPublished(error)
  }

  predicate Arrives(p: Publish) {
    p.Succeeds? || (p.Unacked? && p.arrives)
  }

  /** Up to `batch` unpublished rows that nobody else has locked, oldest first. */
  function Polled(rows: seq<Row>, locked: set<nat>, from: nat, batch: nat): seq<nat>
    requires from <= |rows|
    decreases |rows| - from
  {
    if from == |rows| || batch == 0 then []
    else if rows[from].published || from in locked then Polled(rows, locked, from + 1, batch)
    else [from] + Polled(rows, locked, from + 1, batch - 1)
  }

  predicate Free(rows: seq<Row>, locked: set<nat>, id: nat) {
    id < |rows| && !rows[id].published && id !in locked
  }

  lemma {:induction false} PolledIsFree(rows: seq<Row>, locked: set<nat>, from: nat, batch: nat)
    requires from <= |rows|
    ensures var ids := Polled(rows, locked, from, batch);
            |ids| <= batch && forall i | 0 <= i < |ids| :: from <= ids[i] && Free(rows, locked, ids[i])
    decreases |rows| - from
  {
    if from < |rows| && batch > 0 {
      PolledIsFree(rows, locked, from + 1, if Free(rows, locked, from) then batch - 1 else batch);
    }
  }

  lemma {:induction false} PolledInOrder(rows: seq<Row>, locked: set<nat>, from: nat, batch: nat)
    requires from <= |rows|
    ensures var ids := Polled(rows, locked, from, batch); forall i, j | 0 <= i < j < |ids| :: ids[i] < ids[j]
    decreases |rows| - from
  {
    if from < |rows| && batch > 0 {
      var less := if Free(rows, locked, from) then batch - 1 else batch;
      PolledInOrder(rows, locked, from + 1, less);
      PolledIsFree(rows, locked, from + 1, less);
    }
  }

  lemma {:induction false} PolledMissesNone(rows: seq<Row>, locked: set<nat>, from: nat, batch: nat, id: nat)
    requires from <= id && Free(rows, locked, id)
    ensures var ids := Polled(rows, locked, from, batch);
            id in ids || (|ids| == batch && forall i | 0 <= i < |ids| :: ids[i] < id)
    decreases |rows| - from
  {
    if batch > 0 && from < id {
      PolledMissesNone(rows, locked, from + 1, if Free(rows, locked, from) then batch - 1 else batch, id);
    }
  }

  /** Polling finds every row it may take until the batch is full, each once, in order. */
  lemma PolledExactly(rows: seq<Row>, locked: set<nat>, batch: nat)
    ensures var ids := Polled(rows, locked, 0, batch);
            && |ids| <= batch
            && (forall i, j | 0 <= i < j < |ids| :: ids[i] < ids[j])
            && (forall id | id in ids :: Free(rows, locked, id))
            && (forall id | 0 <= id < |rows| && Free(rows, locked, id) ::
                  id in ids || (|ids| == batch && forall other | other in ids :: other < id))
  {
    hide Polled;
    PolledIsFree(rows, locked, 0, batch);
    PolledInOrder(rows, locked, 0, batch);
    var ids := Polled(rows, locked, 0, batch);
    forall id | 0 <= id < |rows| && Free(rows, locked, id)
      ensures id in ids || (|ids| == batch && forall other | other in ids :: other < id)
    {
      PolledMissesNone(rows, locked, 0, batch, id);
    }
  }

  function Landed(stream: Stream, ids: seq<nat>, publish: nat -> Publish): Stream
    decreases |ids|
  {
    if ids == [] then stream
    else Landed(if Arrives(publish(ids[0])) then Land(stream, ids[0]) else stream, ids[1..], publish)
  }

  lemma {:induction false} LandedAppend(stream: Stream, ids: seq<nat>, last: nat, publish: nat -> Publish)
    ensures Landed(stream, ids + [last], publish)
         == var s := Landed(stream, ids, publish); if Arrives(publish(last)) then Land(s, last) else s
    decreases |ids|
  {
    if ids == [] {
      assert ids + [last] == [last] && [last][1..] == [];
    } else {
      assert (ids + [last])[1..] == ids[1..] + [last];
      LandedAppend(if Arrives(publish(ids[0])) then Land(stream, ids[0]) else stream, ids[1..], last, publish);
    }
  }

  function RelayFlight(ids: seq<nat>, publish: nat -> Publish): Flight {
    Flight(set id | id in ids, map id | id in ids :: OutcomeOf(publish(id)))
  }

  /** What a pass does to the rows: one that was acknowledged is published, without an error; any other one
      polled has its error and one attempt more, and is published exactly if that was the last; no other row
      has moved. */
  predicate Relayed(rows: seq<Row>, after: seq<Row>, ids: seq<nat>, publish: nat -> Publish, limit: nat) {
    |after| == |rows| && forall id | 0 <= id < |rows| ::
      after[id] ==
        if id !in ids then rows[id]
        else if publish(id).Succeeds? then rows[id].(published := true, error := "")
        else Row(rows[id].attempts + 1, rows[id].attempts + 1 >= limit, publish(id).error)
  }

  lemma PassRelays(rows: seq<Row>, locked: set<nat>, batch: nat, publish: nat -> Publish, limit: nat)
    ensures var ids := Polled(rows, locked, 0, batch);
            Relayed(rows, CommitRows(rows, RelayFlight(ids, publish), limit), ids, publish, limit)
  {
    PolledExactly(rows, locked, batch);
    hide Polled;
  }

  function AckedCount(outcomes: seq<Outcome>): nat {
    if outcomes == [] then 0
    else AckedCount(outcomes[..|outcomes| - 1]) + (if outcomes[|outcomes| - 1].Acked? then 1 else 0)
  }

  class Dispatcher {
    var rows: seq<Row>
    var stream: Stream
    const batch: nat
    const maxPublishAttempts: nat

    constructor (batch: nat, maxPublishAttempts: nat)
      ensures rows == [] && stream == Stream(map[], {}, map[])
      ensures this.batch == batch && this.maxPublishAttempts == maxPublishAttempts
    {
      rows, stream := [], Stream(map[], {}, map[]);
      this.batch, this.maxPublishAttempts := batch, maxPublishAttempts;
    }

    method Poll(locked: set<nat>) returns (ids: seq<nat>)
      ensures ids == Polled(rows, locked, 0, batch)
    {
      ids := [];
      for id := 0 to |rows|
        invariant |ids| <= batch
        invariant Polled(rows, locked, 0, batch) == ids + Polled(rows, locked, id, batch - |ids|)
      {
        if |ids| == batch {
          break;
        }
        ghost var rest := Polled(rows, locked, id, batch - |ids|);
        if !rows[id].published && id !in locked {
          assert rest == [id] + Polled(rows, locked, id + 1, batch - |ids| - 1);
          ids := ids + [id];
        } else {
          assert rest == Polled(rows, locked, id + 1, batch - |ids|);
        }
      }
    }

    method PublishAll(ids: seq<nat>, publish: nat -> Publish) returns (outcomes: seq<Outcome>)
      modifies this`stream
      ensures |outcomes| == |ids| && forall j | 0 <= j < |ids| :: outcomes[j] == OutcomeOf(publish(ids[j]))
      ensures stream == Landed(old(stream), ids, publish)
    {
      outcomes := [];
      for i := 0 to |ids|
        invariant |outcomes| == i && forall j | 0 <= j < i :: outcomes[j] == OutcomeOf(publish(ids[j]))
        invariant stream == Landed(old(stream), ids[..i], publish)
      {
        assert ids[..i + 1] == ids[..i] + [ids[i]];
        LandedAppend(old(stream), ids[..i], ids[i], publish);
        if Arrives(publish(ids[i])) {
          stream := Land(stream, ids[i]);
        }
        outcomes := outcomes + [OutcomeOf(publish(ids[i]))];
      }
      assert ids[..|ids|] == ids;
    }

    /** The rows as the transaction would leave them. */
    method Mark(ids: seq<nat>, outcomes: seq<Outcome>) returns (marked: seq<Row>, relayed: nat)
      requires |outcomes| == |ids| && forall i | 0 <= i < |ids| :: ids[i] < |rows|
      requires forall i, j | 0 <= i < j < |ids| :: ids[i] < ids[j]
      ensures |marked| == |rows|
      ensures forall j | 0 <= j < |ids| :: marked[ids[j]] == Settled(rows[ids[j]], outcomes[j], maxPublishAttempts)
      ensures forall id | 0 <= id < |rows| && id !in ids :: marked[id] == rows[id]
      ensures relayed == AckedCount(outcomes)
    {
      marked, relayed := rows, 0;
      for i := 0 to |ids|
        invariant |marked| == |rows| && relayed == AckedCount(outcomes[..i])
        invariant forall j | 0 <= j < i :: marked[ids[j]] == Settled(rows[ids[j]], outcomes[j], maxPublishAttempts)
        invariant forall j | i <= j < |ids| :: marked[ids[j]] == rows[ids[j]]
        invariant forall id | 0 <= id < |rows| && id !in ids :: marked[id] == rows[id]
      {
        assert outcomes[..i + 1][..i] == outcomes[..i];
        var row := marked[ids[i]];
        match outcomes[i] {
          case NotPublished(error) =>
            marked := marked[ids[i] := Row(row.attempts + 1, row.published || row.attempts + 1 >= maxPublishAttempts, error)];
          case Acked =>
            relayed := relayed + 1;
            marked := marked[ids[i] := row.(published := true, error := "")];
        }
      }
      assert outcomes[..|ids|] == outcomes;
    }

    /** Claim a batch, publish it, wait for the acknowledgements and mark the rows, all in one transaction
        that may still fail at the end: then the rows are as before, but what was published stays. */
    method RelayOnce(locked: set<nat>, publish: nat -> Publish, commitFails: bool) returns (relayed: nat)
      modifies this`rows, this`stream
      ensures var ids := Polled(old(rows), locked, 0, batch);
              && stream == Landed(old(stream), ids, publish)
              && rows == (if commitFails then old(rows)
                          else CommitRows(old(rows), RelayFlight(ids, publish), maxPublishAttempts))
              && relayed == |Succeeded(ids, publish)|
      ensures if commitFails then rows == old(rows)
              else Relayed(old(rows), rows, Polled(old(rows), locked, 0, batch), publish, maxPublishAttempts)
    {
      PolledExactly(rows, locked, batch);
      var ids := Poll(locked);
      var outcomes := PublishAll(ids, publish);
      assert forall i | 0 <= i < |ids| :: ids[i] in ids;
      var marked;
      marked, relayed := Mark(ids, outcomes);
      CountSucceeded(ids, outcomes, publish);
      ghost var after := CommitRows(rows, RelayFlight(ids, publish), maxPublishAttempts);
      forall id | 0 <= id < |rows| ensures marked[id] == after[id] {
        if id in ids {
          var j :| 0 <= j < |ids| && ids[j] == id;
        }
      }
      PassRelays(rows, locked, batch, publish, maxPublishAttempts);
      if !commitFails {
        rows := marked;
      }
    }
  }

  function Succeeded(ids: seq<nat>, publish: nat -> Publish): set<nat> {
    set id | id in ids && publish(id).Succeeds?
  }

  lemma SucceededSplits(ids: seq<nat>, publish: nat -> Publish)
    requires ids != []
    requires forall i, j | 0 <= i < j < |ids| :: ids[i] < ids[j]
    ensures var n := |ids| - 1;
            |Succeeded(ids, publish)| == |Succeeded(ids[..n], publish)| + (if publish(ids[n]).Succeeds? then 1 else 0)
  {
    var n := |ids| - 1;
    assert ids == ids[..n] + [ids[n]];
    assert ids[n] !in ids[..n];
    assert Succeeded(ids, publish) == Succeeded(ids[..n], publish) + (if publish(ids[n]).Succeeds? then {ids[n]} else {});
  }

  lemma {:induction false} CountSucceeded(ids: seq<nat>, outcomes: seq<Outcome>, publish: nat -> Publish)
    requires |outcomes| == |ids| && forall j | 0 <= j < |ids| :: outcomes[j] == OutcomeOf(publish(ids[j]))
    requires forall i, j | 0 <= i < j < |ids| :: ids[i] < ids[j]
    ensures AckedCount(outcomes) == |Succeeded(ids, publish)|
  {
    if ids == [] {
      assert Succeeded(ids, publish) == {};
    } else {
      hide Succeeded;
      SucceededSplits(ids, publish);
      CountSucceeded(ids[..|ids| - 1], outcomes[..|ids| - 1], publish);
    }
  }

  // ----- A pass is a run of the steps

  function PublishSteps(relay: nat, id: nat, p: Publish): seq<Step> {
    match p
    case Succeeds => [Send(relay, id), Arrive(id), GetAck(relay, id)]
    case Refused(error) => [GiveUp(relay, id, error)]
    case Unacked(error, arrives) =>
      if arrives then [Send(relay, id), Arrive(id), GiveUp(relay, id, error)] else [Send(relay, id), GiveUp(relay, id, error)]
  }

  lemma {:induction false} RunAppend(s: State, a: seq<Step>, b: seq<Step>)
    requires EnabledRun(s, a) && EnabledRun(Run(s, a), b)
    ensures EnabledRun(s, a + b) && Run(s, a + b) == Run(Run(s, a), b)
    decreases |a|
  {
    if a == [] {
      assert a + b == b;
    } else {
      assert (a + b)[1..] == a[1..] + b;
      RunAppend(Take(s, a[0]), a[1..], b);
    }
  }

  function AllPublishSteps(relay: nat, ids: seq<nat>, publish: nat -> Publish): seq<Step> {
    if ids == [] then [] else PublishSteps(relay, ids[0], publish(ids[0])) + AllPublishSteps(relay, ids[1..], publish)
  }

  predicate ErrorsSayWhy(publish: nat -> Publish, ids: seq<nat>) {
    forall id | id in ids :: !publish(id).Succeeds? ==> publish(id).error != ""
  }

  lemma PublishOne(s: State, relay: nat, id: nat, p: Publish)
    requires Holds(s, relay, id) && (!p.Succeeds? ==> p.error != "") && Inv(s)
    ensures EnabledRun(s, PublishSteps(relay, id, p))
    ensures var v := Run(s, PublishSteps(relay, id, p));
            var u := WithOutcome(s, relay, id, OutcomeOf(p));
            && v == u.(stream := if Arrives(p) then Land(s.stream, id) else s.stream, sent := v.sent)
            && Inv(v)
  {
    var steps := PublishSteps(relay, id, p);
    LandStores(s, id);
    if |steps| == 1 {
      StepOne(s, steps[0]);
    } else if |steps| == 2 {
      StepTwo(s, steps[0], steps[1]);
    } else {
      StepThree(s, steps[0], steps[1], steps[2]);
    }
    RunKeeps(s, steps);
  }

  lemma LandStores(s: State, id: nat)
    requires Inv(s)
    ensures Stored(Land(s.stream, id), id)
  {
  }

  lemma StepOne(s: State, a: Step)
    requires Enabled(s, a)
    ensures EnabledRun(s, [a]) && Run(s, [a]) == Take(s, a)
  {
    assert [a][1..] == [];
  }

  lemma StepTwo(s: State, a: Step, b: Step)
    requires Enabled(s, a) && Enabled(Take(s, a), b)
    ensures EnabledRun(s, [a, b]) && Run(s, [a, b]) == Take(Take(s, a), b)
  {
    StepOne(Take(s, a), b);
    assert [a, b][1..] == [b];
  }

  lemma StepThree(s: State, a: Step, b: Step, c: Step)
    requires Enabled(s, a) && Enabled(Take(s, a), b) && Enabled(Take(Take(s, a), b), c)
    ensures EnabledRun(s, [a, b, c]) && Run(s, [a, b, c]) == Take(Take(Take(s, a), b), c)
  {
    StepTwo(Take(s, a), b, c);
    assert [a, b, c][1..] == [b, c];
  }

  function OutcomesOf(ids: seq<nat>, publish: nat -> Publish): map<nat, Outcome> {
    map id | id in ids :: OutcomeOf(publish(id))
  }

  /** From `s` to `v` exactly these ids of one relay's claim have been published. */
  predicate Published(s: State, v: State, relay: nat, ids: seq<nat>, publish: nat -> Publish) {
    && relay in s.flights && relay in v.flights
    && v == s.(stream := Landed(s.stream, ids, publish), sent := v.sent, flights := s.flights[relay := v.flights[relay]])
    && v.flights[relay] == Flight(s.flights[relay].claimed, s.flights[relay].outcomes + OutcomesOf(ids, publish))
  }

  lemma PublishedOne(s: State, v: State, relay: nat, ids: seq<nat>, publish: nat -> Publish)
    requires ids != [] && relay in s.flights && relay in v.flights
    requires var u := WithOutcome(s, relay, ids[0], OutcomeOf(publish(ids[0])));
             v == u.(stream := if Arrives(publish(ids[0])) then Land(s.stream, ids[0]) else s.stream, sent := v.sent)
    ensures Published(s, v, relay, [ids[0]], publish)
  {
    assert [ids[0]][1..] == [];
    assert s.flights[relay].outcomes[ids[0] := OutcomeOf(publish(ids[0]))] == s.flights[relay].outcomes + OutcomesOf([ids[0]], publish);
    assert Landed(v.stream, [], publish) == v.stream;
  }

  lemma OutcomesCompose(ids: seq<nat>, publish: nat -> Publish, outcomes: map<nat, Outcome>)
    requires ids != []
    ensures outcomes + OutcomesOf(ids, publish) == (outcomes + OutcomesOf([ids[0]], publish)) + OutcomesOf(ids[1..], publish)
  {
    assert ids == [ids[0]] + ids[1..];
  }

  lemma LandedCompose(stream: Stream, ids: seq<nat>, publish: nat -> Publish)
    requires ids != []
    ensures Landed(stream, ids, publish) == Landed(Landed(stream, [ids[0]], publish), ids[1..], publish)
  {
    assert [ids[0]][1..] == [];
  }

  lemma PublishedCompose(s: State, u: State, v: State, relay: nat, ids: seq<nat>, publish: nat -> Publish)
    requires ids != [] && Published(s, u, relay, [ids[0]], publish) && Published(u, v, relay, ids[1..], publish)
    ensures Published(s, v, relay, ids, publish)
  {
    hide OutcomesOf, Landed;
    OutcomesCompose(ids, publish, s.flights[relay].outcomes);
    LandedCompose(s.stream, ids, publish);
  }

  lemma PublishedNone(s: State, relay: nat, publish: nat -> Publish)
    requires relay in s.flights
    ensures Published(s, s, relay, [], publish)
  {
    assert s.flights[relay].outcomes + OutcomesOf([], publish) == s.flights[relay].outcomes;
    assert s.flights[relay := s.flights[relay]] == s.flights;
  }

  lemma StillHolds(s: State, u: State, relay: nat, ids: seq<nat>, publish: nat -> Publish)
    requires ids != [] && Published(s, u, relay, [ids[0]], publish)
    requires forall id | id in ids :: Holds(s, relay, id)
    requires forall i, j | 0 <= i < j < |ids| :: ids[i] < ids[j]
    ensures forall id | id in ids[1..] :: Holds(u, relay, id)
  {
    forall id | id in ids[1..] ensures Holds(u, relay, id) {
      assert id in ids && Holds(s, relay, id);
      assert ids[0] < id;
    }
  }

  /** Publishing several claimed rows, one after the other. */
  lemma {:induction false} PublishMany(s: State, relay: nat, ids: seq<nat>, publish: nat -> Publish)
    requires Inv(s) && relay in s.flights && ErrorsSayWhy(publish, ids)
    requires forall id | id in ids :: Holds(s, relay, id)
    requires forall i, j | 0 <= i < j < |ids| :: ids[i] < ids[j]
    ensures EnabledRun(s, AllPublishSteps(relay, ids, publish))
    ensures Inv(Run(s, AllPublishSteps(relay, ids, publish)))
    ensures Published(s, Run(s, AllPublishSteps(relay, ids, publish)), relay, ids, publish)
    decreases |ids|
  {
    hide Inv, PublishSteps, Take, Enabled, Land;
    if ids == [] {
      PublishedNone(s, relay, publish);
    } else {
      var steps, rest := PublishSteps(relay, ids[0], publish(ids[0])), AllPublishSteps(relay, ids[1..], publish);
      PublishOne(s, relay, ids[0], publish(ids[0]));
      var u := Run(s, steps);
      PublishedOne(s, u, relay, ids, publish);
      StillHolds(s, u, relay, ids, publish);
      hide Published, Holds, WithOutcome;
      PublishMany(u, relay, ids[1..], publish);
      RunAppend(s, steps, rest);
      PublishedCompose(s, u, Run(u, rest), relay, ids, publish);
    }
  }

  function RelaySteps(relay: nat, ids: seq<nat>, publish: nat -> Publish, commitFails: bool): seq<Step> {
    [Claim(relay, set id | id in ids)] + (AllPublishSteps(relay, ids, publish) + [if commitFails then Crash(relay) else Commit(relay)])
  }

  lemma PublishedWhole(s: State, b: State, relay: nat, ids: seq<nat>, publish: nat -> Publish)
    requires relay !in s.flights
    requires Published(s.(flights := s.flights[relay := Flight(set id | id in ids, map[])]), b, relay, ids, publish)
    ensures b.flights[relay] == RelayFlight(ids, publish) && b.flights[relay].claimed <= b.flights[relay].outcomes.Keys
    ensures b.flights - {relay} == s.flights
    ensures b == s.(stream := Landed(s.stream, ids, publish), sent := b.sent, flights := b.flights)
  {
    assert map[] + OutcomesOf(ids, publish) == OutcomesOf(ids, publish);
  }

  /** What RelayOnce does to rows and stream is what one claim, its publishes and one commit or crash do:
      so no number of passes, by any number of relays, loses an event. */
  lemma PassIsARun(s: State, relay: nat, locked: set<nat>, batch: nat, publish: nat -> Publish, commitFails: bool)
    requires Inv(s) && relay !in s.flights && forall id | 0 <= id < |s.rows| :: id in locked <==> Locked(s, id)
    requires ErrorsSayWhy(publish, Polled(s.rows, locked, 0, batch))
    ensures var ids := Polled(s.rows, locked, 0, batch);
            && EnabledRun(s, RelaySteps(relay, ids, publish, commitFails))
            && var v := Run(s, RelaySteps(relay, ids, publish, commitFails));
               && v.stream == Landed(s.stream, ids, publish) && v.flights == s.flights
               && v.rows == (if commitFails then s.rows else CommitRows(s.rows, RelayFlight(ids, publish), s.limit))
               && Inv(v)
  {
    hide Inv, EnabledRun, Run, Polled, Landed, CommitRows;
    var ids := Polled(s.rows, locked, 0, batch);
    PolledExactly(s.rows, locked, batch);
    var claim, last := Claim(relay, set id | id in ids), if commitFails then Crash(relay) else Commit(relay);
    var a := Take(s, claim);
    StepOne(s, claim);
    RunKeeps(s, [claim]);
    PublishMany(a, relay, ids, publish);
    var publishes := AllPublishSteps(relay, ids, publish);
    var b := Run(a, publishes);
    PublishedWhole(s, b, relay, ids, publish);
    StepOne(b, last);
    RunKeeps(b, [last]);
    RunAppend(a, publishes, [last]);
    RunAppend(s, [claim], publishes + [last]);
  }
}
