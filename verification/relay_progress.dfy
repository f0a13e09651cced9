/** Passes of one relay that nobody interferes with: how many it takes to work a backlog off. */
module RelayProgress {
  import opened Wrappers
  import opened Outbox
  import opened Relay

  /** The rows after a pass whose transaction commits. */
  function AfterPass(rows: seq<Row>, batch: nat, limit: nat, publish: nat -> Publish): seq<Row> {
    CommitRows(rows, RelayFlight(Polled(rows, {}, 0, batch), publish), limit)
  }

  /** Passes in order, each with what becomes of what it publishes. */
  function AfterPasses(rows: seq<Row>, batch: nat, limit: nat, passes: seq<nat -> Publish>): seq<Row>
    decreases |passes|
  {
    if passes == [] then rows else AfterPasses(AfterPass(rows, batch, limit, passes[0]), batch, limit, passes[1..])
  }

  function Backlog(rows: seq<Row>): set<nat> {
    set id | 0 <= id < |rows| && !rows[id].published
  }

  /** How often publishing may still fail before every row is given up. */
  function Attempts(rows: seq<Row>, limit: nat): nat {
    if rows == [] then 0
    else
      var last := rows[|rows| - 1];
      Attempts(rows[..|rows| - 1], limit) + (if last.published || last.attempts >= limit then 0 else limit - last.attempts)
  }

  /** Unpublished rows have attempts to spare: what every run keeps. */
  predicate Spare(rows: seq<Row>, limit: nat) {
    forall id | 0 <= id < |rows| && !rows[id].published :: rows[id].attempts < limit
  }

  lemma PassMoves(rows: seq<Row>, batch: nat, limit: nat, publish: nat -> Publish)
    ensures Relayed(rows, AfterPass(rows, batch, limit, publish), Polled(rows, {}, 0, batch), publish, limit)
  {
    PassRelays(rows, {}, batch, publish, limit);
  }

  function Among(ids: seq<nat>): set<nat> {
    set id | id in ids
  }

  lemma OneMore(ids: seq<nat>, last: nat)
    requires last !in ids
    ensures Among(ids + [last]) == Among(ids) + {last} && |Among(ids + [last])| == |Among(ids)| + 1
  {
  }

  lemma {:induction false} IncreasingIsDistinct(ids: seq<nat>)
    requires forall i, j | 0 <= i < j < |ids| :: ids[i] < ids[j]
    ensures |Among(ids)| == |ids|
  {
    hide Among;
    if ids == [] {
      NoneAmong();
    } else {
      var n := |ids| - 1;
      IncreasingIsDistinct(ids[..n]);
      assert ids == ids[..n] + [ids[n]];
      assert forall i | 0 <= i < n :: ids[i] < ids[n];
      OneMore(ids[..n], ids[n]);
    }
  }

  lemma NoneAmong()
    ensures Among([]) == {}
  {
  }

  lemma SubsetIsSmaller(a: set<nat>, b: set<nat>)
    requires a <= b
    ensures |a| <= |b| && |b - a| == |b| - |a|
  {
    assert b == a + (b - a);
  }

  /** A pass polls the whole backlog, or as many rows of it as the batch holds. */
  lemma PollTakesABatch(rows: seq<Row>, batch: nat)
    ensures var ids := Polled(rows, {}, 0, batch);
            && Among(ids) <= Backlog(rows)
            && |Among(ids)| == if |Backlog(rows)| < batch then |Backlog(rows)| else batch
  {
    hide Polled;
    PolledExactly(rows, {}, batch);
    var ids := Polled(rows, {}, 0, batch);
    var taken := Among(ids);
    IncreasingIsDistinct(ids);
    SubsetIsSmaller(taken, Backlog(rows));
    if |ids| < batch {
      forall id | id in Backlog(rows) ensures id in taken {
        assert Free(rows, {}, id);
      }
      assert taken == Backlog(rows);
    }
  }

  lemma GoodPass(rows: seq<Row>, batch: nat, limit: nat, publish: nat -> Publish)
    requires forall id :: publish(id).Succeeds?
    ensures var after := AfterPass(rows, batch, limit, publish);
            && |after| == |rows|
            && (forall id | 0 <= id < |rows| :: after[id] == rows[id] || (!rows[id].published && after[id] == rows[id].(published := true, error := "")))
            && |Backlog(after)| == if |Backlog(rows)| < batch then 0 else |Backlog(rows)| - batch
  {
    hide Polled, AfterPass;
    var after, ids := AfterPass(rows, batch, limit, publish), Polled(rows, {}, 0, batch);
    PassMoves(rows, batch, limit, publish);
    PollTakesABatch(rows, batch);
    var taken := Among(ids);
    assert forall id | id in ids :: id in taken && id in Backlog(rows);
    forall id ensures id in Backlog(after) <==> id in Backlog(rows) - taken {
      if 0 <= id < |rows| {
        assert after[id] == if id !in ids then rows[id] else rows[id].(published := true, error := "");
      }
    }
    assert Backlog(after) == Backlog(rows) - taken;
    SubsetIsSmaller(taken, Backlog(rows));
  }

  /** While publishing succeeds, as many passes as the batch goes into the backlog leave every row published
      without an error, its attempts as they were, and what was published before untouched. */
  lemma {:induction false} GoodPassesPublishAll(rows: seq<Row>, batch: nat, limit: nat, passes: seq<nat -> Publish>)
    requires forall i, id | 0 <= i < |passes| :: passes[i](id).Succeeds?
    requires |passes| * batch >= |Backlog(rows)|
    ensures var after := AfterPasses(rows, batch, limit, passes);
            |after| == |rows| && forall id | 0 <= id < |rows| ::
              after[id] == if rows[id].published then rows[id] else rows[id].(published := true, error := "")
    decreases |passes|
  {
    hide AfterPass;
    if passes == [] {
      forall id | 0 <= id < |rows| ensures rows[id].published {
        assert Backlog(rows) == {};
        assert id !in Backlog(rows);
      }
    } else {
      var next, rest := AfterPass(rows, batch, limit, passes[0]), passes[1..];
      GoodPass(rows, batch, limit, passes[0]);
      assert |rest| * batch == |passes| * batch - batch;
      assert forall i | 0 <= i < |rest| :: rest[i] == passes[i + 1];
      GoodPassesPublishAll(next, batch, limit, rest);
    }
  }

  // ----- Whatever publishing does

  lemma {:induction false} AttemptsFall(rows: seq<Row>, after: seq<Row>, ids: seq<nat>, limit: nat, publish: nat -> Publish)
    requires Relayed(rows, after, ids, publish, limit) && Spare(rows, limit)
    requires forall id | id in ids :: id < |rows| ==> !rows[id].published
    ensures Attempts(after, limit) <= Attempts(rows, limit)
    ensures (exists id | id in ids :: id < |rows|) ==> Attempts(after, limit) < Attempts(rows, limit)
    decreases |rows|
  {
    if rows != [] {
      var n := |rows| - 1;
      assert Relayed(rows[..n], after[..n], ids, publish, limit);
      AttemptsFall(rows[..n], after[..n], ids, limit, publish);
      if id :| id in ids && id < |rows| {
        assert id == n || id < |rows[..n]|;
      }
    }
  }

  lemma AnyPass(rows: seq<Row>, batch: nat, limit: nat, publish: nat -> Publish)
    requires Spare(rows, limit) && batch > 0
    ensures var after := AfterPass(rows, batch, limit, publish);
            && |after| == |rows| && Spare(after, limit)
            && (forall id | 0 <= id < |rows| && rows[id].published :: after[id] == rows[id])
            && (Backlog(rows) != {} ==> Attempts(after, limit) < Attempts(rows, limit))
  {
    hide Polled, AfterPass, Attempts;
    var after, ids := AfterPass(rows, batch, limit, publish), Polled(rows, {}, 0, batch);
    PassMoves(rows, batch, limit, publish);
    PolledExactly(rows, {}, batch);
    AttemptsFall(rows, after, ids, limit, publish);
    if id :| id in Backlog(rows) {
      assert Free(rows, {}, id);
      assert |ids| > 0 && ids[0] in ids;
    }
  }

  /** Whatever becomes of each publish, the backlog is worked off: after as many passes as there are attempts
      left, every row is published, relayed or given up, and what was published before is untouched. */
  lemma {:induction false} BacklogDrains(rows: seq<Row>, batch: nat, limit: nat, passes: seq<nat -> Publish>)
    requires Spare(rows, limit) && batch > 0 && |passes| >= Attempts(rows, limit)
    ensures var after := AfterPasses(rows, batch, limit, passes);
            |after| == |rows| && forall id | 0 <= id < |rows| :: after[id].published && (rows[id].published ==> after[id] == rows[id])
    decreases |passes|
  {
    if passes == [] {
      NoAttemptsLeft(rows, limit);
    } else {
      hide AfterPass, Attempts;
      AnyPass(rows, batch, limit, passes[0]);
      var next := AfterPass(rows, batch, limit, passes[0]);
      if Backlog(rows) == {} {
        NothingToDo(rows, batch, limit, passes[0]);
        Attempts0(rows, limit);
        BacklogDrains(next, batch, limit, passes[1..]);
      } else {
        BacklogDrains(next, batch, limit, passes[1..]);
      }
    }
  }

  lemma NothingToDo(rows: seq<Row>, batch: nat, limit: nat, publish: nat -> Publish)
    requires Backlog(rows) == {}
    ensures AfterPass(rows, batch, limit, publish) == rows
  {
    forall id | 0 <= id < |rows| ensures rows[id].published {
      assert id !in Backlog(rows);
    }
    PassMoves(rows, batch, limit, publish);
    PolledExactly(rows, {}, batch);
  }

  lemma {:induction false} Attempts0(rows: seq<Row>, limit: nat)
    requires forall id | 0 <= id < |rows| :: id !in Backlog(rows)
    ensures Attempts(rows, limit) == 0
  {
    if rows != [] {
      var n := |rows| - 1;
      assert n !in Backlog(rows);
      forall id | 0 <= id < n ensures id !in Backlog(rows[..n]) {
        assert id !in Backlog(rows);
      }
      Attempts0(rows[..n], limit);
    }
  }

  lemma {:induction false} NoAttemptsLeft(rows: seq<Row>, limit: nat)
    requires Spare(rows, limit) && Attempts(rows, limit) == 0
    ensures forall id | 0 <= id < |rows| :: rows[id].published
  {
    if rows != [] {
      var n := |rows| - 1;
      assert Spare(rows[..n], limit);
      NoAttemptsLeft(rows[..n], limit);
      assert forall id | 0 <= id < n :: rows[..n][id] == rows[id];
    }
  }
}
