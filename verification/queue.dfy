/** The durable per-agent command queue: at-least-once delivery keyed by command id. */
module CommandQueue {
  datatype CommandStatus = CommandPending | CommandDelivered | CommandAcked | CommandNacked

  /** The JSON object a payload column holds: with a type, as an Any is written, or without one.
      `known` says whether the type is one the server can resolve. */
  datatype Payload = Typed(typeUrl: string, known: bool, members: map<string, string>)
                   | Untyped(members: map<string, string>)

  /** What the stream can read back as an Any: a known type, or the empty object. */
  predicate Readable(payload: Payload) {
    match payload
    case Typed(_, known, _) => known
    case Untyped(members) => members == map[]
  }

  datatype Command = Command(cluster: string, kind: string, payload: Payload, status: CommandStatus,
                             attempts: nat, message: string, createdAt: int, updatedAt: int)

  type Rows<K> = map<K, Command>

  predicate Open(c: Command) {
    c.status.CommandPending? || c.status.CommandDelivered?
  }

  /** Never sent, or sent and still unanswered after the retry window. */
  predicate Due(c: Command, now: int, retryAfter: int) {
    c.status.CommandPending? || (c.status.CommandDelivered? && c.updatedAt < now - retryAfter)
  }

  function AfterEnqueue<K>(rows: Rows<K>, id: K, cluster: string, kind: string, payload: Payload, now: int): Rows<K> {
    if id in rows then rows
    else rows[id := Command(cluster, kind, payload, CommandPending, 0, "", now, now)]
  }

  function AfterSend<K>(rows: Rows<K>, id: K, now: int): Rows<K> {
    if id in rows && Open(rows[id]) then
      rows[id := rows[id].(status := CommandDelivered, attempts := rows[id].attempts + 1, updatedAt := now)]
    else rows
  }

  function AfterAnswer<K>(rows: Rows<K>, id: K, status: CommandStatus, message: string, now: int): Rows<K> {
    if id in rows && (status.CommandAcked? || status.CommandNacked?) then
      rows[id := rows[id].(status := status, message := message, updatedAt := now)]
    else rows
  }

  function AfterTypeAnswer<K>(rows: Rows<K>, cluster: string, kind: string, message: string, now: int): Rows<K> {
    map id | id in rows ::
      if rows[id].cluster == cluster && rows[id].kind == kind && Open(rows[id])
      then rows[id].(status := CommandAcked, message := message, updatedAt := now)
      else rows[id]
  }

  class Queue<K(==)> {
    var rows: Rows<K>
    var now: int

    constructor ()
      ensures rows == map[]
    {
      rows, now := map[], 0;
    }

    method Enqueue(id: K, cluster: string, kind: string, payload: Payload)
      modifies this`rows
      ensures rows == AfterEnqueue(old(rows), id, cluster, kind, payload, now)
      ensures id in rows && (id in old(rows) ==> rows == old(rows))
      ensures id !in old(rows) ==>
                && rows == old(rows)[id := rows[id]]
                && rows[id].cluster == cluster && rows[id].kind == kind && rows[id].payload == payload
                && rows[id].status == CommandPending && rows[id].attempts == 0
                && rows[id].createdAt == now && rows[id].updatedAt == now
    {
      if id !in rows {
        rows := rows[id := Command(cluster, kind, payload, CommandPending, 0, "", now, now)];
      }
    }

    method MarkDelivered(id: K)
      modifies this`rows
      ensures rows == AfterSend(old(rows), id, now)
      ensures id in old(rows) && Open(old(rows)[id]) ==>
                && rows == old(rows)[id := rows[id]]
                && rows[id].status == CommandDelivered && rows[id].attempts == old(rows)[id].attempts + 1 && rows[id].updatedAt == now
      ensures !(id in old(rows) && Open(old(rows)[id])) ==> rows == old(rows)
    {
      if id in rows && Open(rows[id]) {
        var row := rows[id];
        rows := rows[id := row.(status := CommandDelivered, attempts := row.attempts + 1, updatedAt := now)];
      }
    }

    /** The agent's answer; refuses a status that is not terminal. */
    method Complete(id: K, status: CommandStatus, message: string) returns (ok: bool)
      modifies this`rows
      ensures ok <==> status.CommandAcked? || status.CommandNacked?
      ensures rows == AfterAnswer(old(rows), id, status, message, now)
      ensures ok && id in rows ==>
                rows == old(rows)[id := rows[id]] && rows[id].status == status && rows[id].message == message && rows[id].updatedAt == now
      ensures !ok || id !in rows ==> rows == old(rows)
    {
      if !status.CommandAcked? && !status.CommandNacked? {
        return false;
      }
      if id in rows {
        rows := rows[id := rows[id].(status := status, message := message, updatedAt := now)];
      }
      return true;
    }

    method CompletePendingByType(cluster: string, kind: string, message: string)
      modifies this`rows
      ensures rows == AfterTypeAnswer(old(rows), cluster, kind, message, now)
      ensures rows.Keys == old(rows).Keys
      ensures forall id | id in rows ::
                var row := old(rows)[id];
                if row.cluster == cluster && row.kind == kind && Open(row)
                then rows[id].status == CommandAcked && rows[id].message == message
                else rows[id] == row
    {
      rows := map id | id in rows ::
        if rows[id].cluster == cluster && rows[id].kind == kind && Open(rows[id])
        then rows[id].(status := CommandAcked, message := message, updatedAt := now)
        else rows[id];
    }
  }

  /** One call on the queue, by any of its users. */
  datatype Op<K> =
    | EnqueueOp(id: K, cluster: string, kind: string, payload: Payload)
    | DeliverOp(id: K)
    | CompleteOp(id: K, status: CommandStatus, message: string)
    | CompleteTypeOp(cluster: string, kind: string, message: string)

  function Do<K>(rows: Rows<K>, op: Op<K>, now: int): Rows<K> {
    match op
    case EnqueueOp(id, cluster, kind, payload) => AfterEnqueue(rows, id, cluster, kind, payload, now)
    case DeliverOp(id) => AfterSend(rows, id, now)
    case CompleteOp(id, status, message) => AfterAnswer(rows, id, status, message, now)
    case CompleteTypeOp(cluster, kind, message) => AfterTypeAnswer(rows, cluster, kind, message, now)
  }

  /** A run: calls in order, each with its time. */
  function DoAll<K>(rows: Rows<K>, ops: seq<(Op<K>, int)>): Rows<K>
    decreases |ops|
  {
    if ops == [] then rows else DoAll(Do(rows, ops[0].0, ops[0].1), ops[1..])
  }

  /** A command id is an idempotency key: whatever is called afterwards, under that id or another,
      the row stays and keeps the cluster, type, payload and creation time it was first given. */
  lemma {:induction false} FirstEnqueueWins<K>(rows: Rows<K>, ops: seq<(Op<K>, int)>, id: K)
    requires id in rows
    ensures id in DoAll(rows, ops)
    ensures var row := DoAll(rows, ops)[id];
            row.cluster == rows[id].cluster && row.kind == rows[id].kind && row.payload == rows[id].payload
            && row.createdAt == rows[id].createdAt && row.attempts >= rows[id].attempts
    decreases |ops|
  {
    if ops != [] {
      FirstEnqueueWins(Do(rows, ops[0].0, ops[0].1), ops[1..], id);
    }
  }

  /** An answered command never becomes due again and never shows as delivered again. */
  lemma {:induction false} AnsweredForGood<K>(rows: Rows<K>, ops: seq<(Op<K>, int)>, id: K, now: int, retryAfter: int)
    requires id in rows && !Open(rows[id])
    ensures id in DoAll(rows, ops) && !Open(DoAll(rows, ops)[id])
    ensures !Due(DoAll(rows, ops)[id], now, retryAfter)
    decreases |ops|
  {
    if ops != [] {
      AnsweredForGood(Do(rows, ops[0].0, ops[0].1), ops[1..], id, now, retryAfter);
    }
  }

  predicate Retires<K(==)>(op: Op<K>, id: K, row: Command) {
    match op
    case CompleteOp(answered, status, _) => answered == id && (status.CommandAcked? || status.CommandNacked?)
    case CompleteTypeOp(cluster, kind, _) => cluster == row.cluster && kind == row.kind
    case _ => false
  }

  predicate RetiredBy<K(==)>(ops: seq<(Op<K>, int)>, id: K, row: Command) {
    exists i | 0 <= i < |ops| :: Retires(ops[i].0, id, row)
  }

  /** A command leaves the queue through an answer and in no other way: after any run it is still
      open exactly when nothing in the run retired it, and an open command comes up for delivery
      again once the retry window has passed. */
  lemma {:induction false} OpenUntilAnswered<K>(rows: Rows<K>, ops: seq<(Op<K>, int)>, id: K, now: int, retryAfter: int)
    requires id in rows && Open(rows[id])
    ensures id in DoAll(rows, ops)
    ensures Open(DoAll(rows, ops)[id]) <==> !RetiredBy(ops, id, rows[id])
    ensures !RetiredBy(ops, id, rows[id]) && DoAll(rows, ops)[id].updatedAt + retryAfter < now
            ==> Due(DoAll(rows, ops)[id], now, retryAfter)
    decreases |ops|
  {
    if ops != [] {
      var next := Do(rows, ops[0].0, ops[0].1);
      FirstEnqueueWins(rows, ops, id);
      if Retires(ops[0].0, id, rows[id]) {
        AnsweredForGood(next, ops[1..], id, now, retryAfter);
      } else {
        OpenUntilAnswered(next, ops[1..], id, now, retryAfter);
        RetiresIgnoresProgress(ops[1..], id, rows[id], next[id]);
        assert ops == [ops[0]] + ops[1..];
        assert RetiredBy(ops, id, rows[id]) <==> RetiredBy(ops[1..], id, rows[id]) by {
          if RetiredBy(ops, id, rows[id]) {
            var i :| 0 <= i < |ops| && Retires(ops[i].0, id, rows[id]);
            assert ops[1..][i - 1] == ops[i];
          }
        }
      }
    }
  }

  lemma RetiresIgnoresProgress<K>(ops: seq<(Op<K>, int)>, id: K, a: Command, b: Command)
    requires a.cluster == b.cluster && a.kind == b.kind
    ensures RetiredBy(ops, id, a) <==> RetiredBy(ops, id, b)
  {
    forall i | 0 <= i < |ops| ensures Retires(ops[i].0, id, a) <==> Retires(ops[i].0, id, b) {
    }
  }
}
