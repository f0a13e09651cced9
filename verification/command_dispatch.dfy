/** Sending an agent its due commands, and taking its acknowledgements in. */
module CommandDispatch {
  import opened Wrappers
  import opened CommandIds
  import opened CommandQueue

  const DISPATCH_LIMIT := 50

  /** Queue ids are the agent's own ids, bare or behind one of these. */
  const ACK_PREFIXES := ["register-argocd-app:", "register-argocd-appset:", "register-argocd-app-manifest:"]

  predicate DueFor(rows: Rows<string>, cluster: string, id: string, now: int, retryAfter: int) {
    id in rows && rows[id].cluster == cluster && Due(rows[id], now, retryAfter)
  }

  function DueSet(rows: Rows<string>, cluster: string, now: int, retryAfter: int): set<string> {
    set id | id in rows && DueFor(rows, cluster, id, now, retryAfter)
  }

  /** What the queue may answer: due commands of the cluster, oldest first, up to the limit, with nothing
      older left out; commands of one age come in any order. */
  predicate DueList(rows: Rows<string>, cluster: string, now: int, retryAfter: int, limit: nat, list: seq<string>) {
    && (forall i | 0 <= i < |list| :: DueFor(rows, cluster, list[i], now, retryAfter))
    && (forall i, j | 0 <= i < j < |list| :: list[i] != list[j] && rows[list[i]].createdAt <= rows[list[j]].createdAt)
    && |list| <= limit
    && (forall id | DueFor(rows, cluster, id, now, retryAfter) && id in rows && id !in list ::
          |list| == limit && forall other | other in list :: rows[other].createdAt <= rows[id].createdAt)
  }

  /** One pass over a list: commands that cannot be read are passed over; sending stops at the first
      failure, here after `sends` of them. */
  function AfterPass(rows: Rows<string>, list: seq<string>, sends: nat, now: int): Rows<string>
    decreases |list|
  {
    if list == [] then rows
    else if list[0] !in rows || !Readable(rows[list[0]].payload) then AfterPass(rows, list[1..], sends, now)
    else if sends == 0 then rows
    else AfterPass(AfterSend(rows, list[0], now), list[1..], sends - 1, now)
  }

  /** The commands a pass sends. */
  function Sent(rows: Rows<string>, list: seq<string>, sends: nat): seq<string>
    decreases |list|
  {
    if list == [] then []
    else if list[0] !in rows || !Readable(rows[list[0]].payload) then Sent(rows, list[1..], sends)
    else if sends == 0 then []
    else [list[0]] + Sent(rows, list[1..], sends - 1)
  }

  function AckTarget(rows: Rows<string>, id: string): string {
    if id in rows then id
    else if ACK_PREFIXES[0] + id in rows then ACK_PREFIXES[0] + id
    else if ACK_PREFIXES[1] + id in rows then ACK_PREFIXES[1] + id
    else if ACK_PREFIXES[2] + id in rows then ACK_PREFIXES[2] + id
    else id
  }

  class Dispatcher {
    const queue: Queue<string>
    const cluster: string

    constructor (queue: Queue<string>, cluster: string)
      ensures this.queue == queue && this.cluster == cluster
    {
      this.queue, this.cluster := queue, cluster;
    }

    /** Send the listed commands; reports whether the stream took all it was offered. */
    method DispatchDue(list: seq<string>, sends: nat) returns (sent: seq<string>, ok: bool)
      requires forall i | 0 <= i < |list| :: list[i] in queue.rows
      modifies queue`rows
      ensures queue.rows == AfterPass(old(queue.rows), list, sends, queue.now)
      ensures sent == Sent(old(queue.rows), list, sends)
    {
      hide AfterPass, Sent;
      sent := [];
      ghost var before := queue.rows;
      assert list[0..] == list;
      for i := 0 to |list|
        invariant |sent| <= sends
        invariant queue.rows.Keys == before.Keys && forall id | id in before :: queue.rows[id].payload == before[id].payload
        invariant AfterPass(queue.rows, list[i..], sends - |sent|, queue.now) == AfterPass(before, list, sends, queue.now)
        invariant sent + Sent(queue.rows, list[i..], sends - |sent|) == Sent(before, list, sends)
      {
        assert list[i..][1..] == list[i + 1..];
        PassUnfolds(queue.rows, list[i..], sends - |sent|, queue.now);
        if !Readable(queue.rows[list[i]].payload) {
          continue;
        }
        if |sent| == sends {
          return sent, false;
        }
        SentIgnoresSends(queue.rows, AfterSend(queue.rows, list[i], queue.now), list[i + 1..], sends - |sent| - 1);
        queue.MarkDelivered(list[i]);
        sent := sent + [list[i]];
      }
      assert list[|list|..] == [];
      NothingToSend(queue.rows, sends - |sent|, queue.now);
      return sent, true;
    }

    /** Retire the command an acknowledgement is about. */
    method HandleAck(id: string, status: CommandStatus, message: string) returns (target: string, ok: bool)
      modifies queue`rows
      ensures target == AckTarget(old(queue.rows), id)
      ensures queue.rows == AfterAnswer(old(queue.rows), target, status, message, queue.now)
      ensures ok <==> status.CommandAcked? || status.CommandNacked?
    {
      target := id;
      if id !in queue.rows {
        for i := 0 to |ACK_PREFIXES|
          invariant target == id && queue.rows == old(queue.rows)
          invariant forall j | 0 <= j < i :: ACK_PREFIXES[j] + id !in queue.rows
        {
          if ACK_PREFIXES[i] + id in queue.rows {
            target := ACK_PREFIXES[i] + id;
            break;
          }
        }
      }
      ok := queue.Complete(target, status, message);
    }
  }

  lemma PassUnfolds(rows: Rows<string>, list: seq<string>, sends: nat, now: int)
    requires list != [] && list[0] in rows
    ensures var id, rest := list[0], list[1..];
            if !Readable(rows[id].payload) then
              AfterPass(rows, list, sends, now) == AfterPass(rows, rest, sends, now)
              && Sent(rows, list, sends) == Sent(rows, rest, sends)
            else if sends == 0 then
              AfterPass(rows, list, sends, now) == rows && Sent(rows, list, sends) == []
            else
              AfterPass(rows, list, sends, now) == AfterPass(AfterSend(rows, id, now), rest, sends - 1, now)
              && Sent(rows, list, sends) == [id] + Sent(rows, rest, sends - 1)
  {
  }

  lemma NothingToSend(rows: Rows<string>, sends: nat, now: int)
    ensures AfterPass(rows, [], sends, now) == rows && Sent(rows, [], sends) == []
  {
  }

  lemma {:induction false} SentIgnoresSends(a: Rows<string>, b: Rows<string>, list: seq<string>, sends: nat)
    requires a.Keys == b.Keys && forall id | id in a :: a[id].payload == b[id].payload
    ensures Sent(a, list, sends) == Sent(b, list, sends)
    decreases |list|
  {
    if list != [] {
      SentIgnoresSends(a, b, list[1..], sends);
      if sends > 0 {
        SentIgnoresSends(a, b, list[1..], sends - 1);
      }
    }
  }

  // ----- What a pass does

  predicate Distinct(list: seq<string>) {
    forall i, j | 0 <= i < j < |list| :: list[i] != list[j]
  }

  /** The rows after these commands, and no others, were marked as sent. */
  function Marked(rows: Rows<string>, sent: seq<string>, now: int): Rows<string> {
    map k | k in rows ::
      if k in sent && Open(rows[k])
      then rows[k].(status := CommandDelivered, attempts := rows[k].attempts + 1, updatedAt := now)
      else rows[k]
  }

  lemma MarkOneMore(rows: Rows<string>, first: string, rest: seq<string>, now: int)
    requires first !in rest
    ensures Marked(AfterSend(rows, first, now), rest, now) == Marked(rows, [first] + rest, now)
  {
    forall k ensures k in [first] + rest <==> k == first || k in rest {
    }
  }

  lemma MarkNone(rows: Rows<string>, now: int)
    ensures Marked(rows, [], now) == rows
  {
  }

  lemma DistinctTail(list: seq<string>)
    requires Distinct(list) && list != []
    ensures Distinct(list[1..]) && list[0] !in list[1..] && forall k :: k in list[1..] ==> k in list
  {
    assert forall i | 0 <= i < |list| - 1 :: list[1..][i] == list[i + 1];
  }

  lemma {:induction false} SentAreListed(rows: Rows<string>, list: seq<string>, sends: nat)
    ensures forall k | k in Sent(rows, list, sends) :: k in list && k in rows && Readable(rows[k].payload)
    decreases |list|
  {
    if list != [] {
      SentAreListed(rows, list[1..], sends);
      if sends > 0 {
        SentAreListed(rows, list[1..], sends - 1);
      }
      assert list == [list[0]] + list[1..];
    }
  }

  /** A pass sends each command at most once, records exactly what it sent, and leaves every other row as it
      was: in particular those that cannot be read. */
  lemma {:induction false} PassRecordsWhatItSends(rows: Rows<string>, list: seq<string>, sends: nat, now: int)
    requires Distinct(list)
    ensures AfterPass(rows, list, sends, now) == Marked(rows, Sent(rows, list, sends), now)
    ensures forall k | k in Sent(rows, list, sends) :: k in list && k in rows && Readable(rows[k].payload)
    decreases |list|
  {
    hide Marked, Distinct;
    SentAreListed(rows, list, sends);
    MarkNone(rows, now);
    if list != [] {
      DistinctTail(list);
      if list[0] !in rows || !Readable(rows[list[0]].payload) {
        PassRecordsWhatItSends(rows, list[1..], sends, now);
      } else if sends > 0 {
        var next := AfterSend(rows, list[0], now);
        PassRecordsWhatItSends(next, list[1..], sends - 1, now);
        SentIgnoresSends(rows, next, list[1..], sends - 1);
        MarkOneMore(rows, list[0], Sent(rows, list[1..], sends - 1), now);
      }
    }
  }

  function ReadableOnes(rows: Rows<string>, list: seq<string>): seq<string> {
    if list == [] then []
    else if list[0] in rows && Readable(rows[list[0]].payload) then [list[0]] + ReadableOnes(rows, list[1..])
    else ReadableOnes(rows, list[1..])
  }

  /** A pass sends the readable commands of its list, in order, up to the first that the stream does not take. */
  lemma {:induction false} SentInOrder(rows: Rows<string>, list: seq<string>, sends: nat)
    ensures var all := ReadableOnes(rows, list);
            Sent(rows, list, sends) == if sends < |all| then all[..sends] else all
    decreases |list|
  {
    if list != [] {
      if list[0] in rows && Readable(rows[list[0]].payload) {
        if sends > 0 {
          SentInOrder(rows, list[1..], sends - 1);
        }
      } else {
        SentInOrder(rows, list[1..], sends);
      }
    }
  }

  lemma {:induction false} EverythingReadableIsSent(rows: Rows<string>, list: seq<string>, sends: nat)
    requires forall i | 0 <= i < |list| :: list[i] in rows
    requires sends >= |list|
    ensures forall k :: k in Sent(rows, list, sends) <==> k in list && Readable(rows[k].payload)
    decreases |list|
  {
    if list != [] {
      EverythingReadableIsSent(rows, list[1..], sends);
      EverythingReadableIsSent(rows, list[1..], sends - 1);
      assert list == [list[0]] + list[1..];
    }
  }

  /** With every due command readable and the stream up, a pass takes the whole list off the due commands. */
  lemma PassDrains(rows: Rows<string>, cluster: string, now: int, retryAfter: nat, limit: nat, list: seq<string>)
    requires DueList(rows, cluster, now, retryAfter, limit, list)
    requires forall id | id in DueSet(rows, cluster, now, retryAfter) :: Readable(rows[id].payload)
    ensures var after := AfterPass(rows, list, |list|, now);
            DueSet(after, cluster, now, retryAfter) == DueSet(rows, cluster, now, retryAfter) - (set id | id in list)
  {
    PassRecordsWhatItSends(rows, list, |list|, now);
    EverythingReadableIsSent(rows, list, |list|);
    var after := AfterPass(rows, list, |list|, now);
    var sent := Sent(rows, list, |list|);
    forall id | id in list ensures id in DueSet(rows, cluster, now, retryAfter) && id in sent {
      assert DueFor(rows, cluster, id, now, retryAfter);
    }
    forall id ensures id in DueSet(after, cluster, now, retryAfter) <==> id in DueSet(rows, cluster, now, retryAfter) && id !in list {
    }
  }

  // ----- When a command is held up

  /** Pending commands of a cluster that nobody can read, older than the given one. */
  predicate Blocks(rows: Rows<string>, cluster: string, blockers: set<string>, id: string) {
    id in rows && rows[id].cluster == cluster &&
    forall b | b in blockers ::
      b in rows && rows[b].cluster == cluster && rows[b].status.CommandPending? && !Readable(rows[b].payload)
      && rows[b].createdAt < rows[id].createdAt
  }

  lemma {:induction false} SubsetOfList(blockers: set<string>, list: seq<string>)
    requires Distinct(list) && forall b | b in blockers :: b in list
    ensures |blockers| <= |list|
    decreases |list|
  {
    if list == [] {
      assert blockers == {};
    } else {
      var rest := list[1..];
      assert forall i | 0 <= i < |rest| :: rest[i] == list[i + 1];
      SubsetOfList(blockers - {list[0]}, rest);
      assert |blockers| <= |blockers - {list[0]}| + 1;
    }
  }

  /** As many unreadable older commands as the limit keep a command out of every list. */
  lemma BlockedIsNotListed(rows: Rows<string>, cluster: string, now: int, retryAfter: int, limit: nat, list: seq<string>,
                           blockers: set<string>, id: string)
    requires DueList(rows, cluster, now, retryAfter, limit, list)
    requires Blocks(rows, cluster, blockers, id) && |blockers| >= limit
    ensures id !in list
  {
    if id in list {
      forall b | b in blockers ensures b in list {
        assert DueFor(rows, cluster, b, now, retryAfter);
      }
      assert id !in blockers;
      SubsetOfList(blockers + {id}, list);
    }
  }

  /** One pass as the queue saw it. */
  datatype Pass = Pass(list: seq<string>, sends: nat, now: int)

  function AfterPasses(rows: Rows<string>, passes: seq<Pass>): Rows<string>
    decreases |passes|
  {
    if passes == [] then rows
    else AfterPasses(AfterPass(rows, passes[0].list, passes[0].sends, passes[0].now), passes[1..])
  }

  predicate QueueAnswers(rows: Rows<string>, cluster: string, retryAfter: int, passes: seq<Pass>)
    decreases |passes|
  {
    passes == [] ||
    (DueList(rows, cluster, passes[0].now, retryAfter, DISPATCH_LIMIT, passes[0].list)
     && QueueAnswers(AfterPass(rows, passes[0].list, passes[0].sends, passes[0].now), cluster, retryAfter, passes[1..]))
  }

  /** Fifty pending commands that cannot be read hold up every younger command of their cluster for good:
      no pass sends it, however many there are. */
  lemma {:induction false} UnreadableCommandsHoldUp(rows: Rows<string>, cluster: string, retryAfter: int, passes: seq<Pass>,
                                                    blockers: set<string>, id: string)
    requires Blocks(rows, cluster, blockers, id) && |blockers| >= DISPATCH_LIMIT
    requires QueueAnswers(rows, cluster, retryAfter, passes)
    ensures id in AfterPasses(rows, passes) && AfterPasses(rows, passes)[id] == rows[id]
    decreases |passes|
  {
    if passes != [] {
      var p := passes[0];
      var next := AfterPass(rows, p.list, p.sends, p.now);
      BlockedIsNotListed(rows, cluster, p.now, retryAfter, DISPATCH_LIMIT, p.list, blockers, id);
      PassRecordsWhatItSends(rows, p.list, p.sends, p.now);
      UnreadableCommandsHoldUp(next, cluster, retryAfter, passes[1..], blockers, id);
    }
  }

  /** A command that is due is in the list exactly if it is among the oldest: nothing but fifty commands at
      least as old can keep it out. */
  lemma ListedUnlessOutnumbered(rows: Rows<string>, cluster: string, now: int, retryAfter: int, list: seq<string>, id: string)
    requires DueList(rows, cluster, now, retryAfter, DISPATCH_LIMIT, list) && DueFor(rows, cluster, id, now, retryAfter)
    requires |set k | k in rows && DueFor(rows, cluster, k, now, retryAfter) && k != id && rows[k].createdAt <= rows[id].createdAt| < DISPATCH_LIMIT
    ensures id in list
  {
    if id !in list {
      var older := set k | k in rows && DueFor(rows, cluster, k, now, retryAfter) && k != id && rows[k].createdAt <= rows[id].createdAt;
      ListFits(list, older);
    }
  }

  lemma {:induction false} ListFits(list: seq<string>, all: set<string>)
    requires Distinct(list) && forall k | k in list :: k in all
    ensures |list| <= |all|
    decreases |list|
  {
    if list != [] {
      var rest := list[1..];
      assert forall i | 0 <= i < |rest| :: rest[i] == list[i + 1];
      assert list[0] in all;
      ListFits(rest, all - {list[0]});
    }
  }

  /** The older pending commands of a cluster that nobody can read. */
  function Stuck(rows: Rows<string>, cluster: string, id: string): set<string>
    requires id in rows
  {
    set k | k in rows && rows[k].cluster == cluster && rows[k].status.CommandPending? && !Readable(rows[k].payload)
            && rows[k].createdAt < rows[id].createdAt
  }

  /** The older open commands that can be read and were not sent since a given time. */
  function Ahead(rows: Rows<string>, cluster: string, id: string, since: int): set<string>
    requires id in rows
  {
    set k | k in rows && rows[k].cluster == cluster && Open(rows[k]) && Readable(rows[k].payload)
            && !(rows[k].status.CommandDelivered? && rows[k].updatedAt >= since) && rows[k].createdAt < rows[id].createdAt
  }

  /** No other command of the cluster was created at the very same time. */
  predicate OwnAge(rows: Rows<string>, cluster: string, id: string) {
    id in rows && forall k | k in rows && k != id && rows[k].cluster == cluster :: rows[k].createdAt != rows[id].createdAt
  }

  /** What cannot be read was never sent, which every pass keeps. */
  predicate OnlyReadableSent(rows: Rows<string>) {
    forall k | k in rows && rows[k].status.CommandDelivered? :: Readable(rows[k].payload)
  }

  /** Passes with the stream up, all within one retry window. */
  predicate Undisturbed(passes: seq<Pass>, since: int, retryAfter: nat) {
    forall i | 0 <= i < |passes| :: passes[i].sends >= |passes[i].list| && since <= passes[i].now <= since + retryAfter
  }

  lemma {:induction false} AttemptsOnlyGrow(rows: Rows<string>, cluster: string, retryAfter: int, passes: seq<Pass>, id: string)
    requires id in rows && QueueAnswers(rows, cluster, retryAfter, passes)
    ensures id in AfterPasses(rows, passes) && AfterPasses(rows, passes)[id].attempts >= rows[id].attempts
    decreases |passes|
  {
    if passes != [] {
      var p := passes[0];
      PassRecordsWhatItSends(rows, p.list, p.sends, p.now);
      AttemptsOnlyGrow(AfterPass(rows, p.list, p.sends, p.now), cluster, retryAfter, passes[1..], id);
    }
  }

  /** A list without the command in it is full of older ones, one of which can be read. */
  lemma OneAheadIsListed(rows: Rows<string>, cluster: string, now: int, since: int, retryAfter: nat, list: seq<string>, id: string)
      returns (first: string)
    requires DueList(rows, cluster, now, retryAfter, DISPATCH_LIMIT, list) && since <= now <= since + retryAfter
    requires DueFor(rows, cluster, id, now, retryAfter) && id !in list && OwnAge(rows, cluster, id) && OnlyReadableSent(rows)
    requires |Stuck(rows, cluster, id)| < DISPATCH_LIMIT
    ensures first in list && first in Ahead(rows, cluster, id, since)
  {
    forall k | k in list
      ensures k in Stuck(rows, cluster, id) || k in Ahead(rows, cluster, id, since)
    {
      var i :| 0 <= i < |list| && list[i] == k;
      assert DueFor(rows, cluster, list[i], now, retryAfter);
    }
    if forall k | k in list :: k in Stuck(rows, cluster, id) {
      ListFits(list, Stuck(rows, cluster, id));
    }
    first :| first in list && first !in Stuck(rows, cluster, id);
  }

  /** A pass that sends something of what is ahead leaves less of it. */
  lemma PassShortensTheQueue(rows: Rows<string>, next: Rows<string>, sent: seq<string>, now: int,
                             cluster: string, id: string, since: int, first: string)
    requires id in rows && id !in sent && next == Marked(rows, sent, now) && now >= since
    requires forall k | k in sent :: k in rows && Readable(rows[k].payload)
    requires first in sent && first in Ahead(rows, cluster, id, since)
    ensures next[id] == rows[id] && Stuck(next, cluster, id) == Stuck(rows, cluster, id)
    ensures |Ahead(next, cluster, id, since)| < |Ahead(rows, cluster, id, since)|
    ensures OwnAge(rows, cluster, id) ==> OwnAge(next, cluster, id)
    ensures OnlyReadableSent(rows) ==> OnlyReadableSent(next)
  {
    var before, after := Ahead(rows, cluster, id, since), Ahead(next, cluster, id, since);
    assert after <= before - {first};
    SmallerSet(after, before - {first});
    assert |before - {first}| == |before| - 1;
  }

  lemma SmallerSet(a: set<string>, b: set<string>)
    requires a <= b
    ensures |a| <= |b|
  {
    assert b == a + (b - a);
  }

  /** With fewer than fifty older ones that cannot be read, a due command goes out after as many undisturbed
      passes as there are readable ones ahead of it, and one more. */
  lemma {:induction false} SentWhenNotHeldUp(rows: Rows<string>, cluster: string, retryAfter: nat, passes: seq<Pass>,
                                             since: int, id: string)
    requires DueFor(rows, cluster, id, since, retryAfter) && Readable(rows[id].payload)
    requires OwnAge(rows, cluster, id) && OnlyReadableSent(rows)
    requires |Stuck(rows, cluster, id)| < DISPATCH_LIMIT && |Ahead(rows, cluster, id, since)| < |passes|
    requires QueueAnswers(rows, cluster, retryAfter, passes) && Undisturbed(passes, since, retryAfter)
    ensures id in AfterPasses(rows, passes) && AfterPasses(rows, passes)[id].attempts > rows[id].attempts
    decreases |passes|
  {
    hide Stuck, Ahead, OwnAge, OnlyReadableSent, DueList, AfterPass, Sent, Readable;
    var p := passes[0];
    var next := AfterPass(rows, p.list, p.sends, p.now);
    var sent := Sent(rows, p.list, p.sends);
    ListedAreThere(rows, cluster, p.now, retryAfter, p.list);
    PassRecordsWhatItSends(rows, p.list, p.sends, p.now);
    EverythingReadableIsSent(rows, p.list, p.sends);
    if id in p.list {
      AttemptsOnlyGrow(next, cluster, retryAfter, passes[1..], id);
    } else {
      var first := OneAheadIsListed(rows, cluster, p.now, since, retryAfter, p.list, id);
      AheadIsReadable(rows, cluster, id, since, first);
      PassShortensTheQueue(rows, next, sent, p.now, cluster, id, since, first);
      SentWhenNotHeldUp(next, cluster, retryAfter, passes[1..], since, id);
    }
  }

  lemma AheadIsReadable(rows: Rows<string>, cluster: string, id: string, since: int, k: string)
    requires id in rows && k in Ahead(rows, cluster, id, since)
    ensures k in rows && Readable(rows[k].payload)
  {
  }

  lemma ListedAreThere(rows: Rows<string>, cluster: string, now: int, retryAfter: int, list: seq<string>)
    requires DueList(rows, cluster, now, retryAfter, DISPATCH_LIMIT, list)
    ensures Distinct(list) && forall i | 0 <= i < |list| :: list[i] in rows
  {
    assert forall i | 0 <= i < |list| :: DueFor(rows, cluster, list[i], now, retryAfter);
  }

  /** So a due command that can be read, of an age of its own, goes out in undisturbed passes if and only if
      fewer than fifty older ones that cannot be read are pending. */
  lemma SentExactlyUnlessHeldUp(rows: Rows<string>, cluster: string, retryAfter: nat, passes: seq<Pass>, since: int, id: string)
    requires DueFor(rows, cluster, id, since, retryAfter) && Readable(rows[id].payload)
    requires OwnAge(rows, cluster, id) && OnlyReadableSent(rows)
    requires QueueAnswers(rows, cluster, retryAfter, passes) && Undisturbed(passes, since, retryAfter)
    requires |passes| > |Ahead(rows, cluster, id, since)|
    ensures id in AfterPasses(rows, passes)
    ensures AfterPasses(rows, passes)[id].attempts > rows[id].attempts <==> |Stuck(rows, cluster, id)| < DISPATCH_LIMIT
  {
    if |Stuck(rows, cluster, id)| < DISPATCH_LIMIT {
      SentWhenNotHeldUp(rows, cluster, retryAfter, passes, since, id);
    } else {
      UnreadableCommandsHoldUp(rows, cluster, retryAfter, passes, Stuck(rows, cluster, id), id);
    }
  }

  // ----- Commands that are never sent

  /** What happens to a queue over time: passes, and calls other than marking a command as sent. */
  datatype Happening = Passed(pass: Pass) | Called(op: Op<string>, now: int)

  function AfterOne(rows: Rows<string>, h: Happening): Rows<string> {
    match h
    case Passed(p) => AfterPass(rows, p.list, p.sends, p.now)
    case Called(op, now) => if op.DeliverOp? then rows else Do(rows, op, now)
  }

  function AfterAll(rows: Rows<string>, history: seq<Happening>): Rows<string>
    decreases |history|
  {
    if history == [] then rows else AfterAll(AfterOne(rows, history[0]), history[1..])
  }

  /** Enqueued under this id, if at all, as a command of this rollout. */
  ghost predicate OnlyAsRollout(history: seq<Happening>, id: string, about: About) {
    forall i | 0 <= i < |history| && history[i].Called? && history[i].op.EnqueueOp? && history[i].op.id == id ::
      exists version :: history[i].op.payload == DesiredState(about, version)
  }

  predicate NotSent(rows: Rows<string>, id: string) {
    id in rows ==> !Readable(rows[id].payload) && rows[id].attempts == 0
  }

  /** No pass over any queue, whatever else happens to it, ever sends a rollout command as the service writes
      them: the stream refuses to read their payload back. */
  lemma {:induction false} RolloutCommandIsNeverSent(rows: Rows<string>, history: seq<Happening>, id: string, about: About)
    requires about.encoding.PlainJson? && NotSent(rows, id) && OnlyAsRollout(history, id, about)
    requires forall i | 0 <= i < |history| && history[i].Passed? :: Distinct(history[i].pass.list)
    ensures NotSent(AfterAll(rows, history), id)
    decreases |history|
  {
    if history != [] {
      var rest := history[1..];
      assert forall i | 0 <= i < |rest| :: rest[i] == history[i + 1];
      match history[0]
      case Passed(p) =>
        PassRecordsWhatItSends(rows, p.list, p.sends, p.now);
        RolloutCommandIsNeverSent(AfterPass(rows, p.list, p.sends, p.now), rest, id, about);
      case Called(op, now) =>
        CallSendsNothing(rows, history, id, about);
        RolloutCommandIsNeverSent(if op.DeliverOp? then rows else Do(rows, op, now), rest, id, about);
    }
  }

  lemma CallSendsNothing(rows: Rows<string>, history: seq<Happening>, id: string, about: About)
    requires about.encoding.PlainJson? && NotSent(rows, id) && OnlyAsRollout(history, id, about)
    requires history != [] && history[0].Called?
    ensures NotSent(if history[0].op.DeliverOp? then rows else Do(rows, history[0].op, history[0].now), id)
  {
    var op := history[0].op;
    if op.EnqueueOp? && op.id == id {
      var version :| op.payload == DesiredState(about, version);
      DesiredStateIsReadableExactly(about, version, version);
    }
    hide DesiredState;
  }

  // ----- A cluster held up by rollout commands

  /** The payload of a rollout command as the service writes it. */
  ghost predicate OfRollout(payload: Payload) {
    exists about: About, version :: about.encoding.PlainJson? && payload == DesiredState(about, version)
  }

  /** The passes in a history are over what the queue answers then, for this cluster or any other. */
  ghost predicate HistoryAnswers(rows: Rows<string>, retryAfter: int, history: seq<Happening>)
    decreases |history|
  {
    history == [] ||
    ((history[0].Passed? ==> exists cluster ::
        DueList(rows, cluster, history[0].pass.now, retryAfter, DISPATCH_LIMIT, history[0].pass.list))
     && HistoryAnswers(AfterOne(rows, history[0]), retryAfter, history[1..]))
  }

  /** No call of the history answers one of these commands. */
  predicate LeavesOpen(rows: Rows<string>, history: seq<Happening>, ids: set<string>) {
    forall i, b | 0 <= i < |history| && history[i].Called? && b in ids && b in rows :: !Retires(history[i].op, b, rows[b])
  }

  lemma HappeningKeepsBlockers(rows: Rows<string>, cluster: string, retryAfter: int, history: seq<Happening>,
                               blockers: set<string>, id: string)
    requires history != [] && Blocks(rows, cluster, blockers, id) && |blockers| >= DISPATCH_LIMIT
    requires HistoryAnswers(rows, retryAfter, history) && LeavesOpen(rows, history, blockers)
    ensures var next := AfterOne(rows, history[0]);
            && Blocks(next, cluster, blockers, id) && next[id].attempts == rows[id].attempts
            && LeavesOpen(next, history[1..], blockers)
  {
    hide Readable, HistoryAnswers, AfterPass, Sent;
    var next := AfterOne(rows, history[0]);
    match history[0] {
      case Passed(p) =>
        var listed := ListedFor(rows, retryAfter, history);
        if listed == cluster {
          BlockedIsNotListed(rows, cluster, p.now, retryAfter, DISPATCH_LIMIT, p.list, blockers, id);
        }
        assert id !in p.list by {
          assert forall i | 0 <= i < |p.list| :: DueFor(rows, listed, p.list[i], p.now, retryAfter);
        }
        PassRecordsWhatItSends(rows, p.list, p.sends, p.now);
      case Called(op, now) =>
    }
    assert forall b | b in blockers :: next[b] == rows[b];
    assert forall i | 0 <= i < |history[1..]| :: history[1..][i] == history[i + 1];
  }

  lemma ListedFor(rows: Rows<string>, retryAfter: int, history: seq<Happening>) returns (cluster: string)
    requires history != [] && history[0].Passed? && HistoryAnswers(rows, retryAfter, history)
    ensures DueList(rows, cluster, history[0].pass.now, retryAfter, DISPATCH_LIMIT, history[0].pass.list)
  {
    cluster :| DueList(rows, cluster, history[0].pass.now, retryAfter, DISPATCH_LIMIT, history[0].pass.list);
  }

  lemma {:induction false} HeldUpThroughout(rows: Rows<string>, cluster: string, retryAfter: int, history: seq<Happening>,
                                            blockers: set<string>, id: string)
    requires Blocks(rows, cluster, blockers, id) && |blockers| >= DISPATCH_LIMIT
    requires HistoryAnswers(rows, retryAfter, history) && LeavesOpen(rows, history, blockers)
    ensures id in AfterAll(rows, history) && AfterAll(rows, history)[id].attempts == rows[id].attempts
    decreases |history|
  {
    hide Blocks, LeavesOpen, AfterOne;
    if history != [] {
      HappeningKeepsBlockers(rows, cluster, retryAfter, history, blockers, id);
      HeldUpThroughout(AfterOne(rows, history[0]), cluster, retryAfter, history[1..], blockers, id);
    } else {
      assert id in rows by { BlockedIsThere(rows, cluster, blockers, id); }
    }
  }

  lemma BlockedIsThere(rows: Rows<string>, cluster: string, blockers: set<string>, id: string)
    requires Blocks(rows, cluster, blockers, id)
    ensures id in rows
  {
  }

  /** Fifty unanswered rollout commands queued for one cluster stop its queue: whatever passes and calls
      follow, as long as none of them answers those, no younger command of the cluster is ever sent, readable
      or not. Nothing was sent that an agent could answer. */
  lemma RolloutCommandsHoldUpACluster(rows: Rows<string>, cluster: string, retryAfter: int, history: seq<Happening>,
                                      commands: set<string>, id: string)
    requires id in rows && rows[id].cluster == cluster && |commands| >= DISPATCH_LIMIT
    requires forall c | c in commands ::
               c in rows && rows[c].cluster == cluster && rows[c].status.CommandPending? && OfRollout(rows[c].payload)
               && rows[c].createdAt < rows[id].createdAt
    requires HistoryAnswers(rows, retryAfter, history) && LeavesOpen(rows, history, commands)
    ensures id in AfterAll(rows, history) && AfterAll(rows, history)[id].attempts == rows[id].attempts
  {
    forall c | c in commands ensures !Readable(rows[c].payload) {
      var about: About, version :| about.encoding.PlainJson? && rows[c].payload == DesiredState(about, version);
      DesiredStateIsReadableExactly(about, version, version);
    }
    HeldUpThroughout(rows, cluster, retryAfter, history, commands, id);
  }

  // ----- Acknowledgements

  /** An acknowledgement retires a queued command under its bare id, or under the first prefix that makes it
      one, and changes nothing if there is none. */
  lemma AckRetiresExactly(rows: Rows<string>, id: string, status: CommandStatus, message: string, now: int)
    requires status.CommandAcked? || status.CommandNacked?
    ensures var target := AckTarget(rows, id);
            var after := AfterAnswer(rows, target, status, message, now);
            && (target in rows <==> id in rows || exists i | 0 <= i < |ACK_PREFIXES| :: ACK_PREFIXES[i] + id in rows)
            && (target !in rows ==> after == rows)
            && (target in rows ==> !Open(after[target]) && forall k | k in rows && k != target :: after[k] == rows[k])
            && (id in rows ==> target == id)
            && (forall i | 0 <= i < |ACK_PREFIXES| && id !in rows && ACK_PREFIXES[i] + id in rows ::
                  (forall j | 0 <= j < i :: ACK_PREFIXES[j] + id !in rows) ==> target == ACK_PREFIXES[i] + id)
            && (target in rows ==> after[target].status == status && after[target].message == message && after[target].payload == rows[target].payload)
  {
    forall i | 0 <= i < |ACK_PREFIXES| && ACK_PREFIXES[i] + id in rows ensures AckTarget(rows, id) in rows {
      assert i == 0 || i == 1 || i == 2;
    }
  }
}
