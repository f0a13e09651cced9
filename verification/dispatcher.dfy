/** Delivery of stream messages to one handler's consumer: one disposition per delivery, delayed retries,
    and a dead letter when the delivery budget is spent. Delays are in seconds. */
module Dispatch {
  const LONGEST_DELAY := 30

  const BASE := [1, 2, 5, 10]

  function DelayAt(i: nat): nat {
    if i < |BASE| then BASE[i] else LONGEST_DELAY
  }

  /** One delay per delivery: 1, 2, 5, 10, then 30 seconds. */
  method BackoffSchedule(maxDeliver: int) returns (out: seq<nat>)
    ensures |out| == if maxDeliver < 0 then 0 else maxDeliver
    ensures forall i | 0 <= i < |out| :: out[i] == DelayAt(i)
  {
    out := [];
    var i := 0;
    while i < maxDeliver
      invariant |out| == i && if maxDeliver < 0 then i == 0 else i <= maxDeliver
      invariant forall j | 0 <= j < i :: out[j] == DelayAt(j)
    {
      if i < |BASE| {
        out := out + [BASE[i]];
      } else {
        out := out + [LONGEST_DELAY];
      }
      i := i + 1;
    }
  }

  function DelayFor(maxDeliver: nat, delivered: nat): nat
    requires maxDeliver > 0
  {
    DelayAt(if delivered == 0 then 0 else if delivered >= maxDeliver then maxDeliver - 1 else delivered - 1)
  }

  /** The delay before the next delivery; the budget is positive, since only a positive one is accepted. */
  method RetryDelay(maxDeliver: nat, delivered: nat) returns (delay: nat)
    requires maxDeliver > 0
    ensures delay == DelayFor(maxDeliver, delivered)
  {
    var schedule := BackoffSchedule(maxDeliver);
    var idx: int := delivered - 1;
    if idx < 0 {
      idx := 0;
    }
    if idx >= |schedule| {
      idx := |schedule| - 1;
    }
    delay := schedule[idx];
  }

  /** Every retry waits for an entry of the schedule, and later deliveries never wait less. */
  lemma DelaysNeverDecrease(maxDeliver: nat, a: nat, b: nat)
    requires maxDeliver > 0 && a <= b
    ensures DelayFor(maxDeliver, a) in {1, 2, 5, 10, 30}
    ensures DelayFor(maxDeliver, a) <= DelayFor(maxDeliver, b)
    ensures maxDeliver == 1 ==> DelayFor(maxDeliver, a) == 1
    ensures 5 <= a && 5 <= maxDeliver ==> DelayFor(maxDeliver, a) == LONGEST_DELAY
  {
    assert forall i: nat, j: nat | i <= j :: DelayAt(i) <= DelayAt(j);
  }

  /** What one delivery meets: whether the message can be decoded, is of a type the handler takes, makes it
      fail, comes during shutdown, and carries readable metadata; whether the process dies before the
      disposition, and whether the disposition reaches the server. */
  datatype Delivery = Delivery(readable: bool, matches: bool, fails: bool, shutdown: bool, metadata: bool,
                               diesBefore: bool, settleArrives: bool)

  datatype Disposition =
    | AckUndecodable
    | AckSkipped
    | AckHandled
    | NakForShutdown
    | DeadLetter
    | NakWithDelay(delay: nat)

  /** The stream's view of one message for one consumer, and what the handler and the outbox row saw. */
  datatype Message = Message(delivered: nat, settled: bool, runs: nat, deadLetters: nat)

  const FRESH := Message(0, false, 0, 0)

  predicate Runs(d: Delivery) {
    d.readable && d.matches
  }

  /** The one disposition of a delivery that is the `n`-th of its message. */
  function Dispose(d: Delivery, n: nat, maxDeliver: nat): Disposition
    requires maxDeliver > 0
  {
    if !d.readable then AckUndecodable
    else if !d.matches then AckSkipped
    else if !d.fails then AckHandled
    else if d.shutdown then NakForShutdown
    else
      var delivered := if d.metadata then n else 0;
      if delivered >= maxDeliver then DeadLetter else NakWithDelay(DelayFor(maxDeliver, delivered))
  }

  predicate Acks(a: Disposition) {
    a.AckUndecodable? || a.AckSkipped? || a.AckHandled? || a.DeadLetter?
  }

  /** The server delivers an unsettled message until its budget is spent. */
  predicate Deliverable(m: Message, maxDeliver: nat) {
    !m.settled && m.delivered < maxDeliver
  }

  function AfterDelivery(m: Message, d: Delivery, maxDeliver: nat): Message
    requires maxDeliver > 0
  {
    if !Deliverable(m, maxDeliver) then m
    else
      var n := m.delivered + 1;
      var runs := m.runs + (if Runs(d) then 1 else 0);
      if d.diesBefore then m.(delivered := n, runs := runs)
      else
        var a := Dispose(d, n, maxDeliver);
        Message(n, Acks(a) && d.settleArrives, runs, m.deadLetters + (if a.DeadLetter? then 1 else 0))
  }

  function AfterAll(m: Message, ds: seq<Delivery>, maxDeliver: nat): Message
    requires maxDeliver > 0
    decreases |ds|
  {
    if ds == [] then m else AfterAll(AfterDelivery(m, ds[0], maxDeliver), ds[1..], maxDeliver)
  }

  /** The consumer of one handler. */
  class Consumer {
    const maxDeliver: nat
    var message: Message
    var lastError: string

    constructor (maxDeliver: nat)
      requires maxDeliver > 0
      ensures this.maxDeliver == maxDeliver && message == FRESH && lastError == ""
    {
      this.maxDeliver, message, lastError := maxDeliver, FRESH, "";
    }

    /** Process one delivery that is not cut short; `error` is the handler's. Reports false on shutdown. */
    method Deliver(d: Delivery, error: string) returns (did: Disposition, ok: bool)
      requires maxDeliver > 0 && Deliverable(message, maxDeliver) && !d.diesBefore
      modifies this
      ensures did == Dispose(d, old(message.delivered) + 1, maxDeliver)
      ensures message == AfterDelivery(old(message), d, maxDeliver)
      ensures ok <==> !did.NakForShutdown?
      ensures lastError == if did.DeadLetter? then error else old(lastError)
    {
      message := message.(delivered := message.delivered + 1);
      if !d.readable {
        message := message.(settled := d.settleArrives);
        return AckUndecodable, true;
      }
      if !d.matches {
        message := message.(settled := d.settleArrives);
        return AckSkipped, true;
      }
      message := message.(runs := message.runs + 1);
      if !d.fails {
        message := message.(settled := d.settleArrives);
        return AckHandled, true;
      }
      if d.shutdown {
        return NakForShutdown, false;
      }
      var delivered := 0;
      if d.metadata {
        delivered := message.delivered;
      }
      if delivered >= maxDeliver {
        lastError := error;
        message := message.(deadLetters := message.deadLetters + 1, settled := d.settleArrives);
        return DeadLetter, true;
      }
      var delay := RetryDelay(maxDeliver, delivered);
      return NakWithDelay(delay), true;
    }
  }

  lemma {:induction false} SettledForGood(m: Message, ds: seq<Delivery>, maxDeliver: nat)
    requires maxDeliver > 0 && !Deliverable(m, maxDeliver)
    ensures AfterAll(m, ds, maxDeliver) == m
    decreases |ds|
  {
    if ds != [] {
      SettledForGood(m, ds[1..], maxDeliver);
    }
  }

  predicate AlwaysFails(ds: seq<Delivery>) {
    forall i | 0 <= i < |ds| :: Runs(ds[i]) && ds[i].fails
  }

  /** The delivery that spends the budget can tell that it does. */
  predicate LastOneTells(d: Delivery) {
    !d.shutdown && d.metadata && !d.diesBefore
  }

  lemma {:induction false} FailingFrom(m: Message, ds: seq<Delivery>, maxDeliver: nat)
    requires maxDeliver > 0 && AlwaysFails(ds) && !m.settled && m.delivered < maxDeliver
    requires m.runs == m.delivered && m.deadLetters == 0
    ensures var v := AfterAll(m, ds, maxDeliver);
            if m.delivered + |ds| < maxDeliver
            then v == Message(m.delivered + |ds|, false, m.runs + |ds|, 0)
            else
              && v.delivered == maxDeliver && v.runs == maxDeliver
              && v.deadLetters == (if LastOneTells(ds[maxDeliver - 1 - m.delivered]) then 1 else 0)
    decreases |ds|
  {
    if ds != [] {
      var next := AfterDelivery(m, ds[0], maxDeliver);
      if m.delivered + 1 == maxDeliver {
        SettledForGood(next, ds[1..], maxDeliver);
      } else {
        FailingFrom(next, ds[1..], maxDeliver);
      }
    }
  }

  /** A handler that always fails runs exactly as often as the budget allows, however many deliveries are
      attempted, and its event becomes a dead letter, once, exactly if the delivery that spends the budget
      is not cut short by a crash or a shutdown and can read its own delivery count. */
  lemma FailingHandlerIsBounded(ds: seq<Delivery>, maxDeliver: nat)
    requires maxDeliver > 0 && AlwaysFails(ds)
    ensures AfterAll(FRESH, ds, maxDeliver).runs == if |ds| < maxDeliver then |ds| else maxDeliver
    ensures AfterAll(FRESH, ds, maxDeliver).deadLetters
         == if |ds| >= maxDeliver && LastOneTells(ds[maxDeliver - 1]) then 1 else 0
  {
    FailingFrom(FRESH, ds, maxDeliver);
  }

  lemma {:induction false} AfterAllAppend(m: Message, a: seq<Delivery>, b: seq<Delivery>, maxDeliver: nat)
    requires maxDeliver > 0
    ensures AfterAll(m, a + b, maxDeliver) == AfterAll(AfterAll(m, a, maxDeliver), b, maxDeliver)
    decreases |a|
  {
    if a == [] {
      assert a + b == b;
    } else {
      assert (a + b)[1..] == a[1..] + b;
      AfterAllAppend(AfterDelivery(m, a[0], maxDeliver), a[1..], b, maxDeliver);
    }
  }

  /** A success whose acknowledgement arrives is never run again, whatever is delivered after it. */
  lemma SuccessIsFinal(m: Message, before: seq<Delivery>, d: Delivery, after: seq<Delivery>, maxDeliver: nat)
    requires maxDeliver > 0 && Runs(d) && !d.fails && !d.diesBefore && d.settleArrives
    ensures AfterAll(m, before + [d] + after, maxDeliver) == AfterAll(m, before + [d], maxDeliver)
    ensures AfterAll(m, before + [d], maxDeliver).settled || AfterAll(m, before, maxDeliver).delivered >= maxDeliver
  {
    var u := AfterAll(m, before, maxDeliver);
    AfterAllAppend(m, before, [d], maxDeliver);
    AfterAllAppend(m, before + [d], after, maxDeliver);
    assert [d][1..] == [];
    SettledForGood(AfterDelivery(u, d, maxDeliver), after, maxDeliver);
  }

  /** No message is delivered more often than its budget, nor dead-lettered twice. */
  lemma {:induction false} BudgetHolds(m: Message, ds: seq<Delivery>, maxDeliver: nat)
    requires maxDeliver > 0 && m.delivered <= maxDeliver && m.runs <= m.delivered
    requires m.deadLetters <= if m.delivered == maxDeliver then 1 else 0
    ensures var v := AfterAll(m, ds, maxDeliver);
            v.runs <= v.delivered <= maxDeliver && v.deadLetters <= 1
    decreases |ds|
  {
    if ds != [] {
      BudgetHolds(AfterDelivery(m, ds[0], maxDeliver), ds[1..], maxDeliver);
    }
  }

  // ----- What becomes of one delivery

  /** A delivery that reaches its end leaves the message to come again exactly if its handler failed and may
      be tried again: there is budget left by the count it can read, or the process is shutting down. */
  lemma ComesAgainExactly(m: Message, d: Delivery, maxDeliver: nat)
    requires maxDeliver > 0 && Deliverable(m, maxDeliver) && !d.diesBefore && d.settleArrives
    ensures var v := AfterDelivery(m, d, maxDeliver);
            && (!v.settled <==> d.readable && d.matches && d.fails && (d.shutdown || !d.metadata || m.delivered + 1 < maxDeliver))
            && v.delivered == m.delivered + 1
            && v.runs == m.runs + (if d.readable && d.matches then 1 else 0)
            && (v.deadLetters == m.deadLetters + 1 <==>
                  d.readable && d.matches && d.fails && !d.shutdown && d.metadata && m.delivered + 1 == maxDeliver)
            && (v.deadLetters != m.deadLetters + 1 ==> v.deadLetters == m.deadLetters)
  {
  }

  /** After its n-th failing delivery a message waits for the n-th entry of 1, 2, 5, 10, 30, 30, ... */
  lemma RetryWaits(d: Delivery, n: nat, maxDeliver: nat)
    requires 1 <= n < maxDeliver && d.readable && d.matches && d.fails && !d.shutdown && d.metadata
    ensures Dispose(d, n, maxDeliver)
         == NakWithDelay(if n == 1 then 1 else if n == 2 then 2 else if n == 3 then 5 else if n == 4 then 10 else 30)
  {
  }
}
